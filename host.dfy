/**
 * The WordPress/WooCommerce state the engine reads and writes.  Products
 * (`WC_Product`, `WC_Product_Variable`, `WC_Product_Variation` as the test
 * bootstrap defines them), attribute objects, registered taxonomies, global
 * attributes, terms, term assignments, post meta holding backups, the
 * templates option and post titles all live in one `HostState` value held
 * by the `Store` object.  Each WordPress/WooCommerce function the engine
 * calls is a transition on that value, and mutating object methods are
 * `Store` methods that perform it.
 */
module Host {
  import opened PhpCore
  import opened PhpString
  import opened PhpArray
  import opened Sanitize

  /** An option of an attribute object: free text, or a term id once the attribute is global. */
  datatype OptionValue = Text(text: string) | TermId(id: int)

  /** `WC_Product_Attribute`. */
  datatype ProductAttribute = ProductAttribute(
    id: int,
    name: string,
    options: seq<OptionValue>,
    position: int,
    visible: bool,
    variation: bool)
  {
    /** `is_taxonomy()`: the name starts with `pa_` and the id is positive. */
    predicate IsTaxonomy()
    {
      StartsWith(name, "pa_") && id > 0
    }
  }

  /**
   * An entry of a product's `attributes` array: an attribute object, a
   * legacy (pre-object) array, or a plain string as variations hold.
   */
  datatype AttributeValue =
    | AttributeObject(attr: ProductAttribute)
    | LegacyArray(fields: seq<(string, string)>)
    | Scalar(text: string)

  /**
   * A product.  `isVariation` says whether the object is a
   * `WC_Product_Variation`, `isVariable` is the stub's `is_variable` flag
   * (which `WC_Product_Variable`'s constructor sets), and `meta` is the
   * variation meta store (`WC_Product` itself has none).
   */
  datatype Product = Product(
    isVariation: bool,
    isVariable: bool,
    attributes: seq<(string, AttributeValue)>,
    children: seq<int>,
    meta: map<string, string>,
    saved: bool)
  {
    /** `is_type('variable')`. */
    predicate IsVariable()
    {
      isVariable
    }
  }

  /** What `get_meta($key)` returns: one value, or the whole meta array for an empty key. */
  datatype MetaRead = MetaValue(value: string) | AllMeta(all: map<string, string>)

  /** `WC_Product_Variation::get_meta`. */
  function GetMeta(meta: map<string, string>, key: string): MetaRead
  {
    if EmptyString(key) then AllMeta(meta)
    else MetaValue(if key in meta then meta[key] else "")
  }

  /** `(string) $variation->get_meta($key)`; an array converts to `"Array"`. */
  function MetaText(meta: map<string, string>, key: string): string
  {
    match GetMeta(meta, key)
    case MetaValue(v) => v
    case AllMeta(_) => "Array"
  }

  /** `update_meta_data($key, $value)`. */
  function UpdateMeta(meta: map<string, string>, key: string, value: string): (m: map<string, string>)
    ensures EmptyString(key) || MetaText(m, key) == value
    ensures forall k :: !EmptyString(k) && k != key ==> MetaText(m, k) == MetaText(meta, k)
  {
    meta[key := value]
  }

  /** `delete_meta_data($key)`. */
  function DeleteMeta(meta: map<string, string>, key: string): (m: map<string, string>)
    ensures EmptyString(key) || MetaText(m, key) == ""
    ensures forall k :: !EmptyString(k) && k != key ==> MetaText(m, k) == MetaText(meta, k)
  {
    meta - {key}
  }

  /** A global attribute as `wc_create_attribute` stores it. */
  datatype GlobalAttribute = GlobalAttribute(id: int, displayName: string, orderBy: string, hasArchives: bool)

  /** A term of a taxonomy. */
  datatype Term = Term(id: int, taxonomy: string, slug: string, name: string)

  /** One `wp_set_object_terms` call. */
  datatype TermAssignment = TermAssignment(productId: int, termIds: seq<int>, taxonomy: string, append: bool)

  /** One backup: creation time, the attribute data and each variation's attributes. */
  datatype Backup = Backup(
    createdAt: int,
    attributes: seq<(string, ProductAttribute)>,
    variations: seq<(int, seq<(string, AttributeValue)>)>)

  /** The backups post meta: either not an array (absent meta reads as `''`) or backups by id. */
  datatype BackupsMeta = BackupsNotArray | Backups(entries: seq<(string, Backup)>)

  /** What a template stores: the target taxonomy and each local value's slug. */
  datatype TemplateConfig = TemplateConfig(targetTax: string, terms: seq<(string, string)>)

  /** The templates option: either not an array or templates by label. */
  datatype TemplatesOption = TemplatesNotArray | Templates(entries: seq<(string, TemplateConfig)>)

  /**
   * Everything the engine can observe or change outside its own objects.
   * `rejectedTerms` and `rejectedAttributes` say for which
   * (taxonomy, slug) pairs and attribute slugs WordPress answers an insert
   * with a `WP_Error`, and with which message; `nextId` is the id the next
   * insert receives.
   */
  datatype HostState = HostState(
    products: map<int, Product>,
    postTitles: map<int, string>,
    taxonomies: set<string>,
    attributeTaxonomies: map<string, GlobalAttribute>,
    terms: seq<Term>,
    objectTerms: seq<TermAssignment>,
    nextId: int,
    rejectedTerms: map<(string, string), string>,
    rejectedAttributes: map<string, string>,
    backups: map<int, BackupsMeta>,
    templates: TemplatesOption,
    synced: seq<int>)

  /** `wc_get_product($id) instanceof WC_Product_Variation`. */
  predicate IsVariationId(h: HostState, id: int)
  {
    id in h.products && h.products[id].isVariation
  }

  /** `taxonomy_exists($taxonomy)`. */
  predicate TaxonomyExists(h: HostState, taxonomy: string)
  {
    taxonomy in h.taxonomies
  }

  /** The first term of `terms`, in insertion order, that `matches`. */
  function FindTerm(terms: seq<Term>, matches: Term -> bool): (r: Option<Term>)
    ensures r.Some? ==> r.value in terms && matches(r.value)
    ensures r.None? ==> forall t :: t in terms ==> !matches(t)
  {
    var i := FirstWhere(terms, matches);
    if i.Some? then Some(terms[i.value]) else None
  }

  /** Appending terms never changes which term a successful lookup finds. */
  lemma FindTermExtends(terms: seq<Term>, more: seq<Term>, matches: Term -> bool)
    requires FindTerm(terms, matches).Some?
    ensures FindTerm(terms + more, matches) == FindTerm(terms, matches)
  {
    var k := FirstWhere(terms, matches).value;
    assert (terms + more)[k] == terms[k];
    forall j | 0 <= j < k ensures !matches((terms + more)[j]) {
      assert (terms + more)[j] == terms[j];
    }
    FirstWhereAt(terms + more, matches, k);
  }

  /** A term with this id in this taxonomy. */
  function HasId(id: int, taxonomy: string): Term -> bool
  {
    (t: Term) => t.id == id && t.taxonomy == taxonomy
  }

  /** A term with this slug in this taxonomy. */
  function HasSlug(slug: string, taxonomy: string): Term -> bool
  {
    (t: Term) => t.slug == slug && t.taxonomy == taxonomy
  }

  /** `get_term($id, $taxonomy)`, as a term or `null`. */
  function GetTerm(h: HostState, id: int, taxonomy: string): Option<Term>
  {
    FindTerm(h.terms, HasId(id, taxonomy))
  }

  /** `get_term_by('slug', $slug, $taxonomy)`. */
  function GetTermBySlug(h: HostState, slug: string, taxonomy: string): Option<Term>
  {
    FindTerm(h.terms, HasSlug(slug, taxonomy))
  }

  /** `term_exists($slug, $taxonomy)`, by slug. */
  predicate TermExists(h: HostState, slug: string, taxonomy: string)
  {
    GetTermBySlug(h, slug, taxonomy).Some?
  }

  /** `wp_insert_term($name, $taxonomy, ['slug' => $slug])`: the new id and state, or the `WP_Error` message. */
  function InsertTerm(h: HostState, name: string, taxonomy: string, slug: string): (Result<int>, HostState)
  {
    if (taxonomy, slug) in h.rejectedTerms then (Throw(RuntimeError(h.rejectedTerms[(taxonomy, slug)])), h)
    else (Ok(h.nextId), h.(terms := h.terms + [Term(h.nextId, taxonomy, slug, name)], nextId := h.nextId + 1))
  }

  /** `wc_attribute_taxonomy_id_by_name($slug)`: the id, or 0 for an unknown attribute. */
  function AttributeIdByName(h: HostState, slug: string): int
  {
    if slug in h.attributeTaxonomies then h.attributeTaxonomies[slug].id else 0
  }

  /** `wc_create_attribute([...])`: the new id and state, or the `WP_Error` message. */
  function CreateAttribute(h: HostState, displayName: string, slug: string, orderBy: string, hasArchives: bool): (Result<int>, HostState)
  {
    if slug in h.rejectedAttributes then (Throw(RuntimeError(h.rejectedAttributes[slug])), h)
    else
      (Ok(h.nextId),
       h.(attributeTaxonomies := h.attributeTaxonomies[slug := GlobalAttribute(h.nextId, displayName, orderBy, hasArchives)],
          nextId := h.nextId + 1))
  }

  /** `wc_register_attribute_taxonomies()`: every global attribute's `pa_` taxonomy becomes registered. */
  function RegisterAttributeTaxonomies(h: HostState): (h': HostState)
    ensures forall s :: s in h.attributeTaxonomies ==> TaxonomyExists(h', "pa_" + s)
  {
    h.(taxonomies := h.taxonomies + set s | s in h.attributeTaxonomies :: "pa_" + s)
  }

  /** `wc_get_product_variation_attributes($id)`: the variation's meta entries whose key starts with `attribute_`. */
  function VariationAttributeMeta(h: HostState, id: int): (r: map<string, string>)
    ensures !IsVariationId(h, id) ==> r == map[]
    ensures IsVariationId(h, id) ==>
      forall k :: (k in r <==> k in h.products[id].meta && StartsWith(k, "attribute_")) &&
                  (k in r ==> r[k] == h.products[id].meta[k])
  {
    if !IsVariationId(h, id) then map[]
    else
      var meta := h.products[id].meta;
      map k | k in meta && StartsWith(k, "attribute_") :: meta[k]
  }

  /** The host state with product `id`'s meta replaced. */
  function WithMeta(h: HostState, id: int, meta: map<string, string>): HostState
    requires id in h.products
  {
    h.(products := h.products[id := h.products[id].(meta := meta)])
  }

  /** The host state with product `id`'s attributes replaced. */
  function WithAttributes(h: HostState, id: int, attributes: seq<(string, AttributeValue)>): HostState
    requires id in h.products
  {
    h.(products := h.products[id := h.products[id].(attributes := attributes)])
  }

  /** Writing a product's own meta back changes nothing. */
  lemma WithOwnMeta(h: HostState, id: int)
    requires id in h.products
    ensures WithMeta(h, id, h.products[id].meta) == h
  {
    assert h.products[id].(meta := h.products[id].meta) == h.products[id];
    assert h.products[id := h.products[id]] == h.products;
  }

  /** Writing a product back unchanged changes nothing. */
  lemma PutOwnProduct(h: HostState, id: int)
    requires id in h.products
    ensures h.(products := h.products[id := h.products[id]]) == h
  {
    assert h.products[id := h.products[id]] == h.products;
  }

  /** A second meta write replaces the first. */
  lemma WithMetaTwice(h: HostState, id: int, m1: map<string, string>, m2: map<string, string>)
    requires id in h.products
    ensures WithMeta(WithMeta(h, id, m1), id, m2) == WithMeta(h, id, m2)
  {
    var p := h.products[id];
    assert p.(meta := m1).(meta := m2) == p.(meta := m2);
    assert h.products[id := p.(meta := m1)][id := p.(meta := m2)] == h.products[id := p.(meta := m2)];
  }

  /** A meta write, an attributes write and a second meta write on one product amount to replacing both fields. */
  lemma WithMetaAttributesMeta(h: HostState, id: int, m1: map<string, string>, attributes: seq<(string, AttributeValue)>, m2: map<string, string>)
    requires id in h.products
    ensures WithMeta(WithAttributes(WithMeta(h, id, m1), id, attributes), id, m2) ==
            h.(products := h.products[id := h.products[id].(attributes := attributes, meta := m2)])
  {
    var p := h.products[id];
    assert h.products[id := p.(meta := m1)][id := p.(meta := m1).(attributes := attributes)][id := p.(meta := m1).(attributes := attributes).(meta := m2)] ==
           h.products[id := p.(attributes := attributes, meta := m2)];
  }

  /** `h2` differs from `h` at most in the attributes and meta of product `id`. */
  predicate OnlyProductChanged(h: HostState, h2: HostState, id: int)
  {
    h2.products.Keys == h.products.Keys &&
    h2 == h.(products := h2.products) &&
    (forall k :: k in h.products && k != id ==> h2.products[k] == h.products[k]) &&
    (id in h.products ==> h2.products[id] == h.products[id].(attributes := h2.products[id].attributes, meta := h2.products[id].meta))
  }

  lemma OnlyProductChangedNothing(h: HostState, id: int)
    ensures OnlyProductChanged(h, h, id)
  {
    assert h == h.(products := h.products);
  }

  /** Replacing a product by one that differs only in attributes and meta changes only that product. */
  lemma PutProductChangesOnly(h: HostState, id: int, p: Product)
    requires id in h.products
    requires p == h.products[id].(attributes := p.attributes, meta := p.meta)
    ensures OnlyProductChanged(h, h.(products := h.products[id := p]), id)
  {
    var h2 := h.(products := h.products[id := p]);
    assert h2.products.Keys == h.products.Keys;
    assert h2 == h.(products := h2.products);
  }

  lemma WithMetaChangesOnly(h: HostState, id: int, meta: map<string, string>)
    requires id in h.products
    ensures OnlyProductChanged(h, WithMeta(h, id, meta), id)
  {
    PutProductChangesOnly(h, id, h.products[id].(meta := meta));
  }

  /** `h2` differs from `h` at most in the attributes and meta of its products. */
  predicate OnlyAttributesAndMetaChanged(h: HostState, h2: HostState)
  {
    h2.products.Keys == h.products.Keys &&
    h2 == h.(products := h2.products) &&
    forall k :: k in h.products ==> h2.products[k] == h.products[k].(attributes := h2.products[k].attributes, meta := h2.products[k].meta)
  }

  lemma NothingChanged(h: HostState)
    ensures OnlyAttributesAndMetaChanged(h, h)
  {
    assert h == h.(products := h.products);
  }

  /** Whatever is stored as templates, the products and every other part stay as `h2` had them. */
  lemma TemplatesAside(h: HostState, h2: HostState, t: TemplatesOption)
    requires OnlyAttributesAndMetaChanged(h, h2)
    ensures OnlyAttributesAndMetaChanged(h, h2.(templates := t).(templates := h.templates))
  {
    assert h2.(templates := t).(templates := h.templates) == h2;
  }

  lemma OnlyAttributesAndMetaChain(h: HostState, h2: HostState, h3: HostState, id: int)
    requires OnlyAttributesAndMetaChanged(h, h2)
    requires OnlyProductChanged(h2, h3, id)
    ensures OnlyAttributesAndMetaChanged(h, h3)
  {
    forall k | k in h.products
      ensures h3.products[k] == h.products[k].(attributes := h3.products[k].attributes, meta := h3.products[k].meta)
    {
      if k != id {
        assert h3.products[k] == h2.products[k];
      }
    }
  }

  /** The host objects the engine mutates in place. */
  class Store {
    var st: HostState

    constructor(initial: HostState)
      ensures st == initial
    {
      st := initial;
    }

    /** `$variation->update_meta_data($key, $value)`. */
    method UpdateMetaData(id: int, key: string, value: string)
      requires id in st.products
      modifies this
      ensures st == WithMeta(old(st), id, UpdateMeta(old(st.products[id].meta), key, value))
    {
      st := WithMeta(st, id, UpdateMeta(st.products[id].meta, key, value));
    }

    /** `$variation->delete_meta_data($key)`. */
    method DeleteMetaData(id: int, key: string)
      requires id in st.products
      modifies this
      ensures st == WithMeta(old(st), id, DeleteMeta(old(st.products[id].meta), key))
    {
      st := WithMeta(st, id, DeleteMeta(st.products[id].meta, key));
    }

    /**
     * The write the remapper forces after changing a variation: whatever
     * else happens to caches and hooks, afterwards `meta[$key]` is `$value`.
     */
    method UpsertMeta(id: int, key: string, value: string)
      requires id in st.products
      modifies this
      ensures st == WithMeta(old(st), id, UpdateMeta(old(st.products[id].meta), key, value))
    {
      UpdateMetaData(id, key, value);
    }

    /** `$product->set_attributes($attributes)`. */
    method SetAttributes(id: int, attributes: seq<(string, AttributeValue)>)
      requires id in st.products
      modifies this
      ensures st == WithAttributes(old(st), id, attributes)
    {
      st := WithAttributes(st, id, attributes);
    }

    /** `$product->save()`. */
    method Save(id: int)
      requires id in st.products
      modifies this
      ensures st == old(st.(products := st.products[id := st.products[id].(saved := true)]))
    {
      st := st.(products := st.products[id := st.products[id].(saved := true)]);
    }

    /** `wp_set_object_terms($id, $termIds, $taxonomy, $append)`: recorded in order. */
    method SetObjectTerms(id: int, termIds: seq<int>, taxonomy: string, append: bool)
      modifies this
      ensures st == old(st.(objectTerms := st.objectTerms + [TermAssignment(id, termIds, taxonomy, append)]))
    {
      st := st.(objectTerms := st.objectTerms + [TermAssignment(id, termIds, taxonomy, append)]);
    }

    /** `wp_insert_term`. */
    method InsertTermCall(name: string, taxonomy: string, slug: string) returns (r: Result<int>)
      modifies this
      ensures (r, st) == InsertTerm(old(st), name, taxonomy, slug)
    {
      var out := InsertTerm(st, name, taxonomy, slug);
      r := out.0;
      st := out.1;
    }

    /** `wc_create_attribute`. */
    method CreateAttributeCall(displayName: string, slug: string, orderBy: string, hasArchives: bool) returns (r: Result<int>)
      modifies this
      ensures (r, st) == CreateAttribute(old(st), displayName, slug, orderBy, hasArchives)
    {
      var out := CreateAttribute(st, displayName, slug, orderBy, hasArchives);
      r := out.0;
      st := out.1;
    }

    /** `wc_register_attribute_taxonomies()`. */
    method RegisterAttributeTaxonomiesCall()
      modifies this
      ensures st == RegisterAttributeTaxonomies(old(st))
    {
      st := RegisterAttributeTaxonomies(st);
    }

    /** `register_taxonomy($taxonomy, ...)`. */
    method RegisterTaxonomy(taxonomy: string)
      modifies this
      ensures st == old(st.(taxonomies := st.taxonomies + {taxonomy}))
    {
      st := st.(taxonomies := st.taxonomies + {taxonomy});
    }

    /** `update_post_meta($id, '_local2global_backups', $backups)`. */
    method UpdateBackups(id: int, backups: BackupsMeta)
      modifies this
      ensures st == old(st.(backups := st.backups[id := backups]))
    {
      st := st.(backups := st.backups[id := backups]);
    }

    /** `update_option('local2global_attribute_templates', $templates)`. */
    method UpdateTemplates(templates: TemplatesOption)
      modifies this
      ensures st == old(st.(templates := templates))
    {
      st := st.(templates := templates);
    }

    /** `WC_Product_Variable::sync($product)`: recorded in order. */
    method Sync(id: int)
      modifies this
      ensures st == old(st.(synced := st.synced + [id]))
    {
      st := st.(synced := st.synced + [id]);
    }
  }
}
