/**
 * `Discovery_Service`: list a product's local (non-taxonomy) attribute
 * objects, in order, with their cleaned values and whether any variation
 * uses them.
 */
module Discovery {
  import opened PhpCore
  import opened PhpString
  import opened PhpArray
  import opened Sanitize
  import opened Host

  /** One entry of `discover(...)['attributes']`; `suggestion` is always `null`. */
  datatype DiscoveredAttribute = DiscoveredAttribute(
    name: string,
    labelText: string,
    values: seq<OptionValue>,
    inVariations: bool,
    suggestion: Option<TemplateConfig>)

  /** `wc_clean` on one option: strings are trimmed, anything else is returned as is. */
  function CleanOption(o: OptionValue): (r: OptionValue)
    ensures r.Text? <==> o.Text?
    ensures o.TermId? ==> r == o
  {
    match o
    case Text(t) => Text(WcClean(t))
    case TermId(_) => o
  }

  /** `array_map('wc_clean', $options)`. */
  function CleanOptions(options: seq<OptionValue>): (r: seq<OptionValue>)
    ensures |r| == |options|
    ensures forall i :: 0 <= i < |options| ==> r[i] == CleanOption(options[i])
  {
    seq(|options|, i requires 0 <= i < |options| => CleanOption(options[i]))
  }

  /** The entries `discover` reports: attribute objects that are not taxonomies. */
  predicate IsLocalObject(v: AttributeValue)
  {
    v.AttributeObject? && !v.attr.IsTaxonomy()
  }

  /** The meta key a variation stores the local attribute's value under. */
  function VariationMetaKey(name: string): string
  {
    "attribute_" + SanitizeTitle(name)
  }

  /** A child id that loads as a variation with a non-empty value under `key`. */
  predicate ChildUses(h: HostState, vid: int, key: string)
  {
    IsVariationId(h, vid) && MetaText(h.products[vid].meta, key) != ""
  }

  /**
   * `attribute_used_in_variations`: the parent is variable and some child
   * that loads as a variation carries a non-empty value under
   * `attribute_<sanitize_title(name)>`.
   */
  predicate UsedInVariations(h: HostState, p: Product, name: string)
  {
    p.IsVariable() && exists i :: 0 <= i < |p.children| && ChildUses(h, p.children[i], VariationMetaKey(name))
  }

  /** A non-variable or childless parent is never reported as used in variations. */
  lemma NotUsedWithoutChildren(h: HostState, p: Product, name: string)
    requires !p.IsVariable() || p.children == []
    ensures !UsedInVariations(h, p, name)
  {
  }

  /** What `discover` reports for one local attribute object of product `p`. */
  function Described(h: HostState, p: Product, a: ProductAttribute): DiscoveredAttribute
  {
    var values := CleanOptions(a.options);
    DiscoveredAttribute(a.name, a.name, values, UsedInVariations(h, p, a.name), None)
  }

  /** The loop of `discover` over the first attributes of product `p`. */
  function DiscoverFrom(h: HostState, p: Product, attrs: seq<(string, AttributeValue)>): (r: seq<DiscoveredAttribute>)
    ensures |r| <= |attrs|
    decreases |attrs|
  {
    if attrs == [] then []
    else
      var e := attrs[|attrs| - 1];
      DiscoverFrom(h, p, attrs[..|attrs| - 1]) + (if IsLocalObject(e.1) then [Described(h, p, e.1.attr)] else [])
  }

  /** `discover($product_id)['attributes']`: nothing for an unknown product. */
  function Discovered(h: HostState, pid: int): seq<DiscoveredAttribute>
  {
    if pid !in h.products then []
    else DiscoverFrom(h, h.products[pid], h.products[pid].attributes)
  }

  /** Discovery is an order-preserving filter: the entries of `a + b` are those of `a`, then those of `b`. */
  lemma {:induction false} DiscoverConcat(h: HostState, p: Product, a: seq<(string, AttributeValue)>, b: seq<(string, AttributeValue)>)
    ensures DiscoverFrom(h, p, a + b) == DiscoverFrom(h, p, a) + DiscoverFrom(h, p, b)
    decreases |b|
  {
    if b == [] {
      assert a + b == a;
    } else {
      var front := b[..|b| - 1];
      assert (a + b)[..|a + b| - 1] == a + front;
      DiscoverConcat(h, p, a, front);
    }
  }

  /** A product with no local attribute object reports nothing. */
  lemma {:induction false} DiscoverNoLocal(h: HostState, p: Product, attrs: seq<(string, AttributeValue)>)
    requires forall i :: 0 <= i < |attrs| ==> !IsLocalObject(attrs[i].1)
    ensures DiscoverFrom(h, p, attrs) == []
    decreases |attrs|
  {
    if attrs != [] {
      var front := attrs[..|attrs| - 1];
      assert forall i :: 0 <= i < |front| ==> front[i] == attrs[i];
      DiscoverNoLocal(h, p, front);
    }
  }

  /**
   * When every entry is a local attribute object, there is one report per
   * entry, in order, carrying its name as name and label, its options
   * through `wc_clean`, its use in variations and no suggestion.
   */
  lemma {:induction false} DiscoverAllLocal(h: HostState, p: Product, attrs: seq<(string, AttributeValue)>)
    requires forall i :: 0 <= i < |attrs| ==> IsLocalObject(attrs[i].1)
    ensures var r := DiscoverFrom(h, p, attrs);
      |r| == |attrs| &&
      forall i :: 0 <= i < |attrs| ==> attrs[i].1.AttributeObject? && r[i] == Described(h, p, attrs[i].1.attr)
    decreases |attrs|
  {
    if attrs != [] {
      var front := attrs[..|attrs| - 1];
      var e := attrs[|attrs| - 1];
      assert forall i :: 0 <= i < |front| ==> front[i] == attrs[i];
      DiscoverAllLocal(h, p, front);
      assert IsLocalObject(e.1);
      assert DiscoverFrom(h, p, attrs) == DiscoverFrom(h, p, front) + [Described(h, p, e.1.attr)];
    }
  }

  /** Each report names the attribute twice (as name and label), cleans its options and never suggests a template. */
  lemma DescribedShape(h: HostState, p: Product, a: ProductAttribute)
    ensures var d := Described(h, p, a);
      d.name == a.name && d.labelText == a.name && |d.values| == |a.options| &&
      (forall i :: 0 <= i < |a.options| ==> d.values[i] == CleanOption(a.options[i])) &&
      (d.inVariations <==> UsedInVariations(h, p, a.name)) && d.suggestion.None?
  {
  }

  /** Every report comes from a local attribute object of the product, and carries no suggestion. */
  lemma {:induction false} DiscoverMembers(h: HostState, p: Product, attrs: seq<(string, AttributeValue)>, k: nat)
    requires k < |DiscoverFrom(h, p, attrs)|
    ensures var d := DiscoverFrom(h, p, attrs)[k];
      d.suggestion.None? && d.labelText == d.name && d.inVariations == UsedInVariations(h, p, d.name) &&
      exists i :: 0 <= i < |attrs| && IsLocalObject(attrs[i].1) && attrs[i].1.attr.name == d.name &&
                  d.values == CleanOptions(attrs[i].1.attr.options)
    decreases |attrs|
  {
    var front := attrs[..|attrs| - 1];
    var e := attrs[|attrs| - 1];
    if k < |DiscoverFrom(h, p, front)| {
      DiscoverMembers(h, p, front, k);
      var i :| 0 <= i < |front| && IsLocalObject(front[i].1) && front[i].1.attr.name == DiscoverFrom(h, p, front)[k].name &&
               DiscoverFrom(h, p, front)[k].values == CleanOptions(front[i].1.attr.options);
      assert attrs[i] == front[i];
    } else {
      assert IsLocalObject(attrs[|attrs| - 1].1);
    }
  }

  /** `attribute_used_in_variations`: a search over the children that stops at the first hit. */
  method AttributeUsedInVariations(store: Store, p: Product, name: string) returns (used: bool)
    ensures used == UsedInVariations(store.st, p, name)
  {
    if !p.IsVariable() {
      return false;
    }
    if |p.children| == 0 {
      return false;
    }
    var key := VariationMetaKey(name);
    for i := 0 to |p.children|
      invariant forall j :: 0 <= j < i ==> !ChildUses(store.st, p.children[j], key)
    {
      var vid := p.children[i];
      if !IsVariationId(store.st, vid) {
        continue;
      }
      if MetaText(store.st.products[vid].meta, key) != "" {
        return true;
      }
    }
    return false;
  }

  /** `discover($product_id)`. */
  method Discover(store: Store, pid: int) returns (attributes: seq<DiscoveredAttribute>)
    ensures attributes == Discovered(store.st, pid)
  {
    if pid !in store.st.products {
      return [];
    }
    var p := store.st.products[pid];
    attributes := [];
    for i := 0 to |p.attributes|
      invariant attributes == DiscoverFrom(store.st, p, p.attributes[..i])
    {
      TakePrefix(p.attributes, i);
      var entry := p.attributes[i].1;
      if !entry.AttributeObject? {
        continue;
      }
      if entry.attr.IsTaxonomy() {
        continue;
      }
      var values := CleanOptions(entry.attr.options);
      var name := entry.attr.name;
      var inVariations := AttributeUsedInVariations(store, p, name);
      attributes := attributes + [DiscoveredAttribute(name, name, values, inVariations, None)];
    }
    assert p.attributes[..|p.attributes|] == p.attributes;
  }
}
