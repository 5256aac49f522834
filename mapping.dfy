/**
 * `Mapping_Service`: `dry_run` classifies a mapping without touching the
 * store; `apply` resolves each attribute mapping, rewrites the local
 * attribute into the global one, assigns the terms, optionally remaps the
 * variations and saves a template, and saves the product once at the end.
 */
module Mapping {
  import opened PhpCore
  import opened PhpString
  import opened PhpArray
  import opened Sanitize
  import opened Host
  import opened ValueNormalizer
  import opened TermResolver
  import opened VariationRemap
  import opened Templates
  import opened Rollback

  // ---------------------------------------------------------------------
  // Requests, options and messages

  /**
   * One attribute mapping as `apply` and `dry_run` read it: `target_tax`,
   * `local_attr`, `local_label`, `target_label` (each `null` when absent),
   * `!empty(create_attribute)`, `terms ?? []`, `attribute_args ?? []` and
   * `!empty(save_template)`.
   */
  datatype MappingRequest = MappingRequest(
    targetTax: Option<string>,
    localAttr: Option<string>,
    localLabel: Option<string>,
    targetLabel: Option<string>,
    createAttribute: bool,
    terms: seq<TermConfig>,
    attributeArgs: AttributeArgs,
    saveTemplate: bool)

  /** `!empty($options[...])` for `create_backup`, `auto_create_terms` and `update_variations`. */
  datatype MapOptions = MapOptions(createBackup: bool, autoCreateTerms: bool, updateVariations: bool)

  const InvalidProductMessage := "Produto inválido."
  const NoTargetMessage := "Taxonomia alvo não informada."
  const IncompleteMessage := "Mapeamento incompleto."

  function MissingGlobalMessage(taxonomy: string): string
  {
    "Atributo global " + taxonomy + " não existe e criação automática não foi selecionada."
  }

  function TermNotFoundMessage(localValue: string, taxonomy: string): string
  {
    "Termo " + localValue + " não encontrado na taxonomia " + taxonomy + "."
  }

  function LocalNotFoundMessage(localName: string): string
  {
    "Não foi possível localizar o atributo local " + localName + " no produto."
  }

  // ---------------------------------------------------------------------
  // sanitize_taxonomy and normalize_local_value

  /** `sanitize_taxonomy`: `sanitize_key`, then `pa_`-prefixed unless empty or already prefixed. */
  function SanitizeTaxonomy(taxonomy: string): string
  {
    var key := SanitizeKey(taxonomy);
    if key == "" then key else if StartsWith(key, "pa_") then key else "pa_" + key
  }

  /**
   * `sanitize_taxonomy` is empty exactly when `sanitize_key` empties its
   * input (so PHP's `empty` on it never meets `"0"`), and otherwise it is
   * the taxonomy `ensure_global_attribute` settles on.
   */
  lemma SanitizeTaxonomyShape(taxonomy: string)
    ensures SanitizeTaxonomy(taxonomy) == "" <==> SanitizeKey(taxonomy) == ""
    ensures EmptyString(SanitizeTaxonomy(taxonomy)) <==> SanitizeTaxonomy(taxonomy) == ""
    ensures SanitizeTaxonomy(taxonomy) != "" ==> SanitizeTaxonomy(taxonomy) == GlobalTaxonomyName(taxonomy)
  {
    var r := SanitizeTaxonomy(taxonomy);
    if r != "" {
      assert r[0] == 'p' || r[0] == SanitizeKey(taxonomy)[0];
      assert |r| >= 3 by {
        if !StartsWith(SanitizeKey(taxonomy), "pa_") {
          assert r == "pa_" + SanitizeKey(taxonomy);
        }
      }
      assert r != "0";
    }
  }

  /** `sanitize_taxonomy` is idempotent. */
  lemma SanitizeTaxonomyIdempotent(taxonomy: string)
    ensures SanitizeTaxonomy(SanitizeTaxonomy(taxonomy)) == SanitizeTaxonomy(taxonomy)
  {
    SanitizeTaxonomyShape(taxonomy);
    var r := SanitizeTaxonomy(taxonomy);
    if r == "" {
      assert SanitizeKey(r) == "";
    } else {
      SanitizeKeyOfKeyChars(r);
    }
  }

  /** `normalize_local_value`: `strtolower(trim(wc_clean($value)))`. */
  function NormalizeLocalValue(value: string): string
  {
    Lower(Trim(WcClean(value)))
  }

  /** On ASCII values the slug-map key agrees with `Value_Normalizer::normalize`, the key variation lookups use. */
  lemma NormalizeLocalValueAscii(value: string, intl: Intl)
    requires IsAsciiString(value)
    requires FixesAscii(intl)
    ensures NormalizeLocalValue(value) == Normalize(value, intl)
  {
    NormalizeAscii(value, intl);
  }

  /**
   * The two keys disagree on accented values: the slug map stores
   * `"café"` under `"café"`, while the variation lookup normalises
   * `"Café"` to `"cafe"` and misses it.
   */
  lemma AccentedValueMissesSlugMap()
    ensures NormalizeLocalValue("café") == "café"
    ensures Normalize("café", NoIntl) == "cafe"
    ensures Get([(NormalizeLocalValue("café"), "cafe")], Normalize("café", NoIntl)) == None
  {
    CafePieces();
    assert Strtr("café") == "cafe" by {
      assert FallbackChar('é') == 'e';
    }
  }

  lemma CafePieces()
    ensures Trim("café") == "café"
    ensures Lower("café") == "café"
  {
    assert TrimmedBy("café", IsTrimChar);
    assert Lower("café")[3] == 'é';
  }

  // ---------------------------------------------------------------------
  // dry_run

  /** Each `$term_map`'s fate in `dry_run`. */
  datatype TermVerdict = ExistingTerm | CreateTerm(slug: string) | TermError(message: string)

  /** One `['value' => ..., 'slug' => ...]` of `terms.create`. */
  datatype PlannedCreate = PlannedCreate(value: string, slug: string)

  /** `['create' => ..., 'existing' => ...]`. */
  datatype TermActions = TermActions(create: seq<PlannedCreate>, existing: seq<string>)

  /** One entry of the report's `attributes`. */
  datatype AttributePlan = AttributePlan(
    localLabel: string,
    targetTax: string,
    attributeExists: bool,
    createAttribute: bool,
    terms: TermActions,
    errors: seq<string>)

  /** `dry_run`'s report. */
  datatype DryRunReport = DryRunReport(productId: int, attributes: seq<AttributePlan>, errors: seq<string>)

  /**
   * The body of the inner loop (lines 54-64): an existing term when the
   * attribute exists and `term_exists` finds the slug, a planned creation
   * when the term's flag, `auto_create_terms` or the attribute's absence
   * allows it, and an error otherwise.
   */
  function ClassifyTerm(h: HostState, targetTax: string, attributeExists: bool, c: TermConfig, autoCreate: bool): TermVerdict
  {
    var slug := RequestedSlug(c);
    if attributeExists && TermExists(h, slug, targetTax) then ExistingTerm
    else if c.create || autoCreate || !attributeExists then CreateTerm(slug)
    else TermError(TermNotFoundMessage(c.localValue, targetTax))
  }

  /** The elements `f` keeps, in order. */
  function Collect<T, U>(s: seq<T>, f: T -> Option<U>): (r: seq<U>)
    ensures |r| <= |s|
  {
    if s == [] then [] else (if f(s[0]).Some? then [f(s[0]).value] else []) + Collect(s[1..], f)
  }

  lemma {:induction false} CollectAppend<T, U>(s: seq<T>, x: T, f: T -> Option<U>)
    ensures Collect(s + [x], f) == Collect(s, f) + (if f(x).Some? then [f(x).value] else [])
    decreases |s|
  {
    if s == [] {
      assert [] + [x] == [x];
    } else {
      assert (s + [x])[1..] == s[1..] + [x];
      CollectAppend(s[1..], x, f);
    }
  }

  /** The lists after one more term: its verdict decides which list it joins. */
  function Classified(p: (TermActions, seq<string>), v: TermVerdict, c: TermConfig): (TermActions, seq<string>)
  {
    match v
    case ExistingTerm => (TermActions(p.0.create, p.0.existing + [c.localValue]), p.1)
    case CreateTerm(slug) => (TermActions(p.0.create + [PlannedCreate(c.localValue, slug)], p.0.existing), p.1)
    case TermError(message) => (p.0, p.1 + [message])
  }

  /** The inner loop (lines 53-65) over the first terms: each verdict appended to its list. */
  function PlanTerms(h: HostState, targetTax: string, attributeExists: bool, terms: seq<TermConfig>, autoCreate: bool): (TermActions, seq<string>)
    decreases |terms|
  {
    if terms == [] then (TermActions([], []), [])
    else
      var c := terms[|terms| - 1];
      Classified(PlanTerms(h, targetTax, attributeExists, terms[..|terms| - 1], autoCreate),
                 ClassifyTerm(h, targetTax, attributeExists, c, autoCreate), c)
  }

  /** The inner loop sorts every term into exactly one of `create`, `existing` and the errors. */
  lemma {:induction false} PlanTermsCounts(h: HostState, targetTax: string, attributeExists: bool, terms: seq<TermConfig>, autoCreate: bool)
    ensures var p := PlanTerms(h, targetTax, attributeExists, terms, autoCreate);
      |p.0.create| + |p.0.existing| + |p.1| == |terms|
    decreases |terms|
  {
    if terms != [] {
      PlanTermsCounts(h, targetTax, attributeExists, terms[..|terms| - 1], autoCreate);
    }
  }

  /**
   * When the target attribute does not exist, every term is planned for
   * creation under its requested slug, and none is existing or an error.
   */
  lemma {:induction false} PlanTermsWithoutAttribute(h: HostState, targetTax: string, terms: seq<TermConfig>, autoCreate: bool)
    ensures var p := PlanTerms(h, targetTax, false, terms, autoCreate);
      p.0.existing == [] && p.1 == [] && |p.0.create| == |terms| &&
      forall i :: 0 <= i < |terms| ==> p.0.create[i] == PlannedCreate(terms[i].localValue, RequestedSlug(terms[i]))
    decreases |terms|
  {
    if terms != [] {
      var front := terms[..|terms| - 1];
      PlanTermsWithoutAttribute(h, targetTax, front, autoCreate);
      var c := terms[|terms| - 1];
      var p := PlanTerms(h, targetTax, false, front, autoCreate);
      var q := PlanTerms(h, targetTax, false, terms, autoCreate);
      assert q.0.create == p.0.create + [PlannedCreate(c.localValue, RequestedSlug(c))];
      forall i | 0 <= i < |terms| ensures q.0.create[i] == PlannedCreate(terms[i].localValue, RequestedSlug(terms[i])) {
        if i < |front| {
          assert terms[i] == front[i];
        }
      }
    }
  }

  /** With `auto_create_terms` no term is reported as an error. */
  lemma {:induction false} PlanTermsAutoCreate(h: HostState, targetTax: string, attributeExists: bool, terms: seq<TermConfig>)
    ensures PlanTerms(h, targetTax, attributeExists, terms, true).1 == []
    decreases |terms|
  {
    if terms != [] {
      PlanTermsAutoCreate(h, targetTax, attributeExists, terms[..|terms| - 1]);
    }
  }

  lemma ExistingVerdict(h: HostState, targetTax: string, c: TermConfig, autoCreate: bool)
    requires TermExists(h, RequestedSlug(c), targetTax)
    ensures ClassifyTerm(h, targetTax, true, c, autoCreate) == ExistingTerm
  {
  }

  /**
   * When every term's slug exists in the existing attribute, every term is
   * reported existing, in order, and none is planned for creation.
   */
  lemma {:induction false} PlanTermsExisting(h: HostState, targetTax: string, terms: seq<TermConfig>, autoCreate: bool)
    requires forall i :: 0 <= i < |terms| ==> TermExists(h, RequestedSlug(terms[i]), targetTax)
    ensures var p := PlanTerms(h, targetTax, true, terms, autoCreate);
      p.0.create == [] && p.1 == [] && |p.0.existing| == |terms| &&
      forall i :: 0 <= i < |terms| ==> p.0.existing[i] == terms[i].localValue
    decreases |terms|
  {
    if terms != [] {
      var front := terms[..|terms| - 1];
      var c := terms[|terms| - 1];
      forall i | 0 <= i < |front| ensures TermExists(h, RequestedSlug(front[i]), targetTax) {
        assert front[i] == terms[i];
      }
      PlanTermsExisting(h, targetTax, front, autoCreate);
      ExistingVerdict(h, targetTax, c, autoCreate);
      var p := PlanTerms(h, targetTax, true, front, autoCreate);
      var q := PlanTerms(h, targetTax, true, terms, autoCreate);
      assert q == (TermActions(p.0.create, p.0.existing + [c.localValue]), p.1);
      forall i | 0 <= i < |terms| ensures q.0.existing[i] == terms[i].localValue {
        if i < |front| {
          assert terms[i] == front[i];
        }
      }
    }
  }

  /** The errors raised before the terms are looked at (lines 40-51), in that order. */
  function HeadErrors(targetTax: string, attributeExists: bool, createAttribute: bool): (r: seq<string>)
    ensures NoTargetMessage in r <==> EmptyString(targetTax)
    ensures MissingGlobalMessage(targetTax) in r <==> !attributeExists && !createAttribute
    ensures |r| <= 2
  {
    assert MissingGlobalMessage(targetTax)[0] != NoTargetMessage[0];
    var none: seq<string> := [];
    var afterTarget := if EmptyString(targetTax) then none + [NoTargetMessage] else none;
    if !attributeExists && !createAttribute then afterTarget + [MissingGlobalMessage(targetTax)] else afterTarget
  }

  /** The report entry of one attribute mapping (lines 34-74). */
  function PlanAttribute(h: HostState, m: MappingRequest, autoCreate: bool): AttributePlan
  {
    var targetTax := SanitizeTaxonomy(m.targetTax.GetOr(""));
    var attributeExists := TaxonomyExists(h, targetTax);
    var head := HeadErrors(targetTax, attributeExists, m.createAttribute);
    var (actions, termErrors) := PlanTerms(h, targetTax, attributeExists, m.terms, autoCreate);
    AttributePlan(m.localLabel.GetOr(m.localAttr.GetOr("")), targetTax, attributeExists,
                  m.createAttribute && !attributeExists, actions, head + termErrors)
  }

  /** Every mapping's report entry, in the order of the mappings. */
  function Plans(h: HostState, mapping: seq<MappingRequest>, autoCreate: bool): (r: seq<AttributePlan>)
    ensures |r| == |mapping|
  {
    seq(|mapping|, i requires 0 <= i < |mapping| => PlanAttribute(h, mapping[i], autoCreate))
  }

  /** `dry_run($product_id, $mapping, $options)`. */
  function DryRunResult(h: HostState, pid: int, mapping: seq<MappingRequest>, options: MapOptions): Result<DryRunReport>
  {
    if pid !in h.products then Throw(RuntimeError(InvalidProductMessage))
    else Ok(ReportOf(h, pid, mapping, options.autoCreateTerms))
  }

  /** The report: every mapping's entry, and all their errors. */
  function ReportOf(h: HostState, pid: int, mapping: seq<MappingRequest>, autoCreate: bool): DryRunReport
  {
    var plans := Plans(h, mapping, autoCreate);
    DryRunReport(pid, plans, AllErrors(plans))
  }

  /** The errors of every plan, concatenated front to back. */
  function AllErrors(plans: seq<AttributePlan>): seq<string>
  {
    if plans == [] then [] else plans[0].errors + AllErrors(plans[1..])
  }

  lemma {:induction false} AllErrorsAppend(plans: seq<AttributePlan>, p: AttributePlan)
    ensures AllErrors(plans + [p]) == AllErrors(plans) + p.errors
    decreases |plans|
  {
    if plans == [] {
      assert [] + [p] == [p];
      assert AllErrors([p]) == p.errors + AllErrors([]);
    } else {
      assert (plans + [p])[1..] == plans[1..] + [p];
      AllErrorsAppend(plans[1..], p);
    }
  }

  lemma {:induction false} AllErrorsContains(plans: seq<AttributePlan>, i: nat, x: string)
    requires i < |plans| && x in plans[i].errors
    ensures x in AllErrors(plans)
    decreases |plans|
  {
    if i > 0 {
      AllErrorsContains(plans[1..], i - 1, x);
    }
  }

  /** One more mapping appends its entry and its errors to the report. */
  lemma ReportAppend(h: HostState, pid: int, mapping: seq<MappingRequest>, m: MappingRequest, autoCreate: bool)
    ensures var prev := ReportOf(h, pid, mapping, autoCreate);
      var plan := PlanAttribute(h, m, autoCreate);
      ReportOf(h, pid, mapping + [m], autoCreate) == DryRunReport(pid, prev.attributes + [plan], prev.errors + plan.errors)
  {
    var plan := PlanAttribute(h, m, autoCreate);
    assert Plans(h, mapping + [m], autoCreate) == Plans(h, mapping, autoCreate) + [plan];
    AllErrorsAppend(Plans(h, mapping, autoCreate), plan);
  }

  /**
   * A target taxonomy that is not registered, with creation not selected,
   * is reported as an error of its entry and of the whole report.
   */
  lemma MissingAttributeIsReported(h: HostState, pid: int, mapping: seq<MappingRequest>, options: MapOptions, i: nat)
    requires pid in h.products
    requires i < |mapping| && !mapping[i].createAttribute
    requires !TaxonomyExists(h, SanitizeTaxonomy(mapping[i].targetTax.GetOr("")))
    ensures var r := DryRunResult(h, pid, mapping, options);
      var t := SanitizeTaxonomy(mapping[i].targetTax.GetOr(""));
      r.Ok? && |r.value.attributes| == |mapping| && !r.value.attributes[i].attributeExists &&
      MissingGlobalMessage(t) in r.value.attributes[i].errors && MissingGlobalMessage(t) in r.value.errors
  {
    var plans := Plans(h, mapping, options.autoCreateTerms);
    var t := SanitizeTaxonomy(mapping[i].targetTax.GetOr(""));
    assert MissingGlobalMessage(t) in plans[i].errors;
    AllErrorsContains(plans, i, MissingGlobalMessage(t));
  }

  /** `dry_run`'s inner loop over `$attribute_map['terms']`. */
  method ClassifyTerms(h: HostState, targetTax: string, attributeExists: bool, terms: seq<TermConfig>, autoCreate: bool)
    returns (create: seq<PlannedCreate>, existing: seq<string>, errors: seq<string>)
    ensures (TermActions(create, existing), errors) == PlanTerms(h, targetTax, attributeExists, terms, autoCreate)
  {
    create, existing, errors := [], [], [];
    for j := 0 to |terms|
      invariant (TermActions(create, existing), errors) == PlanTerms(h, targetTax, attributeExists, terms[..j], autoCreate)
    {
      TakePrefix(terms, j);
      var c := terms[j];
      var verdict := ClassifyTerm(h, targetTax, attributeExists, c, autoCreate);
      if verdict.ExistingTerm? {
        existing := existing + [c.localValue];
      } else if verdict.CreateTerm? {
        create := create + [PlannedCreate(c.localValue, verdict.slug)];
      } else {
        errors := errors + [verdict.message];
      }
    }
    assert terms[..|terms|] == terms;
  }

  /** One iteration of `dry_run`'s outer loop. */
  method PlanOne(h: HostState, m: MappingRequest, autoCreate: bool) returns (plan: AttributePlan)
    ensures plan == PlanAttribute(h, m, autoCreate)
  {
    var targetTax := SanitizeTaxonomy(m.targetTax.GetOr(""));
    var errors: seq<string> := [];
    if EmptyString(targetTax) {
      errors := errors + [NoTargetMessage];
    }
    var attributeExists := TaxonomyExists(h, targetTax);
    if !attributeExists && !m.createAttribute {
      errors := errors + [MissingGlobalMessage(targetTax)];
    }
    var create, existing, termErrors := ClassifyTerms(h, targetTax, attributeExists, m.terms, autoCreate);
    plan := AttributePlan(m.localLabel.GetOr(m.localAttr.GetOr("")), targetTax, attributeExists,
                          m.createAttribute && !attributeExists, TermActions(create, existing), errors + termErrors);
  }

  /** `dry_run`: read-only; the store is never modified. */
  method DryRun(store: Store, pid: int, mapping: seq<MappingRequest>, options: MapOptions) returns (r: Result<DryRunReport>)
    ensures r == DryRunResult(store.st, pid, mapping, options)
  {
    if pid !in store.st.products {
      return Throw(RuntimeError(InvalidProductMessage));
    }
    var h := store.st;
    var attributes: seq<AttributePlan> := [];
    var errors: seq<string> := [];
    for i := 0 to |mapping|
      invariant ReportOf(h, pid, mapping[..i], options.autoCreateTerms) == DryRunReport(pid, attributes, errors)
    {
      TakeStep(mapping, i);
      ReportAppend(h, pid, mapping[..i], mapping[i], options.autoCreateTerms);
      var plan := PlanOne(h, mapping[i], options.autoCreateTerms);
      attributes := attributes + [plan];
      errors := errors + plan.errors;
    }
    assert mapping[..|mapping|] == mapping;
    return Ok(DryRunReport(pid, attributes, errors));
  }

  // ---------------------------------------------------------------------
  // replace_attribute

  /** An attribute object whose `sanitize_title`'d name equals the local name's; legacy arrays never match. */
  predicate MatchesLocal(e: (string, AttributeValue), localName: string)
  {
    e.1.AttributeObject? && SanitizeTitle(e.1.attr.name) == SanitizeTitle(localName)
  }

  function MatchesLocalName(localName: string): ((string, AttributeValue)) -> bool
  {
    (e: (string, AttributeValue)) => MatchesLocal(e, localName)
  }

  /** `set_options($term_ids)`: the ids become the options. */
  function TermOptions(termIds: seq<int>): (r: seq<OptionValue>)
    ensures |r| == |termIds|
    ensures forall i :: 0 <= i < |termIds| ==> r[i] == TermId(termIds[i])
  {
    seq(|termIds|, i requires 0 <= i < |termIds| => TermId(termIds[i]))
  }

  /** The new `WC_Product_Attribute` built from the matched one (lines 180-186). */
  function NewAttribute(matched: ProductAttribute, taxonomy: string, attributeId: int, termIds: seq<int>): ProductAttribute
  {
    ProductAttribute(attributeId, taxonomy, TermOptions(termIds), matched.position, matched.visible, matched.variation)
  }

  /**
   * `replace_attribute` on the attribute array: the array with its first
   * matching attribute object replaced at the same key, or `None` (the
   * `false` return) when nothing matches.
   */
  function ReplacedAttributes(attrs: seq<(string, AttributeValue)>, localName: string, taxonomy: string, attributeId: int, termIds: seq<int>)
    : Option<seq<(string, AttributeValue)>>
  {
    var i := FirstWhere(attrs, MatchesLocalName(localName));
    if i.None? then None
    else
      assert MatchesLocalName(localName)(attrs[i.value]);
      var k := i.value;
      Some(attrs[k := (attrs[k].0, AttributeObject(NewAttribute(attrs[k].1.attr, taxonomy, attributeId, termIds)))])
  }

  /** `replace_attribute` fails exactly when no attribute object matches. */
  lemma ReplacedAttributesNone(attrs: seq<(string, AttributeValue)>, localName: string, taxonomy: string, attributeId: int, termIds: seq<int>)
    ensures ReplacedAttributes(attrs, localName, taxonomy, attributeId, termIds).None? <==>
      forall j :: 0 <= j < |attrs| ==> !MatchesLocal(attrs[j], localName)
  {
    var p := MatchesLocalName(localName);
    if FirstWhere(attrs, p).None? {
      forall j | 0 <= j < |attrs| ensures !MatchesLocal(attrs[j], localName) {
        assert !p(attrs[j]);
      }
    } else {
      assert p(attrs[FirstWhere(attrs, p).value]);
    }
  }

  /**
   * When the first match is at `k`, `replace_attribute` rewrites that entry
   * only, at its own key: the new attribute carries the given id, the
   * taxonomy as name and the term ids as options, keeps visibility,
   * variation flag and position, and is a taxonomy attribute whenever the
   * taxonomy is `pa_`-prefixed and the id positive. Every other entry,
   * legacy arrays included, is unchanged.
   */
  lemma ReplacedAttributesFirstMatch(attrs: seq<(string, AttributeValue)>, localName: string, taxonomy: string, attributeId: int, termIds: seq<int>, k: nat)
    requires k < |attrs| && MatchesLocal(attrs[k], localName)
    requires forall j :: 0 <= j < k ==> !MatchesLocal(attrs[j], localName)
    ensures var r := ReplacedAttributes(attrs, localName, taxonomy, attributeId, termIds);
      var matched := attrs[k].1.attr;
      r.Some? && |r.value| == |attrs| && Keys(r.value) == Keys(attrs) &&
      (forall j :: 0 <= j < |attrs| && j != k ==> r.value[j] == attrs[j]) &&
      r.value[k] == (attrs[k].0, AttributeObject(ProductAttribute(attributeId, taxonomy, TermOptions(termIds),
                                                                  matched.position, matched.visible, matched.variation))) &&
      (StartsWith(taxonomy, "pa_") && attributeId > 0 ==> r.value[k].1.attr.IsTaxonomy())
  {
    var p := MatchesLocalName(localName);
    assert p(attrs[k]);
    forall j | 0 <= j < k ensures !p(attrs[j]) {
      assert !MatchesLocal(attrs[j], localName);
    }
    FirstWhereAt(attrs, p, k);
    var r := attrs[k := (attrs[k].0, AttributeObject(NewAttribute(attrs[k].1.attr, taxonomy, attributeId, termIds)))];
    assert ReplacedAttributes(attrs, localName, taxonomy, attributeId, termIds) == Some(r);
    assert Keys(r) == Keys(attrs);
  }

  /** A legacy array entry is never rewritten, whatever its key or fields. */
  lemma ReplacedAttributesKeepsLegacy(attrs: seq<(string, AttributeValue)>, localName: string, taxonomy: string, attributeId: int, termIds: seq<int>, j: nat)
    requires j < |attrs| && attrs[j].1.LegacyArray?
    ensures var r := ReplacedAttributes(attrs, localName, taxonomy, attributeId, termIds);
      r.Some? ==> |r.value| == |attrs| && r.value[j] == attrs[j]
  {
    var p := MatchesLocalName(localName);
    var i := FirstWhere(attrs, p);
    if i.Some? {
      assert p(attrs[i.value]);
      ReplacedAttributesFirstMatch(attrs, localName, taxonomy, attributeId, termIds, i.value);
    }
  }

  /** The message PHP raises for `$new_attribute->set_is_taxonomy(true)`: the class defines no such method. */
  const UndefinedSetIsTaxonomy := "Call to undefined method WC_Product_Attribute::set_is_taxonomy()"

  /** The message PHP raises for a call to `update_variations_only`, which `Mapping_Service` does not define. */
  const UndefinedUpdateVariationsOnly := "Call to undefined method Evolury\\Local2Global\\Services\\Mapping_Service::update_variations_only()"

  /**
   * `replace_attribute` as written against `WC_Product_Attribute` as
   * defined: the call at line 187 raises an `Error` as soon as an
   * attribute matches, so no attribute is ever replaced.
   */
  function ReplacedAttributesAsWritten(attrs: seq<(string, AttributeValue)>, localName: string, taxonomy: string, attributeId: int, termIds: seq<int>)
    : Result<Option<seq<(string, AttributeValue)>>>
  {
    if FirstWhere(attrs, MatchesLocalName(localName)).None? then Ok(None)
    else Throw(FatalError(UndefinedSetIsTaxonomy))
  }

  /**
   * As written, `replace_attribute` fails with a fatal error exactly when
   * the intended version would replace an attribute, and agrees with it
   * (no match, `false`) otherwise.
   */
  lemma AsWrittenFailsOnEveryMatch(attrs: seq<(string, AttributeValue)>, localName: string, taxonomy: string, attributeId: int, termIds: seq<int>)
    ensures var w := ReplacedAttributesAsWritten(attrs, localName, taxonomy, attributeId, termIds);
      var r := ReplacedAttributes(attrs, localName, taxonomy, attributeId, termIds);
      (w.Throw? <==> r.Some?) && (w.Throw? ==> w.error == FatalError(UndefinedSetIsTaxonomy)) && (w.Ok? ==> w.value == r)
  {
  }

  /**
   * The seeded local attribute `Cor` cannot be converted as written; the
   * intended version turns it into `pa_cor` with the term ids as options.
   */
  lemma AsWrittenCannotConvertCor()
    ensures var attrs := [("cor", AttributeObject(ProductAttribute(0, "Cor", [Text("Azul")], 0, true, true)))];
      ReplacedAttributesAsWritten(attrs, "Cor", "pa_cor", 7, [11]) == Throw(FatalError(UndefinedSetIsTaxonomy)) &&
      ReplacedAttributes(attrs, "Cor", "pa_cor", 7, [11]) ==
        Some([("cor", AttributeObject(ProductAttribute(7, "pa_cor", [TermId(11)], 0, true, true)))])
  {
    var attrs := [("cor", AttributeObject(ProductAttribute(0, "Cor", [Text("Azul")], 0, true, true)))];
    assert MatchesLocal(attrs[0], "Cor");
    ReplacedAttributesFirstMatch(attrs, "Cor", "pa_cor", 7, [11], 0);
    var r := ReplacedAttributes(attrs, "Cor", "pa_cor", 7, [11]).value;
    assert TermOptions([11]) == [TermId(11)];
    assert r == [r[0]];
  }

  /**
   * `replace_attribute($product, ...)`: scan the attributes in order, skip
   * non-objects and non-matching names, replace the first match at its key
   * and stop; write the array back only when something was replaced.
   */
  method ReplaceAttribute(store: Store, pid: int, localName: string, taxonomy: string, attributeId: int, termIds: seq<int>)
    returns (replaced: bool)
    requires pid in store.st.products
    modifies store
    ensures var r := ReplacedAttributes(old(store.st.products[pid].attributes), localName, taxonomy, attributeId, termIds);
      replaced == r.Some? &&
      store.st == (if r.Some? then WithAttributes(old(store.st), pid, r.value) else old(store.st))
  {
    var attributes := store.st.products[pid].attributes;
    var rewritten := attributes;
    replaced := false;
    ghost var p := MatchesLocalName(localName);
    var i := 0;
    while i < |attributes|
      invariant 0 <= i <= |attributes|
      invariant NoneBefore(attributes, i, p)
    {
      var entry := attributes[i];
      if MatchesLocal(entry, localName) {
        var newAttribute := NewAttribute(entry.1.attr, taxonomy, attributeId, termIds);
        rewritten := attributes[i := (entry.0, AttributeObject(newAttribute))];
        replaced := true;
        break;
      }
      i := i + 1;
    }
    if replaced {
      ScanFound(attributes, p, i);
      store.SetAttributes(pid, rewritten);
    } else {
      ScanExhausted(attributes, p);
    }
  }

  // ---------------------------------------------------------------------
  // The results of ensure_terms

  /** `array_map(fn($item) => $item['term_id'], $term_results)`. */
  function ResultIds(results: seq<ResolvedTerm>): (r: seq<int>)
    ensures |r| == |results|
    ensures forall i :: 0 <= i < |results| ==> r[i] == results[i].termId
  {
    seq(|results|, i requires 0 <= i < |results| => results[i].termId)
  }

  /** `$term_ids`: the resolver's ids without repeats, in order of first appearance. */
  function TermIdsOf(results: seq<ResolvedTerm>): seq<int>
  {
    Unique(ResultIds(results))
  }

  /** `$term_ids` holds each resolved id exactly once, in the order in which the ids first appear. */
  lemma TermIdsOfShape(results: seq<ResolvedTerm>)
    ensures var ids := TermIdsOf(results);
      (forall i, j :: 0 <= i < j < |ids| ==> ids[i] != ids[j]) &&
      (forall i :: 0 <= i < |results| ==> results[i].termId in ids) &&
      (forall x :: x in ids ==> exists i :: 0 <= i < |results| && results[i].termId == x) &&
      (forall i, j :: 0 <= i < j < |ids| ==> FirstIndex(ResultIds(results), ids[i]) < FirstIndex(ResultIds(results), ids[j]))
  {
    var ids := TermIdsOf(results);
    var all := ResultIds(results);
    UniqueKeepsFirstSeenOrder(all);
    forall i | 0 <= i < |results| ensures results[i].termId in ids {
      assert all[i] in all;
    }
    forall x | x in ids ensures exists i :: 0 <= i < |results| && results[i].termId == x {
      var i :| 0 <= i < |all| && all[i] == x;
    }
  }

  /** The entries of `$slug_map` in the order the loop writes them. */
  function SlugPairs(results: seq<ResolvedTerm>): (r: seq<(string, string)>)
    ensures |r| == |results|
    ensures forall i :: 0 <= i < |results| ==> r[i] == (NormalizeLocalValue(results[i].localValue), results[i].slug)
  {
    seq(|results|, i requires 0 <= i < |results| => (NormalizeLocalValue(results[i].localValue), results[i].slug))
  }

  /** `$slug_map`: `$slug_map[normalize_local_value($local_value)] = $slug` for each result in turn. */
  function SlugMapOf(results: seq<ResolvedTerm>): SlugMap
  {
    Merge([], SlugPairs(results))
  }

  /**
   * `$slug_map`'s keys are exactly the normalised local values, and each
   * maps to the slug of the last result carrying that key.
   */
  lemma SlugMapOfLookup(results: seq<ResolvedTerm>, i: nat)
    requires i < |results|
    requires forall j :: i < j < |results| ==> NormalizeLocalValue(results[j].localValue) != NormalizeLocalValue(results[i].localValue)
    ensures Get(SlugMapOf(results), NormalizeLocalValue(results[i].localValue)) == Some(results[i].slug)
  {
    MergeLastWins([], SlugPairs(results), i);
  }

  lemma SlugMapOfKeys(results: seq<ResolvedTerm>, key: string)
    ensures HasKey(SlugMapOf(results), key) <==> exists i :: 0 <= i < |results| && NormalizeLocalValue(results[i].localValue) == key
  {
    var pairs := SlugPairs(results);
    var none: seq<(string, string)> := [];
    MergeKeys(none, pairs, key);
    assert !HasKey(none, key);
    if HasKey(pairs, key) {
      var k := Find(pairs, key).value;
      assert NormalizeLocalValue(results[k].localValue) == key;
    }
    if exists i :: 0 <= i < |results| && NormalizeLocalValue(results[i].localValue) == key {
      var i :| 0 <= i < |results| && NormalizeLocalValue(results[i].localValue) == key;
      assert pairs[i].0 == key;
    }
  }

  function CreatedSlugOf(): ResolvedTerm -> Option<string>
  {
    (t: ResolvedTerm) => if t.created then Some(t.slug) else None
  }

  function ExistingSlugOf(): ResolvedTerm -> Option<string>
  {
    (t: ResolvedTerm) => if t.created then None else Some(t.slug)
  }

  /** `$created`: the slugs of the results the resolver created, in order. */
  function CreatedSlugs(results: seq<ResolvedTerm>): seq<string>
  {
    Collect(results, CreatedSlugOf())
  }

  /** `$existing`: the slugs of the results it found, in order. */
  function ExistingSlugs(results: seq<ResolvedTerm>): seq<string>
  {
    Collect(results, ExistingSlugOf())
  }

  /** The slugs of all results, in order. */
  function ResultSlugs(results: seq<ResolvedTerm>): (r: seq<string>)
    ensures |r| == |results|
    ensures forall i :: 0 <= i < |results| ==> r[i] == results[i].slug
  {
    seq(|results|, i requires 0 <= i < |results| => results[i].slug)
  }

  /** `$created` and `$existing` split the result slugs by the `created` flag, losing and adding none. */
  lemma {:induction false} SlugPartition(results: seq<ResolvedTerm>)
    ensures |CreatedSlugs(results)| + |ExistingSlugs(results)| == |results|
    ensures multiset(CreatedSlugs(results)) + multiset(ExistingSlugs(results)) == multiset(ResultSlugs(results))
    decreases |results|
  {
    if results != [] {
      SlugPartition(results[1..]);
      assert ResultSlugs(results) == [results[0].slug] + ResultSlugs(results[1..]);
    }
  }

  /** A created result's slug is listed as created, and a found one's as existing. */
  lemma {:induction false} SlugPartitionMembers(results: seq<ResolvedTerm>, i: nat)
    requires i < |results|
    ensures results[i].created ==> results[i].slug in CreatedSlugs(results)
    ensures !results[i].created ==> results[i].slug in ExistingSlugs(results)
    decreases |results|
  {
    if i > 0 {
      SlugPartitionMembers(results[1..], i - 1);
    }
  }

  /** The `terms` of the saved template: `array_combine` of local values and slugs, a later duplicate value winning. */
  function TemplatePairs(results: seq<ResolvedTerm>): (r: seq<(string, string)>)
    ensures |r| == |results|
    ensures forall i :: 0 <= i < |results| ==> r[i] == (results[i].localValue, results[i].slug)
  {
    seq(|results|, i requires 0 <= i < |results| => (results[i].localValue, results[i].slug))
  }

  function TemplateTerms(results: seq<ResolvedTerm>): seq<(string, string)>
  {
    Merge([], TemplatePairs(results))
  }

  /** The saved template maps each local value to the slug of its last result. */
  lemma TemplateTermsLookup(results: seq<ResolvedTerm>, i: nat)
    requires i < |results|
    requires forall j :: i < j < |results| ==> results[j].localValue != results[i].localValue
    ensures Get(TemplateTerms(results), results[i].localValue) == Some(results[i].slug)
  {
    MergeLastWins([], TemplatePairs(results), i);
  }

  /** One more result puts its slug under its normalised value. */
  lemma SlugMapOfAppend(results: seq<ResolvedTerm>, t: ResolvedTerm)
    ensures SlugMapOf(results + [t]) == Put(SlugMapOf(results), NormalizeLocalValue(t.localValue), t.slug)
  {
    assert SlugPairs(results + [t]) == SlugPairs(results) + [(NormalizeLocalValue(t.localValue), t.slug)];
    MergeAppend([], SlugPairs(results), (NormalizeLocalValue(t.localValue), t.slug));
  }

  /** One more result is listed as created or existing, by its flag. */
  lemma TermResultsAppend(results: seq<ResolvedTerm>, t: ResolvedTerm)
    ensures CreatedSlugs(results + [t]) == CreatedSlugs(results) + (if t.created then [t.slug] else [])
    ensures ExistingSlugs(results + [t]) == ExistingSlugs(results) + (if t.created then [] else [t.slug])
  {
    CollectAppend(results, t, CreatedSlugOf());
    CollectAppend(results, t, ExistingSlugOf());
  }

  /** The loop of lines 120-128. */
  method CollectTermResults(results: seq<ResolvedTerm>) returns (slugMap: SlugMap, created: seq<string>, existing: seq<string>)
    ensures slugMap == SlugMapOf(results)
    ensures created == CreatedSlugs(results)
    ensures existing == ExistingSlugs(results)
  {
    slugMap, created, existing := [], [], [];
    for i := 0 to |results|
      invariant slugMap == SlugMapOf(results[..i])
      invariant created == CreatedSlugs(results[..i])
      invariant existing == ExistingSlugs(results[..i])
    {
      var t := results[i];
      TakeStep(results, i);
      SlugMapOfAppend(results[..i], t);
      TermResultsAppend(results[..i], t);
      var normalized := NormalizeLocalValue(t.localValue);
      slugMap := Put(slugMap, normalized, t.slug);
      if t.created {
        created := created + [t.slug];
      } else {
        existing := existing + [t.slug];
      }
    }
    assert results[..|results|] == results;
  }

  // ---------------------------------------------------------------------
  // apply

  /** `$results`: created and existing slugs and variation reports by taxonomy, and the taxonomies in order. */
  datatype ApplyResults = ApplyResults(
    createdTerms: seq<(string, seq<string>)>,
    existingTerms: seq<(string, seq<string>)>,
    updatedAttrs: seq<string>,
    variations: seq<(string, VariationReport)>)

  const NoResults := ApplyResults([], [], [], [])

  /** The loop's state: the exception that ended it, if any, the results so far, the resolver's cache and the store. */
  datatype ApplyRun = ApplyRun(failure: Option<Throwable>, results: ApplyResults, cache: TermCache, host: HostState)

  /** Lines 139 and 152-154: the mapping's slugs and report recorded under its taxonomy, the taxonomy appended. */
  function Recorded(res: ApplyResults, taxonomy: string, termResults: seq<ResolvedTerm>, report: Option<VariationReport>): ApplyResults
  {
    ApplyResults(
      Put(res.createdTerms, taxonomy, CreatedSlugs(termResults)),
      Put(res.existingTerms, taxonomy, ExistingSlugs(termResults)),
      res.updatedAttrs + [taxonomy],
      if report.Some? then Put(res.variations, taxonomy, report.value) else res.variations)
  }

  /** The template `save_template` receives (lines 143-149). */
  function TemplateOf(taxonomy: string, termResults: seq<ResolvedTerm>): TemplateConfig
  {
    TemplateConfig(taxonomy, TemplateTerms(termResults))
  }

  /** `wp_set_object_terms($product_id, $term_ids, $taxonomy, false)`. */
  function AssignedTerms(h: HostState, pid: int, termIds: seq<int>, taxonomy: string): HostState
  {
    h.(objectTerms := h.objectTerms + [TermAssignment(pid, termIds, taxonomy, false)])
  }

  /** The optional variation update and template save that end a mapping (lines 137-150). */
  function Finished(res: ApplyResults, cache: TermCache, h: HostState, pid: int, localName: string, localLabel: string,
                    saveTemplate: bool, taxonomy: string, termResults: seq<ResolvedTerm>, options: MapOptions, intl: Intl): (r: ApplyRun)
    requires pid in h.products
    ensures OnlyAttributesAndMetaChanged(h, r.host.(templates := h.templates))
    ensures r.cache == cache
  {
    var (variations, h1) :=
      if options.updateVariations then UpdateVariationsResult(h, pid, taxonomy, localName, SlugMapOf(termResults), intl)
      else (Ok(NotVariable), h);
    UpdateVariationsFrame(h, pid, taxonomy, localName, SlugMapOf(termResults), intl);
    NothingChanged(h);
    if variations.Throw? then ApplyRun(Some(variations.error), res, cache, h1)
    else
      var saved := Templates(SavedTemplates(h1, localLabel, TemplateOf(taxonomy, termResults)));
      TemplatesAside(h, h1, saved);
      var h2 := if saveTemplate then h1.(templates := saved) else h1;
      var report := if options.updateVariations then Some(variations.value) else None;
      ApplyRun(None, Recorded(res, taxonomy, termResults, report), cache, h2)
  }

  /** A mapping once its terms are resolved (lines 115-154). */
  function AfterTerms(res: ApplyResults, cache: TermCache, h: HostState, pid: int, m: MappingRequest, localName: string, localLabel: string,
                      info: AttributeInfo, termResults: seq<ResolvedTerm>, options: MapOptions, intl: Intl): (r: ApplyRun)
    requires pid in h.products
    ensures r.host.products.Keys == h.products.Keys
  {
    var termIds := TermIdsOf(termResults);
    var replaced := ReplacedAttributes(h.products[pid].attributes, localName, info.taxonomy, info.attributeId, termIds);
    if replaced.None? then ApplyRun(Some(RuntimeError(LocalNotFoundMessage(localName))), res, cache, h)
    else
      var h1 := AssignedTerms(WithAttributes(h, pid, replaced.value), pid, termIds, info.taxonomy);
      Finished(res, cache, h1, pid, localName, localLabel, m.saveTemplate, info.taxonomy, termResults, options, intl)
  }

  /** A mapping once its global attribute is settled: resolve the terms (line 113). */
  function AfterAttribute(res: ApplyResults, cache: TermCache, h: HostState, pid: int, m: MappingRequest, localName: string, localLabel: string,
                          info: AttributeInfo, options: MapOptions, intl: Intl): (r: ApplyRun)
    requires pid in h.products
    ensures r.host.products.Keys == h.products.Keys
  {
    var (terms, cache1, h1) := TermsResult(cache, h, info.taxonomy, m.terms, options.autoCreateTerms);
    TermsResultEffect(cache, h, info.taxonomy, m.terms, options.autoCreateTerms);
    if terms.Throw? then ApplyRun(Some(terms.error), res, cache1, h1)
    else AfterTerms(res, cache1, h1, pid, m, localName, localLabel, info, terms.value, options, intl)
  }

  /** One iteration of `apply`'s loop (lines 102-154). */
  function MapStep(res: ApplyResults, cache: TermCache, h: HostState, pid: int, m: MappingRequest, options: MapOptions, intl: Intl): (r: ApplyRun)
    requires pid in h.products
    ensures r.host.products.Keys == h.products.Keys
  {
    var targetTax := SanitizeTaxonomy(m.targetTax.GetOr(""));
    var localName := m.localAttr.GetOr("");
    var localLabel := m.localLabel.GetOr(localName);
    if EmptyString(targetTax) || EmptyString(localName) then ApplyRun(Some(RuntimeError(IncompleteMessage)), res, cache, h)
    else
      var (info, h1) := GlobalAttributeResult(h, targetTax, m.targetLabel.GetOr(localLabel), m.createAttribute, m.attributeArgs);
      GlobalAttributeEffect(h, targetTax, m.targetLabel.GetOr(localLabel), m.createAttribute, m.attributeArgs);
      if info.Throw? then ApplyRun(Some(info.error), res, cache, h1)
      else AfterAttribute(res, cache, h1, pid, m, localName, localLabel, info.value, options, intl)
  }

  /** `apply`'s loop over the first mappings; it stops at the first exception. */
  function ApplyFrom(cache: TermCache, h: HostState, pid: int, mapping: seq<MappingRequest>, options: MapOptions, intl: Intl): (r: ApplyRun)
    requires pid in h.products
    ensures r.host.products.Keys == h.products.Keys
    decreases |mapping|, 1
  {
    if mapping == [] then ApplyRun(None, NoResults, cache, h)
    else ApplyLast(cache, h, pid, mapping, options, intl)
  }

  /** The loop's last iteration: the run over all mappings but the last, then the last one unless that run threw. */
  function ApplyLast(cache: TermCache, h: HostState, pid: int, mapping: seq<MappingRequest>, options: MapOptions, intl: Intl): (r: ApplyRun)
    requires pid in h.products && mapping != []
    ensures r.host.products.Keys == h.products.Keys
    decreases |mapping|, 0
  {
    var prev := ApplyFrom(cache, h, pid, mapping[..|mapping| - 1], options, intl);
    if prev.failure.Some? then prev
    else MapStep(prev.results, prev.cache, prev.host, pid, mapping[|mapping| - 1], options, intl)
  }

  /**
   * `apply($product_id, $mapping, $options)` with `wp_generate_uuid4()`
   * returning `backupId` and `time()` returning `now`: the results, the
   * resolver's cache and the store afterwards. An exception leaves in the
   * store whatever happened before it.
   */
  function ApplyResult(cache: TermCache, h: HostState, pid: int, mapping: seq<MappingRequest>, options: MapOptions,
                       backupId: string, now: int, intl: Intl): (Result<ApplyResults>, TermCache, HostState)
  {
    if pid !in h.products then (Throw(RuntimeError(InvalidProductMessage)), cache, h)
    else
      var (backup, h1) := if options.createBackup then CreatedBackup(h, pid, h.products[pid].attributes, backupId, now) else (Ok(backupId), h);
      if backup.Throw? then (Throw(backup.error), cache, h1)
      else
        var run := ApplyFrom(cache, h1, pid, mapping, options, intl);
        if run.failure.Some? then (Throw(run.failure.value), run.cache, run.host)
        else (Ok(run.results), run.cache, run.host.(products := run.host.products[pid := run.host.products[pid].(saved := true)]))
  }

  // ---------------------------------------------------------------------
  // What apply promises

  /** A non-empty `sanitize_taxonomy` result is the taxonomy `ensure_global_attribute` hands back. */
  lemma SanitizedIsGlobal(taxonomy: string)
    requires !EmptyString(SanitizeTaxonomy(taxonomy))
    ensures GlobalTaxonomyName(SanitizeTaxonomy(taxonomy)) == SanitizeTaxonomy(taxonomy)
  {
    SanitizeTaxonomyShape(taxonomy);
    GlobalTaxonomyNameIdempotent(taxonomy);
  }

  /** `$results` after a mapping: its slugs under its taxonomy, every other taxonomy's entries kept, the taxonomy appended. */
  lemma RecordedEffect(res: ApplyResults, taxonomy: string, termResults: seq<ResolvedTerm>, report: Option<VariationReport>)
    ensures var r := Recorded(res, taxonomy, termResults, report);
      Get(r.createdTerms, taxonomy) == Some(CreatedSlugs(termResults)) &&
      Get(r.existingTerms, taxonomy) == Some(ExistingSlugs(termResults)) &&
      r.updatedAttrs == res.updatedAttrs + [taxonomy] &&
      (report.Some? ==> Get(r.variations, taxonomy) == report) &&
      (report.None? ==> r.variations == res.variations) &&
      forall t :: t != taxonomy ==>
        Get(r.createdTerms, t) == Get(res.createdTerms, t) && Get(r.existingTerms, t) == Get(res.existingTerms, t) &&
        Get(r.variations, t) == Get(res.variations, t)
  {
  }

  /** One `wp_set_object_terms` call for the product on `taxonomy`, replacing (not appending) its terms. */
  predicate Assigns(a: TermAssignment, pid: int, taxonomy: string)
  {
    a.productId == pid && a.taxonomy == taxonomy && !a.append
  }

  /** `after` is `before` with one assignment for the product on `taxonomy` appended. */
  predicate OneMoreAssignment(before: seq<TermAssignment>, after: seq<TermAssignment>, pid: int, taxonomy: string)
  {
    |after| == |before| + 1 && after[..|before|] == before && Assigns(after[|before|], pid, taxonomy)
  }

  /** No product's `saved` flag differs. */
  predicate SameSaved(h: HostState, h2: HostState)
  {
    h2.products.Keys == h.products.Keys && forall k :: k in h.products ==> h2.products[k].saved == h.products[k].saved
  }

  lemma FinishedFrame(res: ApplyResults, cache: TermCache, h: HostState, pid: int, localName: string, localLabel: string,
                      saveTemplate: bool, taxonomy: string, termResults: seq<ResolvedTerm>, options: MapOptions, intl: Intl)
    requires pid in h.products
    ensures var r := Finished(res, cache, h, pid, localName, localLabel, saveTemplate, taxonomy, termResults, options, intl);
      r.host.objectTerms == h.objectTerms && SameSaved(h, r.host) &&
      (r.failure.None? ==> r.results.updatedAttrs == res.updatedAttrs + [taxonomy])
  {
    var r := Finished(res, cache, h, pid, localName, localLabel, saveTemplate, taxonomy, termResults, options, intl);
    var h2 := r.host.(templates := h.templates);
    assert OnlyAttributesAndMetaChanged(h, h2);
    forall k | k in h.products ensures r.host.products[k].saved == h.products[k].saved {
      assert h2.products[k] == h.products[k].(attributes := h2.products[k].attributes, meta := h2.products[k].meta);
    }
  }

  /**
   * After its terms are resolved, a mapping either fails to find its local
   * attribute and changes nothing, or assigns its term ids to the product
   * once; it never touches any product's `saved` flag.
   */
  lemma AfterTermsFrame(res: ApplyResults, cache: TermCache, h: HostState, pid: int, m: MappingRequest, localName: string, localLabel: string,
                        info: AttributeInfo, termResults: seq<ResolvedTerm>, options: MapOptions, intl: Intl)
    requires pid in h.products
    ensures var r := AfterTerms(res, cache, h, pid, m, localName, localLabel, info, termResults, options, intl);
      SameSaved(h, r.host) &&
      (r.host.objectTerms == h.objectTerms || OneMoreAssignment(h.objectTerms, r.host.objectTerms, pid, info.taxonomy)) &&
      (r.failure.None? ==> OneMoreAssignment(h.objectTerms, r.host.objectTerms, pid, info.taxonomy) &&
                           r.results.updatedAttrs == res.updatedAttrs + [info.taxonomy])
  {
    var termIds := TermIdsOf(termResults);
    var replaced := ReplacedAttributes(h.products[pid].attributes, localName, info.taxonomy, info.attributeId, termIds);
    if replaced.Some? {
      var h1 := AssignedTerms(WithAttributes(h, pid, replaced.value), pid, termIds, info.taxonomy);
      AssignedFrame(h, pid, replaced.value, termIds, info.taxonomy);
      FinishedFrame(res, cache, h1, pid, localName, localLabel, m.saveTemplate, info.taxonomy, termResults, options, intl);
    }
  }

  /** Replacing the attributes and assigning the terms saves nothing and adds one assignment. */
  lemma AssignedFrame(h: HostState, pid: int, attrs: seq<(string, AttributeValue)>, termIds: seq<int>, taxonomy: string)
    requires pid in h.products
    ensures var h1 := AssignedTerms(WithAttributes(h, pid, attrs), pid, termIds, taxonomy);
      SameSaved(h, h1) && OneMoreAssignment(h.objectTerms, h1.objectTerms, pid, taxonomy)
  {
    var h1 := AssignedTerms(WithAttributes(h, pid, attrs), pid, termIds, taxonomy);
    assert h1.objectTerms[..|h.objectTerms|] == h.objectTerms;
  }

  lemma AfterAttributeFrame(res: ApplyResults, cache: TermCache, h: HostState, pid: int, m: MappingRequest, localName: string, localLabel: string,
                            info: AttributeInfo, options: MapOptions, intl: Intl)
    requires pid in h.products
    ensures var r := AfterAttribute(res, cache, h, pid, m, localName, localLabel, info, options, intl);
      SameSaved(h, r.host) &&
      (r.host.objectTerms == h.objectTerms || OneMoreAssignment(h.objectTerms, r.host.objectTerms, pid, info.taxonomy)) &&
      (r.failure.None? ==> OneMoreAssignment(h.objectTerms, r.host.objectTerms, pid, info.taxonomy) &&
                           r.results.updatedAttrs == res.updatedAttrs + [info.taxonomy])
  {
    var (terms, cache1, h1) := TermsResult(cache, h, info.taxonomy, m.terms, options.autoCreateTerms);
    TermsResultEffect(cache, h, info.taxonomy, m.terms, options.autoCreateTerms);
    if terms.Ok? {
      AfterTermsFrame(res, cache1, h1, pid, m, localName, localLabel, info, terms.value, options, intl);
    }
  }

  /**
   * One iteration of `apply`'s loop never saves the product and assigns
   * terms at most once, to the product, on the mapping's sanitised target
   * taxonomy; when it completes it assigns exactly once and appends that
   * taxonomy to `updated_attrs`.
   */
  lemma MapStepFrame(res: ApplyResults, cache: TermCache, h: HostState, pid: int, m: MappingRequest, options: MapOptions, intl: Intl)
    requires pid in h.products
    ensures var r := MapStep(res, cache, h, pid, m, options, intl);
      var taxonomy := SanitizeTaxonomy(m.targetTax.GetOr(""));
      SameSaved(h, r.host) &&
      (r.host.objectTerms == h.objectTerms || OneMoreAssignment(h.objectTerms, r.host.objectTerms, pid, taxonomy)) &&
      (r.failure.None? ==> OneMoreAssignment(h.objectTerms, r.host.objectTerms, pid, taxonomy) &&
                           r.results.updatedAttrs == res.updatedAttrs + [taxonomy])
  {
    var targetTax := SanitizeTaxonomy(m.targetTax.GetOr(""));
    var localName := m.localAttr.GetOr("");
    var localLabel := m.localLabel.GetOr(localName);
    if !(EmptyString(targetTax) || EmptyString(localName)) {
      var (info, h1) := GlobalAttributeResult(h, targetTax, m.targetLabel.GetOr(localLabel), m.createAttribute, m.attributeArgs);
      GlobalAttributeEffect(h, targetTax, m.targetLabel.GetOr(localLabel), m.createAttribute, m.attributeArgs);
      if info.Ok? {
        SanitizedIsGlobal(m.targetTax.GetOr(""));
        AfterAttributeFrame(res, cache, h1, pid, m, localName, localLabel, info.value, options, intl);
      }
    }
  }

  /**
   * An incomplete mapping, with an empty sanitised `target_tax` or an empty
   * `local_attr`, throws "Mapeamento incompleto." before any resolver
   * call: the cache, the store and the results are unchanged.
   */
  lemma MapStepIncomplete(res: ApplyResults, cache: TermCache, h: HostState, pid: int, m: MappingRequest, options: MapOptions, intl: Intl)
    requires pid in h.products
    requires SanitizeTaxonomy(m.targetTax.GetOr("")) == "" || EmptyString(m.localAttr.GetOr(""))
    ensures MapStep(res, cache, h, pid, m, options, intl) == ApplyRun(Some(RuntimeError(IncompleteMessage)), res, cache, h)
  {
  }

  /** The assignments a run added on top of the store's, each to the product on its mapping's sanitised taxonomy. */
  predicate AssignsInOrder(before: seq<TermAssignment>, after: seq<TermAssignment>, pid: int, mapping: seq<MappingRequest>)
  {
    |before| <= |after| <= |before| + |mapping| && after[..|before|] == before &&
    forall j :: |before| <= j < |after| ==> Assigns(after[j], pid, SanitizeTaxonomy(mapping[j - |before|].targetTax.GetOr("")))
  }

  /**
   * `apply`'s loop never saves a product. Earlier mappings' term
   * assignments stay made whatever a later one does, in mapping order; a
   * completed loop has assigned once per mapping and lists each mapping's
   * sanitised taxonomy in `updated_attrs`, in order.
   */
  lemma ApplyFromEffect(cache: TermCache, h: HostState, pid: int, mapping: seq<MappingRequest>, options: MapOptions, intl: Intl)
    requires pid in h.products
    ensures var run := ApplyFrom(cache, h, pid, mapping, options, intl);
      SameSaved(h, run.host) &&
      AssignsInOrder(h.objectTerms, run.host.objectTerms, pid, mapping) &&
      (run.failure.None? ==>
         |run.host.objectTerms| == |h.objectTerms| + |mapping| &&
         UpdatedInOrder(run.results.updatedAttrs, mapping))
  {
    ApplyFromSaved(cache, h, pid, mapping, options, intl);
    ApplyFromAssigns(cache, h, pid, mapping, options, intl);
    ApplyFromUpdated(cache, h, pid, mapping, options, intl);
  }

  lemma {:induction false} ApplyFromSaved(cache: TermCache, h: HostState, pid: int, mapping: seq<MappingRequest>, options: MapOptions, intl: Intl)
    requires pid in h.products
    ensures SameSaved(h, ApplyFrom(cache, h, pid, mapping, options, intl).host)
    decreases |mapping|
  {
    if mapping != [] {
      var front := mapping[..|mapping| - 1];
      ApplyFromSaved(cache, h, pid, front, options, intl);
      var prev := ApplyFrom(cache, h, pid, front, options, intl);
      if prev.failure.None? {
        MapStepFrame(prev.results, prev.cache, prev.host, pid, mapping[|mapping| - 1], options, intl);
      }
    }
  }

  lemma {:induction false} ApplyFromAssigns(cache: TermCache, h: HostState, pid: int, mapping: seq<MappingRequest>, options: MapOptions, intl: Intl)
    requires pid in h.products
    ensures var run := ApplyFrom(cache, h, pid, mapping, options, intl);
      AssignsInOrder(h.objectTerms, run.host.objectTerms, pid, mapping) &&
      (run.failure.None? ==> |run.host.objectTerms| == |h.objectTerms| + |mapping|)
    decreases |mapping|
  {
    if mapping == [] {
      assert h.objectTerms[..|h.objectTerms|] == h.objectTerms;
    } else {
      var front := mapping[..|mapping| - 1];
      var m := mapping[|mapping| - 1];
      assert mapping == front + [m];
      ApplyFromAssigns(cache, h, pid, front, options, intl);
      var prev := ApplyFrom(cache, h, pid, front, options, intl);
      if prev.failure.None? {
        MapStepFrame(prev.results, prev.cache, prev.host, pid, m, options, intl);
        var r := MapStep(prev.results, prev.cache, prev.host, pid, m, options, intl);
        AssignsStep(h.objectTerms, prev.host.objectTerms, r.host.objectTerms, pid, front, m);
      } else {
        AssignsGrow(h.objectTerms, prev.host.objectTerms, pid, front, m);
      }
    }
  }

  lemma {:induction false} ApplyFromUpdated(cache: TermCache, h: HostState, pid: int, mapping: seq<MappingRequest>, options: MapOptions, intl: Intl)
    requires pid in h.products
    ensures var run := ApplyFrom(cache, h, pid, mapping, options, intl);
      run.failure.None? ==> UpdatedInOrder(run.results.updatedAttrs, mapping)
    decreases |mapping|
  {
    if mapping != [] {
      var front := mapping[..|mapping| - 1];
      var m := mapping[|mapping| - 1];
      assert mapping == front + [m];
      ApplyFromUpdated(cache, h, pid, front, options, intl);
      var prev := ApplyFrom(cache, h, pid, front, options, intl);
      if prev.failure.None? {
        MapStepFrame(prev.results, prev.cache, prev.host, pid, m, options, intl);
        var r := MapStep(prev.results, prev.cache, prev.host, pid, m, options, intl);
        if r.failure.None? {
          UpdatedStep(prev.results.updatedAttrs, front, m);
        }
      }
    }
  }

  /** `updated_attrs` lists each mapping's sanitised taxonomy, in order. */
  predicate UpdatedInOrder(updated: seq<string>, mapping: seq<MappingRequest>)
  {
    |updated| == |mapping| && forall i :: 0 <= i < |mapping| ==> updated[i] == SanitizeTaxonomy(mapping[i].targetTax.GetOr(""))
  }

  lemma UpdatedStep(updated: seq<string>, front: seq<MappingRequest>, m: MappingRequest)
    requires UpdatedInOrder(updated, front)
    ensures UpdatedInOrder(updated + [SanitizeTaxonomy(m.targetTax.GetOr(""))], front + [m])
  {
    var mapping := front + [m];
    forall i | 0 <= i < |front| ensures mapping[i] == front[i] {
    }
  }

  /** Assignments made for the first mappings still fit once one more mapping is allowed. */
  lemma AssignsGrow(before: seq<TermAssignment>, after: seq<TermAssignment>, pid: int, front: seq<MappingRequest>, m: MappingRequest)
    requires AssignsInOrder(before, after, pid, front)
    ensures AssignsInOrder(before, after, pid, front + [m])
  {
    var mapping := front + [m];
    forall j | |before| <= j < |after|
      ensures Assigns(after[j], pid, SanitizeTaxonomy(mapping[j - |before|].targetTax.GetOr("")))
    {
      assert mapping[j - |before|] == front[j - |before|];
    }
  }

  /** One more step: no assignment, or one for the next mapping once every earlier mapping has assigned. */
  lemma AssignsStep(before: seq<TermAssignment>, mid: seq<TermAssignment>, after: seq<TermAssignment>, pid: int,
                    front: seq<MappingRequest>, m: MappingRequest)
    requires AssignsInOrder(before, mid, pid, front) && |mid| == |before| + |front|
    requires after == mid || OneMoreAssignment(mid, after, pid, SanitizeTaxonomy(m.targetTax.GetOr("")))
    ensures AssignsInOrder(before, after, pid, front + [m])
  {
    AssignsGrow(before, mid, pid, front, m);
    if after != mid {
      var mapping := front + [m];
      assert after[..|before|] == mid[..|mid|][..|before|];
      forall j | |before| <= j < |after|
        ensures Assigns(after[j], pid, SanitizeTaxonomy(mapping[j - |before|].targetTax.GetOr("")))
      {
        if j < |mid| {
          assert after[j] == mid[j];
        }
      }
    }
  }

  /** `apply` on an unknown product throws "Produto inválido." and changes nothing. */
  lemma ApplyInvalidProduct(cache: TermCache, h: HostState, pid: int, mapping: seq<MappingRequest>, options: MapOptions,
                            backupId: string, now: int, intl: Intl)
    requires pid !in h.products
    ensures ApplyResult(cache, h, pid, mapping, options, backupId, now, intl) == (Throw(RuntimeError(InvalidProductMessage)), cache, h)
  {
  }

  /** The backup, when asked for, touches only the stored backups. */
  lemma BackupFrame(h: HostState, pid: int, backupId: string, now: int)
    requires pid in h.products
    ensures var h1 := CreatedBackup(h, pid, h.products[pid].attributes, backupId, now).1;
      h1.products == h.products && h1.objectTerms == h.objectTerms
  {
    CreatedBackupEffect(h, pid, h.products[pid].attributes, backupId, now);
  }

  /** Whatever `apply` ends with, the products are the same ones. */
  lemma ApplyResultKeepsProducts(cache: TermCache, h: HostState, pid: int, mapping: seq<MappingRequest>, options: MapOptions,
                                 backupId: string, now: int, intl: Intl)
    requires pid in h.products
    ensures var (_, _, h') := ApplyResult(cache, h, pid, mapping, options, backupId, now, intl);
      h'.products.Keys == h.products.Keys
  {
    BackupFrame(h, pid, backupId, now);
  }

  /**
   * Whatever `apply` ends with, the term assignments it made sit after the
   * store's, one per mapping of a prefix of `mapping`, in order.
   */
  lemma ApplyResultAssignsInOrder(cache: TermCache, h: HostState, pid: int, mapping: seq<MappingRequest>, options: MapOptions,
                                  backupId: string, now: int, intl: Intl)
    requires pid in h.products
    ensures var (_, _, h') := ApplyResult(cache, h, pid, mapping, options, backupId, now, intl);
      AssignsInOrder(h.objectTerms, h'.objectTerms, pid, mapping)
  {
    BackupFrame(h, pid, backupId, now);
    var (backup, h1) := if options.createBackup then CreatedBackup(h, pid, h.products[pid].attributes, backupId, now) else (Ok(backupId), h);
    if backup.Throw? {
      NoAssignments(h.objectTerms, pid, mapping);
    } else {
      ApplyFromEffect(cache, h1, pid, mapping, options, intl);
    }
  }

  /** An `apply` that throws leaves the product's `saved` flag as it was. */
  lemma ApplyResultThrowUnsaved(cache: TermCache, h: HostState, pid: int, mapping: seq<MappingRequest>, options: MapOptions,
                                backupId: string, now: int, intl: Intl)
    requires pid in h.products
    ensures var (r, _, h') := ApplyResult(cache, h, pid, mapping, options, backupId, now, intl);
      r.Throw? ==> pid in h'.products && h'.products[pid].saved == h.products[pid].saved
  {
    BackupFrame(h, pid, backupId, now);
    var (backup, h1) := if options.createBackup then CreatedBackup(h, pid, h.products[pid].attributes, backupId, now) else (Ok(backupId), h);
    if backup.Ok? {
      ApplyFromEffect(cache, h1, pid, mapping, options, intl);
    }
  }

  /** A run that assigned nothing fits any mappings. */
  lemma NoAssignments(before: seq<TermAssignment>, pid: int, mapping: seq<MappingRequest>)
    ensures AssignsInOrder(before, before, pid, mapping)
  {
    assert before[..|before|] == before;
  }

  /**
   * A completed `apply` has saved the product, made one term assignment
   * per mapping and returns each mapping's sanitised taxonomy in
   * `updated_attrs`, in order.
   */
  lemma ApplyResultSuccess(cache: TermCache, h: HostState, pid: int, mapping: seq<MappingRequest>, options: MapOptions,
                           backupId: string, now: int, intl: Intl)
    requires pid in h.products
    ensures var (r, _, h') := ApplyResult(cache, h, pid, mapping, options, backupId, now, intl);
      r.Ok? ==>
        pid in h'.products && h'.products[pid].saved &&
        |h'.objectTerms| == |h.objectTerms| + |mapping| &&
        UpdatedInOrder(r.value.updatedAttrs, mapping)
  {
    BackupFrame(h, pid, backupId, now);
    var (backup, h1) := if options.createBackup then CreatedBackup(h, pid, h.products[pid].attributes, backupId, now) else (Ok(backupId), h);
    if backup.Ok? {
      ApplyFromEffect(cache, h1, pid, mapping, options, intl);
    }
  }

  /**
   * With `create_backup`, a product holding a legacy array attribute makes
   * `create_backup` raise its `TypeError` before any mapping runs: nothing
   * changes.
   */
  lemma ApplyLegacyBackupFails(cache: TermCache, h: HostState, pid: int, mapping: seq<MappingRequest>, options: MapOptions,
                               backupId: string, now: int, intl: Intl, j: nat)
    requires pid in h.products && options.createBackup
    requires j < |h.products[pid].attributes| && h.products[pid].attributes[j].1.LegacyArray?
    ensures ApplyResult(cache, h, pid, mapping, options, backupId, now, intl) == (Throw(AttributeTypeError), cache, h)
  {
    CreatedBackupEffect(h, pid, h.products[pid].attributes, backupId, now);
  }

  /** Once a mapping's loop iteration has thrown, the later mappings change nothing. */
  lemma {:induction false} ApplyFromStopsAtFailure(cache: TermCache, h: HostState, pid: int, mapping: seq<MappingRequest>, n: nat,
                                                   options: MapOptions, intl: Intl)
    requires pid in h.products && n <= |mapping|
    requires ApplyFrom(cache, h, pid, mapping[..n], options, intl).failure.Some?
    ensures ApplyFrom(cache, h, pid, mapping, options, intl) == ApplyFrom(cache, h, pid, mapping[..n], options, intl)
    decreases |mapping|
  {
    if n < |mapping| {
      var front := mapping[..|mapping| - 1];
      assert front[..n] == mapping[..n];
      ApplyFromStopsAtFailure(cache, h, pid, front, n, options, intl);
    } else {
      assert mapping[..n] == mapping;
    }
  }

  // ---------------------------------------------------------------------
  // apply, step by step

  /** Lines 137-154: update the variations, save the template, record the results. */
  method FinishMapping(store: Store, ghost cache: TermCache, res: ApplyResults, pid: int, localName: string, localLabel: string,
                       saveTemplate: bool, taxonomy: string, termResults: seq<ResolvedTerm>,
                       slugMap: SlugMap, created: seq<string>, existing: seq<string>, options: MapOptions, intl: Intl)
    returns (failure: Option<Throwable>, results: ApplyResults)
    requires pid in store.st.products
    requires slugMap == SlugMapOf(termResults) && created == CreatedSlugs(termResults) && existing == ExistingSlugs(termResults)
    modifies store
    ensures ApplyRun(failure, results, cache, store.st) ==
            Finished(res, cache, old(store.st), pid, localName, localLabel, saveTemplate, taxonomy, termResults, options, intl)
  {
    var variations := res.variations;
    if options.updateVariations {
      var stats := UpdateVariations(store, pid, taxonomy, localName, slugMap, intl);
      if stats.Throw? {
        return Some(stats.error), res;
      }
      variations := Put(variations, taxonomy, stats.value);
    }
    if saveTemplate {
      SaveTemplate(store, localLabel, TemplateConfig(taxonomy, TemplateTerms(termResults)));
    }
    failure := None;
    results := ApplyResults(
      Put(res.createdTerms, taxonomy, created),
      Put(res.existingTerms, taxonomy, existing),
      res.updatedAttrs + [taxonomy],
      variations);
  }

  /** Lines 115-154: the term ids and slug map, the attribute swap, the term assignment, then the rest. */
  method ResolvedMapping(store: Store, ghost cache: TermCache, res: ApplyResults, pid: int, m: MappingRequest,
                         localName: string, localLabel: string, info: AttributeInfo, termResults: seq<ResolvedTerm>,
                         options: MapOptions, intl: Intl)
    returns (failure: Option<Throwable>, results: ApplyResults)
    requires pid in store.st.products
    modifies store
    ensures ApplyRun(failure, results, cache, store.st) ==
            AfterTerms(res, cache, old(store.st), pid, m, localName, localLabel, info, termResults, options, intl)
  {
    var termIds := TermIdsOf(termResults);
    var slugMap, created, existing := CollectTermResults(termResults);
    var updated := ReplaceAttribute(store, pid, localName, info.taxonomy, info.attributeId, termIds);
    if !updated {
      return Some(RuntimeError(LocalNotFoundMessage(localName))), res;
    }
    store.SetObjectTerms(pid, termIds, info.taxonomy, false);
    failure, results := FinishMapping(store, cache, res, pid, localName, localLabel, m.saveTemplate, info.taxonomy, termResults,
                                      slugMap, created, existing, options, intl);
  }

  /** One iteration of `apply`'s loop (lines 102-154). */
  method ApplyOne(service: TermService, store: Store, res: ApplyResults, pid: int, m: MappingRequest, options: MapOptions, intl: Intl)
    returns (failure: Option<Throwable>, results: ApplyResults)
    requires pid in store.st.products
    modifies service, store
    ensures ApplyRun(failure, results, service.cache, store.st) == MapStep(res, old(service.cache), old(store.st), pid, m, options, intl)
  {
    var targetTax := SanitizeTaxonomy(m.targetTax.GetOr(""));
    var localName := m.localAttr.GetOr("");
    var localLabel := m.localLabel.GetOr(localName);
    if EmptyString(targetTax) || EmptyString(localName) {
      return Some(RuntimeError(IncompleteMessage)), res;
    }
    ghost var h0 := store.st;
    var info := service.EnsureGlobalAttribute(store, targetTax, m.targetLabel.GetOr(localLabel), m.createAttribute, m.attributeArgs);
    GlobalAttributeEffect(h0, targetTax, m.targetLabel.GetOr(localLabel), m.createAttribute, m.attributeArgs);
    if info.Throw? {
      return Some(info.error), res;
    }
    ghost var cache1, h1 := service.cache, store.st;
    var terms := service.EnsureTerms(store, info.value.taxonomy, m.terms, options.autoCreateTerms);
    TermsResultEffect(cache1, h1, info.value.taxonomy, m.terms, options.autoCreateTerms);
    if terms.Throw? {
      return Some(terms.error), res;
    }
    failure, results := ResolvedMapping(store, service.cache, res, pid, m, localName, localLabel, info.value, terms.value, options, intl);
  }

  /** `apply`'s loop over the mappings (lines 102-154): it stops at the first exception. */
  method ApplyMappings(service: TermService, store: Store, pid: int, mapping: seq<MappingRequest>, options: MapOptions, intl: Intl)
    returns (failure: Option<Throwable>, results: ApplyResults)
    requires pid in store.st.products
    modifies service, store
    ensures ApplyRun(failure, results, service.cache, store.st) == ApplyFrom(old(service.cache), old(store.st), pid, mapping, options, intl)
  {
    ghost var cache0, h0 := service.cache, store.st;
    results := NoResults;
    for i := 0 to |mapping|
      invariant pid in store.st.products
      invariant ApplyFrom(cache0, h0, pid, mapping[..i], options, intl) == ApplyRun(None, results, service.cache, store.st)
    {
      TakePrefix(mapping, i);
      failure, results := ApplyOne(service, store, results, pid, mapping[i], options, intl);
      if failure.Some? {
        ApplyFromStopsAtFailure(cache0, h0, pid, mapping, i + 1, options, intl);
        return;
      }
    }
    assert mapping[..|mapping|] == mapping;
    failure := None;
  }

  /**
   * `apply($product_id, $mapping, $options)`, with `backupId` standing for
   * `wp_generate_uuid4()` and `now` for `time()`.
   */
  method Apply(service: TermService, store: Store, pid: int, mapping: seq<MappingRequest>, options: MapOptions,
               backupId: string, now: int, intl: Intl)
    returns (r: Result<ApplyResults>)
    modifies service, store
    ensures (r, service.cache, store.st) == ApplyResult(old(service.cache), old(store.st), pid, mapping, options, backupId, now, intl)
  {
    if pid !in store.st.products {
      return Throw(RuntimeError(InvalidProductMessage));
    }
    var attributesBefore := store.st.products[pid].attributes;
    BackupFrame(store.st, pid, backupId, now);
    if options.createBackup {
      var backup := CreateBackup(store, pid, attributesBefore, backupId, now);
      if backup.Throw? {
        return Throw(backup.error);
      }
    }
    var failure, results := ApplyMappings(service, store, pid, mapping, options, intl);
    if failure.Some? {
      return Throw(failure.value);
    }
    store.Save(pid);
    return Ok(results);
  }
}
