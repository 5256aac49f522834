/**
 * `CLI_Command`: how `wp local2global map` and `wp local2global simulate`
 * turn their arguments into mappings and options for `Mapping_Service`,
 * and what `simulate` writes on the test product it creates.
 */
module Cli {
  import opened PhpCore
  import opened PhpString
  import opened PhpArray
  import opened Sanitize
  import opened TermResolver
  import opened Mapping

  /** What a command produces, or the message it stops with (`WP_CLI::error`). */
  datatype Outcome<T> = Done(value: T) | CliError(message: string)

  /** `! empty($assoc_args[$flag])` for a string-valued flag. */
  predicate IsSet(flag: Option<string>)
  {
    flag.Some? && !EmptyString(flag.value)
  }

  // ---------------------------------------------------------------------
  // `a:b` pairs

  /**
   * `[$a, $b] = array_pad(explode(':', $input, 2), 2, '')`, skipped when
   * either side is `''`.
   */
  function ParsePair(input: string): (r: Option<(string, string)>)
    ensures r.Some? ==> r.value.0 != "" && r.value.1 != "" && ':' !in r.value.0
    ensures r.Some? ==> input == r.value.0 + [':'] + r.value.1
    ensures r.None? <==> ':' !in input || SplitFirst(':', input).0 == "" || SplitFirst(':', input).1 == ""
  {
    var (left, right) := SplitFirst(':', input);
    if left == "" || right == "" then None else Some((left, right))
  }

  /** The split happens at the first `:`: the right side keeps any later one. */
  lemma {:induction false} SplitAtFirstColon(a: string, b: string)
    requires ':' !in a
    ensures SplitFirst(':', a + [':'] + b) == (a, b)
    decreases |a|
  {
    var s := a + [':'] + b;
    if a == [] {
      assert s == [':'] + b;
    } else {
      assert s[0] == a[0] && s[1..] == a[1..] + [':'] + b;
      SplitAtFirstColon(a[1..], b);
      assert [a[0]] + a[1..] == a;
    }
  }

  /** `"a:b"` with a colon-free, non-empty left side and a non-empty right side parses to `(a, b)`. */
  lemma ParsePairJoin(a: string, b: string)
    requires a != "" && b != "" && ':' !in a
    ensures ParsePair(a + [':'] + b) == Some((a, b))
  {
    SplitAtFirstColon(a, b);
  }

  /** The valid pairs of `inputs`, in order, each turned into an entry by `f`. */
  function PairsFold<T>(inputs: seq<string>, f: ((string, string)) -> T): (r: seq<T>)
    ensures |r| <= |inputs|
    decreases |inputs|
  {
    if inputs == [] then []
    else
      var front := PairsFold(inputs[..|inputs| - 1], f);
      var pair := ParsePair(inputs[|inputs| - 1]);
      if pair.Some? then front + [f(pair.value)] else front
  }

  /** Nothing comes out exactly when no input is a valid pair. */
  lemma {:induction false} PairsFoldEmpty<T>(inputs: seq<string>, f: ((string, string)) -> T)
    ensures PairsFold(inputs, f) == [] <==> forall i :: 0 <= i < |inputs| ==> ParsePair(inputs[i]).None?
    decreases |inputs|
  {
    if inputs != [] {
      var front := inputs[..|inputs| - 1];
      PairsFoldEmpty(front, f);
      assert forall i :: 0 <= i < |front| ==> front[i] == inputs[i];
    }
  }

  /** When every input is a valid pair, there is one entry per input, in order. */
  lemma {:induction false} PairsFoldAll<T>(inputs: seq<string>, f: ((string, string)) -> T)
    requires forall i :: 0 <= i < |inputs| ==> ParsePair(inputs[i]).Some?
    ensures var r := PairsFold(inputs, f);
      |r| == |inputs| && forall i :: 0 <= i < |inputs| ==> r[i] == f(ParsePair(inputs[i]).value)
    decreases |inputs|
  {
    if inputs != [] {
      var front := inputs[..|inputs| - 1];
      assert forall i :: 0 <= i < |front| ==> front[i] == inputs[i];
      PairsFoldAll(front, f);
      var r := PairsFold(inputs, f);
      var rf := PairsFold(front, f);
      var last := ParsePair(inputs[|inputs| - 1]);
      assert last.Some?;
      assert r == rf + [f(last.value)];
      forall i | 0 <= i < |inputs|
        ensures r[i] == f(ParsePair(inputs[i]).value)
      {
        if i < |front| {
          assert r[i] == rf[i];
        }
      }
    }
  }

  /** Every entry comes from a valid pair of the input. */
  lemma {:induction false} PairsFoldMember<T>(inputs: seq<string>, f: ((string, string)) -> T, k: nat)
    requires k < |PairsFold(inputs, f)|
    ensures exists i :: 0 <= i < |inputs| && ParsePair(inputs[i]).Some? && PairsFold(inputs, f)[k] == f(ParsePair(inputs[i]).value)
    decreases |inputs|
  {
    var front := inputs[..|inputs| - 1];
    if k < |PairsFold(front, f)| {
      PairsFoldMember(front, f, k);
      var i :| 0 <= i < |front| && ParsePair(front[i]).Some? && PairsFold(front, f)[k] == f(ParsePair(front[i]).value);
      assert front[i] == inputs[i];
    } else {
      assert ParsePair(inputs[|inputs| - 1]).Some?;
    }
  }

  /** A `--term`/`--val` pair `local:slug` as a term config. */
  function TermConfigOf(pair: (string, string), create: bool): TermConfig
  {
    TermConfig(pair.0, 0, Some(pair.1), Some(pair.0), create)
  }

  function TermConfigMaker(create: bool): ((string, string)) -> TermConfig
  {
    (p: (string, string)) => TermConfigOf(p, create)
  }

  /** The `$term_config` / `$terms_template` loop. */
  function TermConfigs(inputs: seq<string>, create: bool): seq<TermConfig>
  {
    PairsFold(inputs, TermConfigMaker(create))
  }

  /** An `--attr` pair `local:target` as a mapping with the given term list. */
  function MappingOf(pair: (string, string), terms: seq<TermConfig>, createAttribute: bool, saveTemplate: bool): MappingRequest
  {
    MappingRequest(Some(pair.1), Some(pair.0), Some(pair.0), Some(pair.0), createAttribute, terms, AttributeArgs(None, false), saveTemplate)
  }

  function MappingMaker(terms: seq<TermConfig>, createAttribute: bool, saveTemplate: bool): ((string, string)) -> MappingRequest
  {
    (p: (string, string)) => MappingOf(p, terms, createAttribute, saveTemplate)
  }

  /** The `$mapping` loop. */
  function Mappings(inputs: seq<string>, terms: seq<TermConfig>, createAttribute: bool, saveTemplate: bool): seq<MappingRequest>
  {
    PairsFold(inputs, MappingMaker(terms, createAttribute, saveTemplate))
  }

  /**
   * Every term config comes from a valid pair: the local value is its own
   * term name, the slug is the right side, and `create` is the flag.
   */
  lemma TermConfigsShape(inputs: seq<string>, create: bool, k: nat)
    requires k < |TermConfigs(inputs, create)|
    ensures var c := TermConfigs(inputs, create)[k];
      c.create == create && c.termId == 0 && c.termName == Some(c.localValue) && c.termSlug.Some? &&
      c.localValue != "" && c.termSlug.value != "" &&
      exists i :: 0 <= i < |inputs| && inputs[i] == c.localValue + [':'] + c.termSlug.value
  {
    var f := TermConfigMaker(create);
    PairsFoldMember(inputs, f, k);
    var i :| 0 <= i < |inputs| && ParsePair(inputs[i]).Some? && PairsFold(inputs, f)[k] == f(ParsePair(inputs[i]).value);
  }

  /**
   * Every mapping comes from a valid `--attr` pair: the left side is its
   * local attribute, local label and target label, the right side its
   * target taxonomy, and it carries the shared term list and flags.
   */
  lemma MappingsShape(inputs: seq<string>, terms: seq<TermConfig>, createAttribute: bool, saveTemplate: bool, k: nat)
    requires k < |Mappings(inputs, terms, createAttribute, saveTemplate)|
    ensures var m := Mappings(inputs, terms, createAttribute, saveTemplate)[k];
      m.terms == terms && m.createAttribute == createAttribute && m.saveTemplate == saveTemplate &&
      m.attributeArgs == AttributeArgs(None, false) &&
      m.localAttr.Some? && m.targetTax.Some? && m.localLabel == m.localAttr && m.targetLabel == m.localAttr &&
      m.localAttr.value != "" && m.targetTax.value != "" &&
      exists i :: 0 <= i < |inputs| && inputs[i] == m.localAttr.value + [':'] + m.targetTax.value
  {
    var f := MappingMaker(terms, createAttribute, saveTemplate);
    PairsFoldMember(inputs, f, k);
    var i :| 0 <= i < |inputs| && ParsePair(inputs[i]).Some? && PairsFold(inputs, f)[k] == f(ParsePair(inputs[i]).value);
  }

  /** The loop over `a:b` inputs, keeping the valid pairs in order. */
  method CollectPairs<T>(inputs: seq<string>, f: ((string, string)) -> T) returns (r: seq<T>)
    ensures r == PairsFold(inputs, f)
  {
    r := [];
    for i := 0 to |inputs|
      invariant r == PairsFold(inputs[..i], f)
    {
      TakePrefix(inputs, i);
      var pair := ParsePair(inputs[i]);
      if pair.None? {
        continue;
      }
      r := r + [f(pair.value)];
    }
    assert inputs[..|inputs|] == inputs;
  }

  // ---------------------------------------------------------------------
  // map

  /** The associative arguments of `map`; a repeated option arrives as the list of its values. */
  datatype MapArgs = MapArgs(
    product: Option<string>,
    attr: seq<string>,
    term: seq<string>,
    createMissing: Option<string>,
    applyVariations: Option<string>,
    dryRun: Option<string>,
    hydrateVariations: Option<string>,
    aggressiveHydrateVariations: Option<string>)

  /** The `$options` array `map` builds. */
  datatype CliOptions = CliOptions(
    autoCreateTerms: bool,
    updateVariations: bool,
    createBackup: bool,
    hydrateVariations: bool,
    aggressiveHydrateVariations: bool)
  {
    /** The keys `Mapping_Service` reads. */
    function ForMapping(): MapOptions
    {
      MapOptions(createBackup, autoCreateTerms, updateVariations)
    }
  }

  /** What `map` hands to `Mapping_Service`: the products, the mapping, the options and whether to dry-run. */
  datatype MapPlan = MapPlan(products: seq<int>, mapping: seq<MappingRequest>, options: CliOptions, dryRun: bool)

  const MissingProductMessage := "Informe o parâmetro --product."
  const MissingAttrMessage := "Informe ao menos um --attr local:pa_slug."
  const InvalidMappingMessage := "Mapeamento inválido."

  /**
   * `map($args, $assoc_args)` up to the per-product loop, with
   * `allProducts` standing for the ids `WP_Query` returns for `--product=all`.
   */
  function MapPlanOf(args: MapArgs, allProducts: seq<int>): Outcome<MapPlan>
  {
    if !IsSet(args.product) then CliError(MissingProductMessage)
    else
      var products := if args.product.value == "all" then allProducts else [IntCast(args.product.value)];
      if args.attr == [] then CliError(MissingAttrMessage)
      else
        var terms := TermConfigs(args.term, IsSet(args.createMissing));
        var mapping := Mappings(args.attr, terms, false, false);
        if mapping == [] then CliError(InvalidMappingMessage)
        else
          var options := CliOptions(IsSet(args.createMissing), IsSet(args.applyVariations), !IsSet(args.dryRun),
                                    IsSet(args.hydrateVariations), IsSet(args.aggressiveHydrateVariations));
          Done(MapPlan(products, mapping, options, IsSet(args.dryRun)))
  }

  /**
   * `map` stops with the first problem, in this order: no `--product`
   * (or an empty or `"0"` one), no `--attr` at all, no valid `--attr`
   * pair.
   */
  lemma MapPlanErrors(args: MapArgs, allProducts: seq<int>)
    ensures var r := MapPlanOf(args, allProducts);
      (r == CliError(MissingProductMessage) <==> !IsSet(args.product)) &&
      (r == CliError(MissingAttrMessage) <==> IsSet(args.product) && args.attr == []) &&
      (r == CliError(InvalidMappingMessage) <==>
         IsSet(args.product) && args.attr != [] && forall i :: 0 <= i < |args.attr| ==> ParsePair(args.attr[i]).None?)
  {
    var terms := TermConfigs(args.term, IsSet(args.createMissing));
    PairsFoldEmpty(args.attr, MappingMaker(terms, false, false));
  }

  /**
   * A plan `map` accepts: every mapping has the same term list, built from
   * the `--term` pairs, and `create_attribute = false`; `create` on each
   * term and `auto_create_terms` both follow `--create-missing`;
   * `create_backup` is the negation of `--dry-run`; a numeric `--product`
   * is the single product.
   */
  lemma MapPlanAccepted(args: MapArgs, allProducts: seq<int>)
    requires MapPlanOf(args, allProducts).Done?
    ensures var plan := MapPlanOf(args, allProducts).value;
      plan.mapping != [] &&
      (forall k :: 0 <= k < |plan.mapping| ==>
         plan.mapping[k].terms == TermConfigs(args.term, IsSet(args.createMissing)) && !plan.mapping[k].createAttribute) &&
      (forall k :: 0 <= k < |plan.mapping[0].terms| ==> plan.mapping[0].terms[k].create == IsSet(args.createMissing)) &&
      plan.options.autoCreateTerms == IsSet(args.createMissing) &&
      plan.options.createBackup == !plan.dryRun && plan.dryRun == IsSet(args.dryRun) &&
      plan.options.updateVariations == IsSet(args.applyVariations) &&
      (args.product.value != "all" ==> plan.products == [IntCast(args.product.value)]) &&
      (args.product.value == "all" ==> plan.products == allProducts)
  {
    var plan := MapPlanOf(args, allProducts).value;
    var terms := TermConfigs(args.term, IsSet(args.createMissing));
    forall k | 0 <= k < |plan.mapping|
      ensures plan.mapping[k].terms == terms && !plan.mapping[k].createAttribute
    {
      MappingsShape(args.attr, terms, false, false, k);
    }
    forall k | 0 <= k < |terms| ensures terms[k].create == IsSet(args.createMissing) {
      TermConfigsShape(args.term, IsSet(args.createMissing), k);
    }
  }

  /** `map` up to the per-product loop, with its two input loops. */
  method Map(args: MapArgs, allProducts: seq<int>) returns (r: Outcome<MapPlan>)
    ensures r == MapPlanOf(args, allProducts)
  {
    if !IsSet(args.product) {
      return CliError(MissingProductMessage);
    }
    var products := if args.product.value == "all" then allProducts else [IntCast(args.product.value)];
    if args.attr == [] {
      return CliError(MissingAttrMessage);
    }
    var create := IsSet(args.createMissing);
    var terms := CollectPairs(args.term, TermConfigMaker(create));
    var mapping := CollectPairs(args.attr, MappingMaker(terms, false, false));
    if mapping == [] {
      return CliError(InvalidMappingMessage);
    }
    var options := CliOptions(create, IsSet(args.applyVariations), !IsSet(args.dryRun),
                              IsSet(args.hydrateVariations), IsSet(args.aggressiveHydrateVariations));
    return Done(MapPlan(products, mapping, options, IsSet(args.dryRun)));
  }

  // ---------------------------------------------------------------------
  // variations-update

  const MissingVariationsProductMessage := "Informe --product=<id>."

  /** How `variations_update` ends: the message it stops with, or the exception it lets through. */
  datatype VariationsOutcome = VariationsError(message: string) | VariationsUncaught(thrown: Throwable)

  /**
   * `variations_update($args, $assoc_args)`: `(int) ($assoc_args['product'] ?? 0)`
   * must be positive; past that check it calls `update_variations_only`,
   * which `Mapping_Service` does not define.
   */
  function VariationsUpdate(product: Option<string>): VariationsOutcome
  {
    var pid := if product.Some? then IntCast(product.value) else 0;
    if pid <= 0 then VariationsError(MissingVariationsProductMessage)
    else VariationsUncaught(FatalError(UndefinedUpdateVariationsOnly))
  }

  /** Without a positive `--product`, `variations_update` stops with its message; with one, it ends in the undefined-method error. */
  lemma VariationsUpdateOutcome(product: Option<string>)
    ensures var r := VariationsUpdate(product);
      (r.VariationsError? <==> product.None? || IntCast(product.value) <= 0) &&
      (r.VariationsError? ==> r.message == MissingVariationsProductMessage) &&
      (r.VariationsUncaught? ==> r.thrown == FatalError(UndefinedUpdateVariationsOnly))
  {
  }

  // ---------------------------------------------------------------------
  // simulate

  /** The associative arguments of `simulate`; `None` for an option not given. */
  datatype SimulateArgs = SimulateArgs(
    attr: Option<seq<string>>,
    val: Option<seq<string>>,
    variations: Option<string>,
    dryRun: Option<string>)

  const DefaultAttrs: seq<string> := ["Cor:pa_cor"]
  const DefaultVals: seq<string> := ["Azul:azul", "Vermelho:vermelho"]

  /** `(int) ($assoc_args['variations'] ?? 2)`, raised to 1 when below it. */
  function VariationCount(variations: Option<string>): (n: int)
    ensures n >= 1
    ensures variations.None? ==> n == 2
    ensures variations.Some? && IntCast(variations.value) >= 1 ==> n == IntCast(variations.value)
  {
    var n := if variations.Some? then IntCast(variations.value) else 2;
    if n < 1 then 1 else n
  }

  /** One entry of the `_product_attributes` meta `simulate` writes. */
  datatype SimAttribute = SimAttribute(
    name: string,
    value: string,
    position: int,
    isVisible: bool,
    isVariation: bool,
    isTaxonomy: bool)

  /** The local values of a term list, in order. */
  function LocalValues(terms: seq<TermConfig>): (r: seq<string>)
    ensures |r| == |terms|
    ensures forall i :: 0 <= i < |terms| ==> r[i] == terms[i].localValue
  {
    seq(|terms|, i requires 0 <= i < |terms| => terms[i].localValue)
  }

  /** The meta entry for the mapping at `index`. */
  function SimAttributeOf(m: MappingRequest, index: int): SimAttribute
  {
    SimAttribute(m.localAttr.GetOr(""), Implode(" | ", LocalValues(m.terms)), index, true, true, false)
  }

  /** `$attr_meta[sanitize_title($map['local_attr'])] = ...` for the mapping at `index`. */
  function AttrPair(m: MappingRequest, index: int): (string, SimAttribute)
  {
    (SanitizeTitle(m.localAttr.GetOr("")), SimAttributeOf(m, index))
  }

  /** The assignments to `$attr_meta`, one per mapping, in order. */
  function AttrPairs(mapping: seq<MappingRequest>): (r: seq<(string, SimAttribute)>)
    ensures |r| == |mapping|
    ensures forall i :: 0 <= i < |mapping| ==> r[i] == AttrPair(mapping[i], i)
  {
    seq(|mapping|, i requires 0 <= i < |mapping| => AttrPair(mapping[i], i))
  }

  function AttrMeta(mapping: seq<MappingRequest>): seq<(string, SimAttribute)>
  {
    Merge([], AttrPairs(mapping))
  }

  /**
   * The meta entry under a mapping's `sanitize_title`'d name is that
   * mapping's (its name, its values joined by `' | '`, its index as
   * position) unless a later mapping's name sanitises to the same key.
   */
  lemma AttrMetaEntry(mapping: seq<MappingRequest>, j: nat)
    requires j < |mapping|
    requires forall i :: j < i < |mapping| ==> SanitizeTitle(mapping[i].localAttr.GetOr("")) != SanitizeTitle(mapping[j].localAttr.GetOr(""))
    ensures Get(AttrMeta(mapping), SanitizeTitle(mapping[j].localAttr.GetOr(""))) == Some(SimAttributeOf(mapping[j], j))
  {
    var pairs := AttrPairs(mapping);
    forall i | j < i < |pairs| ensures pairs[i].0 != pairs[j].0 {
      assert pairs[i] == AttrPair(mapping[i], i);
    }
    MergeLastWins([], pairs, j);
  }

  /** The values `simulate` joins are read back unchanged by `wc_get_text_attributes` when none is empty, padded or holds `|`. */
  lemma SimAttributeValuesReadBack(m: MappingRequest, index: int)
    requires |m.terms| >= 1 && forall i :: 0 <= i < |m.terms| ==> IsOptionText(m.terms[i].localValue)
    ensures WcGetTextAttributes(SimAttributeOf(m, index).value) == LocalValues(m.terms)
  {
    TextAttributesRoundTrip(LocalValues(m.terms));
  }

  /** One variation `simulate` creates: its `menu_order`, title and meta. */
  datatype SimVariation = SimVariation(menuOrder: int, title: string, metaKey: string, metaValue: string, price: int)

  function SimVariationOf(firstAttr: string, value: string, loop: int): SimVariation
  {
    SimVariation(loop, "Variação " + value, "attribute_" + SanitizeTitle(firstAttr), value, 10 + loop)
  }

  /** The variations for the first `count` values, in order. */
  function SimVariations(firstAttr: string, values: seq<string>, count: int): (r: seq<SimVariation>)
    ensures |r| == if count < 0 then 0 else if count < |values| then count else |values|
    ensures forall i :: 0 <= i < |r| ==> r[i] == SimVariationOf(firstAttr, values[i], i)
  {
    var n := if count < 0 then 0 else if count < |values| then count else |values|;
    seq(n, i requires 0 <= i < n => SimVariationOf(firstAttr, values[i], i))
  }

  /** The variation loop of `simulate`, which stops once `count` variations exist. */
  method PlanVariations(firstAttr: string, values: seq<string>, count: int) returns (r: seq<SimVariation>)
    ensures r == SimVariations(firstAttr, values, count)
  {
    r := [];
    var loop := 0;
    for k := 0 to |values|
      invariant loop == k
      invariant k <= count || k == 0
      invariant r == SimVariations(firstAttr, values, k)
    {
      if loop >= count {
        break;
      }
      r := r + [SimVariationOf(firstAttr, values[k], loop)];
      loop := loop + 1;
    }
  }

  /** What `simulate` sets up and then runs. */
  datatype SimulatePlan = SimulatePlan(
    productId: int,
    attrMeta: seq<(string, SimAttribute)>,
    variations: seq<SimVariation>,
    mapping: seq<MappingRequest>,
    options: MapOptions,
    dryRun: bool)

  const NoValidAttributeMessage := "Nenhum atributo válido informado."
  const ProductCreationMessage := "Falha ao criar produto de teste."

  /** The `terms_template` of `simulate`: the `--val` pairs (or the defaults), each created when missing. */
  function SimulateTerms(args: SimulateArgs): seq<TermConfig>
  {
    TermConfigs(args.val.GetOr(DefaultVals), true)
  }

  /** The mapping of `simulate`: the `--attr` pairs (or the default), each creating its attribute and saving a template. */
  function SimulateMapping(args: SimulateArgs): seq<MappingRequest>
  {
    Mappings(args.attr.GetOr(DefaultAttrs), SimulateTerms(args), true, true)
  }

  /** `simulate($args, $assoc_args)` with `productId` standing for what `wp_insert_post` returns for the test product. */
  function SimulatePlanOf(args: SimulateArgs, productId: int): Outcome<SimulatePlan>
  {
    var mapping := SimulateMapping(args);
    if mapping == [] then CliError(NoValidAttributeMessage)
    else if productId == 0 then CliError(ProductCreationMessage)
    else
      var variations := SimVariations(mapping[0].localAttr.GetOr(""), LocalValues(mapping[0].terms), VariationCount(args.variations));
      var options := MapOptions(!IsSet(args.dryRun), true, true);
      Done(SimulatePlan(productId, AttrMeta(mapping), variations, mapping, options, IsSet(args.dryRun)))
  }

  /**
   * `simulate` stops when no `--attr` pair is valid, then when the test
   * product cannot be created.
   */
  lemma SimulatePlanErrors(args: SimulateArgs, productId: int)
    ensures var r := SimulatePlanOf(args, productId);
      (r == CliError(NoValidAttributeMessage) <==>
         forall i :: 0 <= i < |args.attr.GetOr(DefaultAttrs)| ==> ParsePair(args.attr.GetOr(DefaultAttrs)[i]).None?) &&
      (r == CliError(ProductCreationMessage) <==> SimulateMapping(args) != [] && productId == 0)
  {
    PairsFoldEmpty(args.attr.GetOr(DefaultAttrs), MappingMaker(SimulateTerms(args), true, true));
  }

  /**
   * Every mapping of `simulate` creates its attribute, saves a template
   * and carries the whole `terms_template`, whose terms are all created
   * when missing.
   */
  lemma SimulateMappingShape(args: SimulateArgs, k: nat)
    requires k < |SimulateMapping(args)|
    ensures var m := SimulateMapping(args)[k];
      m.createAttribute && m.saveTemplate && m.terms == SimulateTerms(args) &&
      forall j :: 0 <= j < |m.terms| ==> m.terms[j].create
  {
    MappingsShape(args.attr.GetOr(DefaultAttrs), SimulateTerms(args), true, true, k);
    forall j | 0 <= j < |SimulateTerms(args)| ensures SimulateTerms(args)[j].create {
      TermConfigsShape(args.val.GetOr(DefaultVals), true, j);
    }
  }

  /**
   * `simulate` creates `min(max(1, --variations), number of values)`
   * variations, each on the first attribute's meta key with the value at
   * its position, and runs with terms and variations updated and a backup
   * unless it is a dry run.
   */
  lemma SimulatePlanShape(args: SimulateArgs, productId: int)
    requires SimulatePlanOf(args, productId).Done?
    ensures var plan := SimulatePlanOf(args, productId).value;
      var values := LocalValues(plan.mapping[0].terms);
      var count := VariationCount(args.variations);
      plan.mapping == SimulateMapping(args) && plan.mapping[0].terms == SimulateTerms(args) &&
      |plan.variations| == (if count < |values| then count else |values|) &&
      (forall i :: 0 <= i < |plan.variations| ==>
         plan.variations[i].metaKey == "attribute_" + SanitizeTitle(plan.mapping[0].localAttr.GetOr("")) &&
         plan.variations[i].metaValue == values[i] && plan.variations[i].menuOrder == i) &&
      plan.options.createBackup == !plan.dryRun && plan.options.autoCreateTerms && plan.options.updateVariations
  {
    SimulateMappingShape(args, 0);
  }

  /** A list of valid pairs `a:b` folds to one entry per pair, in order. */
  lemma PairsFoldJoined<T>(inputs: seq<string>, pairs: seq<(string, string)>, f: ((string, string)) -> T)
    requires |inputs| == |pairs|
    requires forall i :: 0 <= i < |pairs| ==> pairs[i].0 != "" && pairs[i].1 != "" && ':' !in pairs[i].0
    requires forall i :: 0 <= i < |pairs| ==> inputs[i] == pairs[i].0 + [':'] + pairs[i].1
    ensures var r := PairsFold(inputs, f);
      |r| == |pairs| && forall i :: 0 <= i < |pairs| ==> r[i] == f(pairs[i])
  {
    forall i | 0 <= i < |pairs| ensures ParsePair(inputs[i]) == Some(pairs[i]) {
      ParsePairJoin(pairs[i].0, pairs[i].1);
    }
    PairsFoldAll(inputs, f);
  }

  /** The default `--val` list gives the terms `Azul` and `Vermelho`. */
  lemma DefaultTerms()
    ensures TermConfigs(DefaultVals, true) == [TermConfigOf(("Azul", "azul"), true), TermConfigOf(("Vermelho", "vermelho"), true)]
  {
    var pairs := [("Azul", "azul"), ("Vermelho", "vermelho")];
    assert DefaultVals[0] == pairs[0].0 + [':'] + pairs[0].1;
    assert DefaultVals[1] == pairs[1].0 + [':'] + pairs[1].1;
    PairsFoldJoined(DefaultVals, pairs, TermConfigMaker(true));
  }

  /** The default `--attr` list maps `Cor` to `pa_cor`. */
  lemma DefaultMapping(terms: seq<TermConfig>)
    ensures Mappings(DefaultAttrs, terms, true, true) == [MappingOf(("Cor", "pa_cor"), terms, true, true)]
  {
    var pairs := [("Cor", "pa_cor")];
    assert DefaultAttrs[0] == pairs[0].0 + [':'] + pairs[0].1;
    PairsFoldJoined(DefaultAttrs, pairs, MappingMaker(terms, true, true));
  }

  /** With no arguments, `simulate` maps `Cor` to `pa_cor` with the values `Azul` and `Vermelho`, one variation each. */
  lemma SimulateDefaults(productId: int)
    requires productId != 0
    ensures var r := SimulatePlanOf(SimulateArgs(None, None, None, None), productId);
      r.Done? && |r.value.mapping| == 1 &&
      r.value.mapping[0].localAttr == Some("Cor") && r.value.mapping[0].targetTax == Some("pa_cor") &&
      LocalValues(r.value.mapping[0].terms) == ["Azul", "Vermelho"] && |r.value.variations| == 2
  {
    DefaultSimulateMapping();
    DefaultLocalValues();
  }

  lemma DefaultSimulateMapping()
    ensures var args := SimulateArgs(None, None, None, None);
      SimulateMapping(args) == [MappingOf(("Cor", "pa_cor"), SimulateTerms(args), true, true)]
  {
    DefaultMapping(SimulateTerms(SimulateArgs(None, None, None, None)));
  }

  lemma DefaultLocalValues()
    ensures LocalValues(SimulateTerms(SimulateArgs(None, None, None, None))) == ["Azul", "Vermelho"]
  {
    DefaultTerms();
    LocalValuesPair(TermConfigOf(("Azul", "azul"), true), TermConfigOf(("Vermelho", "vermelho"), true));
  }

  lemma LocalValuesPair(t1: TermConfig, t2: TermConfig)
    ensures LocalValues([t1, t2]) == [t1.localValue, t2.localValue]
  {
    var values := LocalValues([t1, t2]);
    assert values[0] == t1.localValue && values[1] == t2.localValue;
  }

  /** One more mapping adds one pair at the end. */
  lemma AttrPairsStep(mapping: seq<MappingRequest>, index: nat)
    requires index < |mapping|
    ensures AttrPairs(mapping[..index + 1]) == AttrPairs(mapping[..index]) + [AttrPairs(mapping)[index]]
  {
    var a := AttrPairs(mapping[..index + 1]);
    var b := AttrPairs(mapping[..index]) + [AttrPairs(mapping)[index]];
    assert |a| == |b|;
    forall i | 0 <= i < |a| ensures a[i] == b[i] {
      assert mapping[..index + 1][i] == mapping[i];
      if i < index {
        assert mapping[..index][i] == mapping[i];
      }
    }
  }

  /** `$attr_meta` built in a loop over the mappings and their indexes. */
  method BuildAttrMeta(mapping: seq<MappingRequest>) returns (r: seq<(string, SimAttribute)>)
    ensures r == AttrMeta(mapping)
  {
    r := [];
    for index := 0 to |mapping|
      invariant r == Merge([], AttrPairs(mapping[..index]))
    {
      var m := mapping[index];
      AttrPairsStep(mapping, index);
      MergeAppend([], AttrPairs(mapping[..index]), AttrPairs(mapping)[index]);
      r := Put(r, SanitizeTitle(m.localAttr.GetOr("")), SimAttributeOf(m, index));
    }
    assert mapping[..|mapping|] == mapping;
  }

  /** `simulate` up to the call into `Mapping_Service`. */
  method Simulate(args: SimulateArgs, productId: int) returns (r: Outcome<SimulatePlan>)
    ensures r == SimulatePlanOf(args, productId)
  {
    var attrs := args.attr.GetOr(DefaultAttrs);
    var vals := args.val.GetOr(DefaultVals);
    var count := VariationCount(args.variations);
    var terms := CollectPairs(vals, TermConfigMaker(true));
    var mapping := CollectPairs(attrs, MappingMaker(terms, true, true));
    if mapping == [] {
      return CliError(NoValidAttributeMessage);
    }
    if productId == 0 {
      return CliError(ProductCreationMessage);
    }
    var attrMeta := BuildAttrMeta(mapping);
    var variations := PlanVariations(mapping[0].localAttr.GetOr(""), LocalValues(mapping[0].terms), count);
    var options := MapOptions(!IsSet(args.dryRun), true, true);
    return Done(SimulatePlan(productId, attrMeta, variations, mapping, options, IsSet(args.dryRun)));
  }
}
