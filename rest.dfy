/**
 * `Rest_Controller`: the validations `POST /map` and `POST /variations/update`
 * make before calling `Mapping_Service`, how `map` picks `apply` or
 * `dry_run`, and how an exception becomes a `WP_Error` with a code, an
 * HTTP status and the request's correlation id.
 */
module Rest {
  import opened PhpCore
  import opened PhpString
  import opened PhpArray
  import opened Sanitize
  import opened Host
  import opened ValueNormalizer
  import opened TermResolver
  import opened Mapping
  import L = Logger

  /** A value in a `WP_Error`'s data array. */
  datatype Field = IntField(n: int) | StrField(s: string) | NullField

  /** A `WP_Error` with one code, its message and its data array. */
  datatype RestError = RestError(code: string, message: string, data: seq<(string, Field)>)

  const InvalidProductCode := "l2g_invalid_product"
  const ValidationCode := "l2g_validation"
  const ApplyFailedCode := "l2g_apply_failed"

  const MappingMissingMessage := "Mapeamento não informado."
  const InvalidOptionsMessage := "Formato de opções inválido."
  const InvalidTaxonomiesMessage := "Formato de taxonomies inválido."
  const ApplyFailedPrefix := "Falha ao processar o mapeamento: "

  /** `rest_error($code, $message, $status, $corr_id, $details)`. */
  function RestErrorOf(code: string, message: string, status: int, corrId: string, details: seq<(string, Field)>): RestError
  {
    RestError(code, message, Merge(details, [("status", IntField(status)), ("corr_id", StrField(corrId))]))
  }

  /**
   * The data of `rest_error` carries `status` and `corr_id` whatever the
   * details say, and every other detail key unchanged.
   */
  lemma RestErrorData(code: string, message: string, status: int, corrId: string, details: seq<(string, Field)>, k: string)
    ensures var e := RestErrorOf(code, message, status, corrId, details);
      e.code == code && e.message == message &&
      Get(e.data, "status") == Some(IntField(status)) &&
      Get(e.data, "corr_id") == Some(StrField(corrId)) &&
      (k != "status" && k != "corr_id" ==> Get(e.data, k) == Get(details, k))
  {
    var tail: seq<(string, Field)> := [("status", IntField(status)), ("corr_id", StrField(corrId))];
    assert tail == [("status", IntField(status))] + [("corr_id", StrField(corrId))];
    MergeAppend(details, [("status", IntField(status))], ("corr_id", StrField(corrId)));
    MergeAppend(details, [], ("status", IntField(status)));
    assert [] + [("status", IntField(status))] == [("status", IntField(status))];
  }

  // ---------------------------------------------------------------------
  // POST /map

  /** One element of the `mapping` parameter: what `Mapping_Service` reads from it, and which keys are set (`isset`). */
  datatype MappingItem = MappingItem(request: MappingRequest, setKeys: set<string>)

  /** The `mapping` parameter: not an array, or an array of items. */
  datatype MappingParam = MappingNotArray | MappingArray(items: seq<MappingItem>)

  /** The `options` parameter: absent, an array or an object (with their keys), or anything else. */
  datatype OptionsParam = OptionsNull | OptionsArray(keys: seq<string>) | OptionsObject(keys: seq<string>) | OptionsScalar

  /** The parameters of `POST /map`; `mode` is `None` when not sent. */
  datatype MapRequest = MapRequest(productId: int, mapping: MappingParam, options: OptionsParam, mode: Option<string>)

  /** `strtolower((string) $request->get_param('mode'))`. */
  function Mode(req: MapRequest): string
  {
    Lower(req.mode.GetOr(""))
  }

  /** `map` runs `apply` exactly for the mode `apply`, in any letter case. */
  predicate RunsApply(req: MapRequest)
  {
    Mode(req) == "apply"
  }

  /** The mode `map.request_received` logs: `$mode ?: 'apply'`. */
  function LoggedMode(req: MapRequest): (r: string)
    ensures r != ""
  {
    if EmptyString(Mode(req)) then "apply" else Mode(req)
  }

  /**
   * With no mode (or `"0"`), the request is logged as `apply` but runs
   * `dry_run`; otherwise the logged mode is the one used.
   */
  lemma LoggedModeMismatch(req: MapRequest)
    ensures EmptyString(Mode(req)) ==> LoggedMode(req) == "apply" && !RunsApply(req)
    ensures !EmptyString(Mode(req)) ==> (LoggedMode(req) == "apply" <==> RunsApply(req))
  {
  }

  /** The three checks of `map`, in order; `None` when the request passes them. */
  function MapValidation(req: MapRequest, corrId: string): Option<RestError>
  {
    if req.productId <= 0 then Some(RestErrorOf(InvalidProductCode, InvalidProductMessage, 400, corrId, []))
    else if req.mapping.MappingNotArray? || req.mapping.items == [] then
      Some(RestErrorOf(ValidationCode, MappingMissingMessage, 400, corrId, []))
    else if req.options.OptionsScalar? then Some(RestErrorOf(ValidationCode, InvalidOptionsMessage, 400, corrId, []))
    else None
  }

  /**
   * `map` rejects, in this order, a product id that is not positive, a
   * mapping that is not a non-empty array, and options that are present
   * but neither an array nor an object; all three answer 400.
   */
  lemma MapValidationOrder(req: MapRequest, corrId: string)
    ensures var r := MapValidation(req, corrId);
      (r.Some? ==> Get(r.value.data, "status") == Some(IntField(400)) && Get(r.value.data, "corr_id") == Some(StrField(corrId))) &&
      (req.productId <= 0 <==> r.Some? && r.value.code == InvalidProductCode) &&
      (req.productId > 0 && (req.mapping.MappingNotArray? || req.mapping.items == []) <==>
         r.Some? && r.value.message == MappingMissingMessage) &&
      (req.productId > 0 && req.mapping.MappingArray? && req.mapping.items != [] && req.options.OptionsScalar? <==>
         r.Some? && r.value.message == InvalidOptionsMessage) &&
      (r.None? <==> req.productId > 0 && req.mapping.MappingArray? && req.mapping.items != [] && !req.options.OptionsScalar?)
  {
    RestErrorData(InvalidProductCode, InvalidProductMessage, 400, corrId, [], "");
    RestErrorData(ValidationCode, MappingMissingMessage, 400, corrId, [], "");
    RestErrorData(ValidationCode, InvalidOptionsMessage, 400, corrId, [], "");
  }

  /** `(array) $mapping` as `Mapping_Service` reads it. */
  function Requests(items: seq<MappingItem>): (r: seq<MappingRequest>)
    ensures |r| == |items|
    ensures forall i :: 0 <= i < |items| ==> r[i] == items[i].request
  {
    seq(|items|, i requires 0 <= i < |items| => items[i].request)
  }

  /** The options `map` passes since the legacy ones are ignored: `[]`, so every flag is off. */
  const IgnoredOptions := MapOptions(false, false, false)

  /** The error `map` answers for an exception from the service. */
  function ThrowableError(e: Throwable, corrId: string): RestError
  {
    match e
    case RuntimeError(m) => RestErrorOf(ValidationCode, m, 400, corrId, [("details", StrField(m))])
    case FatalError(m) => RestErrorOf(ApplyFailedCode, ApplyFailedPrefix + m, 500, corrId, [("details", StrField(m))])
  }

  /**
   * A `RuntimeException` becomes `l2g_validation` with status 400 and its
   * message; any other `Throwable` becomes `l2g_apply_failed` with status
   * 500 and the message after a fixed prefix; both carry the bare message
   * as `details` and the request's `corr_id`.
   */
  lemma ThrowableErrorClassified(e: Throwable, corrId: string)
    ensures var r := ThrowableError(e, corrId);
      Get(r.data, "details") == Some(StrField(e.message)) &&
      Get(r.data, "corr_id") == Some(StrField(corrId)) &&
      (e.RuntimeError? ==> r.code == ValidationCode && r.message == e.message && Get(r.data, "status") == Some(IntField(400))) &&
      (e.FatalError? ==> r.code == ApplyFailedCode && r.message == ApplyFailedPrefix + e.message && Get(r.data, "status") == Some(IntField(500)))
  {
    var details := [("details", StrField(e.message))];
    RestErrorData(ThrowableError(e, corrId).code, ThrowableError(e, corrId).message,
                  if e.RuntimeError? then 400 else 500, corrId, details, "details");
  }

  /** The response of `map`: applied or dry-run results with the request's `corr_id`, or an error. */
  datatype MapResponse = Applied(corrId: string, result: ApplyResults) | DryRan(corrId: string, report: DryRunReport) | Failed(error: RestError)

  /**
   * `map($request)` with `corrId` standing for `uniqid('l2g_', true)` and
   * `backupId`, `now` for what `apply` would draw: the response, the term
   * resolver's cache and the store afterwards.  `apply` and `dry_run`
   * return arrays, so the `is_wp_error($result)` branch is never taken and
   * has no counterpart here.
   */
  function MapEndpointResult(req: MapRequest, corrId: string, cache: TermCache, h: HostState, backupId: string, now: int, intl: Intl)
    : (MapResponse, TermCache, HostState)
  {
    var invalid := MapValidation(req, corrId);
    if invalid.Some? then (Failed(invalid.value), cache, h)
    else
      var requests := Requests(req.mapping.items);
      if RunsApply(req) then
        var (r, cache1, h1) := ApplyResult(cache, h, req.productId, requests, IgnoredOptions, backupId, now, intl);
        (if r.Ok? then Applied(corrId, r.value) else Failed(ThrowableError(r.error, corrId)), cache1, h1)
      else
        var r := DryRunResult(h, req.productId, requests, IgnoredOptions);
        (if r.Ok? then DryRan(corrId, r.value) else Failed(ThrowableError(r.error, corrId)), cache, h)
  }

  /** A request each check rejects reaches no service: the store and the cache are untouched. */
  lemma MapRejectedChangesNothing(req: MapRequest, corrId: string, cache: TermCache, h: HostState, backupId: string, now: int, intl: Intl)
    requires MapValidation(req, corrId).Some?
    ensures MapEndpointResult(req, corrId, cache, h, backupId, now, intl) == (Failed(MapValidation(req, corrId).value), cache, h)
  {
  }

  /**
   * A request that passes the validations runs `apply`, with every option off,
   * exactly when its mode is `apply`; any other mode runs `dry_run`, which
   * changes nothing.  An unknown product answers `l2g_validation`/400
   * with the service's message in both modes.
   */
  lemma MapDispatch(req: MapRequest, corrId: string, cache: TermCache, h: HostState, backupId: string, now: int, intl: Intl)
    requires MapValidation(req, corrId).None?
    ensures var (resp, cache1, h1) := MapEndpointResult(req, corrId, cache, h, backupId, now, intl);
      var requests := Requests(req.mapping.items);
      (RunsApply(req) ==>
         var (r, c, h2) := ApplyResult(cache, h, req.productId, requests, IgnoredOptions, backupId, now, intl);
         cache1 == c && h1 == h2 && (resp.Applied? <==> r.Ok?) && (r.Ok? ==> resp == Applied(corrId, r.value))) &&
      (!RunsApply(req) ==>
         cache1 == cache && h1 == h && !resp.Applied? &&
         (resp.DryRan? <==> req.productId in h.products)) &&
      (req.productId !in h.products ==>
        resp == Failed(RestErrorOf(ValidationCode, InvalidProductMessage, 400, corrId, [("details", StrField(InvalidProductMessage))])))
  {
  }

  /** The option keys `map` treats as legacy, in the order it reports them. */
  const DeprecatedKeys: seq<string> := ["auto_create_terms", "update_variations", "create_backup",
                                        "hydrate_variations", "aggressive_hydrate_variations", "save_template"]

  /** `array_keys($options ? (array) $options : [])`. */
  function OptionKeys(options: OptionsParam): seq<string>
  {
    match options
    case OptionsArray(keys) => keys
    case OptionsObject(keys) => keys
    case _ => []
  }

  function KeepIfIn(keys: seq<string>): string -> Option<string>
  {
    (k: string) => if k in keys then Some(k) else None
  }

  /** `array_values(array_intersect($deprecated_keys, array_keys($options)))`. */
  function SentDeprecated(keys: seq<string>): seq<string>
  {
    Collect(DeprecatedKeys, KeepIfIn(keys))
  }

  function IfPresent(k: string, keys: seq<string>): seq<string>
  {
    if k in keys then [k] else []
  }

  /** Filtering a non-empty list looks at its first key, then the rest. */
  lemma SentStep(s: seq<string>, keys: seq<string>)
    requires s != []
    ensures Collect(s, KeepIfIn(keys)) == IfPresent(s[0], keys) + Collect(s[1..], KeepIfIn(keys))
  {
  }

  /** The reported legacy options are those of the six fixed keys that were sent, in the fixed order. */
  lemma SentDeprecatedInListOrder(keys: seq<string>)
    ensures SentDeprecated(keys) ==
      IfPresent("auto_create_terms", keys) + (IfPresent("update_variations", keys) + (IfPresent("create_backup", keys) +
      (IfPresent("hydrate_variations", keys) + (IfPresent("aggressive_hydrate_variations", keys) + IfPresent("save_template", keys)))))
  {
    var d0 := DeprecatedKeys;
    var d1 := ["update_variations", "create_backup", "hydrate_variations", "aggressive_hydrate_variations", "save_template"];
    var d2 := ["create_backup", "hydrate_variations", "aggressive_hydrate_variations", "save_template"];
    var d3 := ["hydrate_variations", "aggressive_hydrate_variations", "save_template"];
    var d4 := ["aggressive_hydrate_variations", "save_template"];
    var d5 := ["save_template"];
    assert d0[1..] == d1 && d1[1..] == d2 && d2[1..] == d3 && d3[1..] == d4 && d4[1..] == d5 && d5[1..] == [];
    SentStep(d0, keys);
    SentStep(d1, keys);
    SentStep(d2, keys);
    SentStep(d3, keys);
    SentStep(d4, keys);
    SentStep(d5, keys);
    assert Collect(d5, KeepIfIn(keys)) == IfPresent("save_template", keys);
  }

  /** What `map.deprecated_fields` reports for one mapping item that sets `save_template` or `term_name`. */
  function ItemFlags(): MappingItem -> Option<(bool, bool)>
  {
    (m: MappingItem) =>
      if "save_template" in m.setKeys || "term_name" in m.setKeys
      then Some(("save_template" in m.setKeys, "term_name" in m.setKeys))
      else None
  }

  /** The `$mapping_deprecated` loop. */
  function MappingFlags(items: seq<MappingItem>): seq<(bool, bool)>
  {
    Collect(items, ItemFlags())
  }

  /**
   * The payload of the `map.deprecated_fields` warning, `None` when there
   * is nothing to warn about.
   */
  function DeprecatedWarning(req: MapRequest): Option<(seq<string>, seq<(bool, bool)>)>
  {
    var sent := SentDeprecated(OptionKeys(req.options));
    var flags := if req.mapping.MappingArray? then MappingFlags(req.mapping.items) else [];
    if sent == [] && flags == [] then None else Some((sent, flags))
  }

  /** Each reported item flag pair has at least one flag set; there is one per item that sets either key. */
  lemma {:induction false} MappingFlagsShape(items: seq<MappingItem>)
    ensures var r := MappingFlags(items);
      |r| <= |items| && (forall k :: 0 <= k < |r| ==> r[k].0 || r[k].1) &&
      (r == [] <==> forall i :: 0 <= i < |items| ==> "save_template" !in items[i].setKeys && "term_name" !in items[i].setKeys)
    decreases |items|
  {
    if items != [] {
      MappingFlagsShape(items[1..]);
      assert forall i :: 1 <= i < |items| ==> items[i] == items[1..][i - 1];
    }
  }

  /**
   * `map($request)`: inside the logger scope `{corr_id, endpoint: map}`,
   * the validations, then `apply` or `dry_run`.  The logger's stack is given
   * back as it was.
   */
  method MapEndpoint(logger: L.Logger, service: TermService, store: Store, req: MapRequest, corrId: string,
                     backupId: string, now: int, intl: Intl)
    returns (resp: MapResponse)
    modifies logger, service, store
    ensures (resp, service.cache, store.st) == MapEndpointResult(req, corrId, old(service.cache), old(store.st), backupId, now, intl)
    ensures logger.contextStack == old(logger.contextStack)
  {
    logger.PushContext([("corr_id", L.Text(corrId)), ("endpoint", L.Text("map"))]);
    var invalid := MapValidation(req, corrId);
    if invalid.Some? {
      resp := Failed(invalid.value);
    } else {
      var requests := Requests(req.mapping.items);
      if Mode(req) == "apply" {
        var r := Apply(service, store, req.productId, requests, IgnoredOptions, backupId, now, intl);
        resp := if r.Ok? then Applied(corrId, r.value) else Failed(ThrowableError(r.error, corrId));
      } else {
        var r := DryRun(store, req.productId, requests, IgnoredOptions);
        resp := if r.Ok? then DryRan(corrId, r.value) else Failed(ThrowableError(r.error, corrId));
      }
    }
    logger.PopContext();
    L.PopUndoesPush(old(logger.contextStack), [("corr_id", L.Text(corrId)), ("endpoint", L.Text("map"))]);
  }

  // ---------------------------------------------------------------------
  // POST /variations/update

  /** The `taxonomies` parameter: absent, a list, or anything else. */
  datatype TaxonomiesParam = TaxonomiesNull | TaxonomyList(list: seq<string>) | TaxonomiesOther

  /** The response of `variations_update`: an error it answers, or the exception it lets through. */
  datatype VariationsResponse = VariationsFailed(error: RestError) | VariationsUncaught(thrown: Throwable)

  /**
   * `variations_update($request)` with `corrId` standing for
   * `uniqid('l2g_var_', true)`.  Past the validations it calls
   * `update_variations_only`, which `Mapping_Service` does not define, so
   * the call raises an `Error` the controller does not catch: PHP looks
   * the method up before it evaluates the arguments, so the `taxonomies`
   * filter is never computed, and the `is_wp_error` branch after the call
   * is never reached.
   */
  function VariationsUpdateResult(productId: int, taxonomies: TaxonomiesParam, corrId: string): VariationsResponse
  {
    if productId <= 0 then VariationsFailed(RestErrorOf(InvalidProductCode, InvalidProductMessage, 400, corrId, []))
    else if taxonomies.TaxonomiesOther? then VariationsFailed(RestErrorOf(ValidationCode, InvalidTaxonomiesMessage, 400, corrId, []))
    else VariationsUncaught(FatalError(UndefinedUpdateVariationsOnly))
  }

  /**
   * `variations_update` rejects, in order, a product id that is not
   * positive and a `taxonomies` that is neither absent nor an array; every
   * other request ends in the undefined-method error.
   */
  lemma VariationsUpdateOutcome(productId: int, taxonomies: TaxonomiesParam, corrId: string)
    ensures var r := VariationsUpdateResult(productId, taxonomies, corrId);
      (productId <= 0 <==> r.VariationsFailed? && r.error.code == InvalidProductCode) &&
      (productId > 0 && taxonomies.TaxonomiesOther? <==> r.VariationsFailed? && r.error.code == ValidationCode) &&
      (r.VariationsFailed? ==> Get(r.error.data, "status") == Some(IntField(400)) && Get(r.error.data, "corr_id") == Some(StrField(corrId))) &&
      (r.VariationsUncaught? <==> productId > 0 && !taxonomies.TaxonomiesOther?)
  {
    RestErrorData(InvalidProductCode, InvalidProductMessage, 400, corrId, [], "");
    RestErrorData(ValidationCode, InvalidTaxonomiesMessage, 400, corrId, [], "");
  }
}
