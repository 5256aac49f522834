/**
 * `Term_Service`: turns a target taxonomy key into a registered global
 * attribute, and resolves each requested term of a mapping through the
 * per-instance cache, the `term_id` lookup, the slug lookup and, when
 * allowed, insertion.
 */
module TermResolver {
  import opened PhpCore
  import opened PhpString
  import opened Sanitize
  import opened Host

  /** One requested term: `local_value`, `term_id` (0 when absent), `term_slug`, `term_name`, `create`. */
  datatype TermConfig = TermConfig(
    localValue: string,
    termId: int,
    termSlug: Option<string>,
    termName: Option<string>,
    create: bool)

  /** What the cache and the lookups yield: a term id and its slug. */
  datatype FoundTerm = FoundTerm(termId: int, slug: string)

  /** One entry of `ensure_terms`' result. */
  datatype ResolvedTerm = ResolvedTerm(localValue: string, termId: int, slug: string, created: bool)

  /** `$term_cache[$taxonomy][$slug]`, keyed by the pair. */
  type TermCache = map<(string, string), FoundTerm>

  /** `ensure_global_attribute`'s result. */
  datatype AttributeInfo = AttributeInfo(attributeId: int, taxonomy: string)

  /** `attribute_args`: `order_by` and `enable_archive`. */
  datatype AttributeArgs = AttributeArgs(orderBy: Option<string>, enableArchive: bool)

  /** The taxonomy `ensure_global_attribute` works on: the `sanitize_key`'d input, `pa_`-prefixed unless it already is. */
  function GlobalTaxonomyName(target: string): (r: string)
    ensures StartsWith(r, "pa_")
    ensures forall i :: 0 <= i < |r| ==> IsKeyChar(r[i])
  {
    var key := SanitizeKey(target);
    if StartsWith(key, "pa_") then key else "pa_" + key
  }

  /** Feeding the resulting taxonomy back in gives it unchanged. */
  lemma GlobalTaxonomyNameIdempotent(target: string)
    ensures GlobalTaxonomyName(GlobalTaxonomyName(target)) == GlobalTaxonomyName(target)
  {
    SanitizeKeyOfKeyChars(GlobalTaxonomyName(target));
  }

  /** The slug a term is requested under: `sanitize_title(term_slug ?? term_name ?? local_value)`. */
  function RequestedSlug(c: TermConfig): string
  {
    SanitizeTitle(c.termSlug.GetOr(c.termName.GetOr(c.localValue)))
  }

  /** `??` falls through only on null: an empty `term_slug` requests the empty slug. */
  lemma EmptyTermSlugIsKept(c: TermConfig)
    requires c.termSlug == Some("")
    ensures RequestedSlug(c) == ""
  {
    assert TrimDashes(ReplaceDisallowedRuns(Lower(""))) == "";
  }

  /** The lookups before creation, in order: cache, then `get_term` by id, then `get_term_by` slug. */
  function Lookup(cache: TermCache, h: HostState, taxonomy: string, c: TermConfig): Option<FoundTerm>
  {
    var slug := RequestedSlug(c);
    if (taxonomy, slug) in cache then Some(cache[(taxonomy, slug)])
    else
      var byId := if c.termId != 0 then GetTerm(h, c.termId, taxonomy) else None;
      if byId.Some? then Some(FoundTerm(byId.value.id, byId.value.slug))
      else
        var bySlug := GetTermBySlug(h, slug, taxonomy);
        if bySlug.Some? then Some(FoundTerm(bySlug.value.id, bySlug.value.slug)) else None
  }

  /** The message for a term that does not exist and may not be created. */
  function MissingTermMessage(localValue: string, taxonomy: string): string
  {
    "Termo \"" + localValue + "\" não existe na taxonomia " + taxonomy + "."
  }

  /** The outcome of one iteration of `ensure_terms`' loop, with the cache and store after it. */
  datatype Step = Step(outcome: Result<ResolvedTerm>, cache: TermCache, host: HostState)

  /** One iteration of `ensure_terms`' loop. */
  function ResolveOne(cache: TermCache, h: HostState, taxonomy: string, c: TermConfig, allowCreation: bool): (s: Step)
    ensures s.outcome.Ok? ==> s.outcome.value.localValue == c.localValue
    ensures (s.outcome.Ok? && s.outcome.value.created) <==>
      (Lookup(cache, h, taxonomy, c).None? && (c.create || allowCreation) && (taxonomy, RequestedSlug(c)) !in h.rejectedTerms)
    ensures Lookup(cache, h, taxonomy, c).None? && !(c.create || allowCreation) ==>
      s == Step(Throw(RuntimeError(MissingTermMessage(c.localValue, taxonomy))), cache, h)
    ensures Lookup(cache, h, taxonomy, c).Some? ==>
      s.outcome == Ok(ResolvedTerm(c.localValue, Lookup(cache, h, taxonomy, c).value.termId, Lookup(cache, h, taxonomy, c).value.slug, false)) &&
      s.host == h
    ensures s.outcome.Throw? ==> s.cache == cache && s.host == h
    ensures s.outcome.Ok? ==> s.cache == cache[(taxonomy, s.outcome.value.slug) := FoundTerm(s.outcome.value.termId, s.outcome.value.slug)]
    ensures s.host == h || (s.outcome.Ok? && s.outcome.value.created)
    ensures s.host == h.(terms := s.host.terms, nextId := s.host.nextId)
    ensures s.outcome.Ok? && s.outcome.value.created ==>
      s.outcome.value.slug == RequestedSlug(c) &&
      s.host.terms == h.terms + [Term(h.nextId, taxonomy, RequestedSlug(c), c.termName.GetOr(c.localValue))]
  {
    var found := Lookup(cache, h, taxonomy, c);
    if found.Some? then
      var e := found.value;
      Step(Ok(ResolvedTerm(c.localValue, e.termId, e.slug, false)), cache[(taxonomy, e.slug) := e], h)
    else if !(c.create || allowCreation) then
      Step(Throw(RuntimeError(MissingTermMessage(c.localValue, taxonomy))), cache, h)
    else
      var slug := RequestedSlug(c);
      var inserted := InsertTerm(h, c.termName.GetOr(c.localValue), taxonomy, slug);
      match inserted.0
      case Throw(err) => Step(Throw(err), cache, h)
      case Ok(id) => Step(Ok(ResolvedTerm(c.localValue, id, slug, true)), cache[(taxonomy, slug) := FoundTerm(id, slug)], inserted.1)
  }

  /** Where `ensure_terms`' loop stands: the exception that stopped it, if any, the results so far, the cache and the store. */
  datatype RunState = RunState(failure: Option<Throwable>, results: seq<ResolvedTerm>, cache: TermCache, host: HostState)

  /** `ensure_terms`' loop over `configs`, stopping at the first exception. */
  function Resolve(cache: TermCache, h: HostState, taxonomy: string, configs: seq<TermConfig>, allowCreation: bool): RunState
    decreases |configs|
  {
    if |configs| == 0 then RunState(None, [], cache, h)
    else
      var prev := Resolve(cache, h, taxonomy, configs[..|configs| - 1], allowCreation);
      if prev.failure.Some? then prev
      else
        var s := ResolveOne(prev.cache, prev.host, taxonomy, configs[|configs| - 1], allowCreation);
        match s.outcome
        case Ok(r) => RunState(None, prev.results + [r], s.cache, s.host)
        case Throw(e) => RunState(Some(e), prev.results, s.cache, s.host)
  }

  /** Once an iteration throws, the loop stops: later configs change nothing. */
  lemma {:induction false} ResolveStopsAtFailure(cache: TermCache, h: HostState, taxonomy: string, configs: seq<TermConfig>, n: nat, allowCreation: bool)
    requires n <= |configs|
    requires Resolve(cache, h, taxonomy, configs[..n], allowCreation).failure.Some?
    ensures Resolve(cache, h, taxonomy, configs, allowCreation) == Resolve(cache, h, taxonomy, configs[..n], allowCreation)
    decreases |configs|
  {
    if n < |configs| {
      var front := configs[..|configs| - 1];
      assert front[..n] == configs[..n];
      ResolveStopsAtFailure(cache, h, taxonomy, front, n, allowCreation);
    } else {
      assert configs[..n] == configs;
    }
  }

  /** A completed run has one result per config, in order, each carrying its config's `local_value`. */
  lemma {:induction false} ResolveOnePerConfig(cache: TermCache, h: HostState, taxonomy: string, configs: seq<TermConfig>, allowCreation: bool)
    ensures var run := Resolve(cache, h, taxonomy, configs, allowCreation);
      run.failure.None? ==>
        |run.results| == |configs| &&
        forall i :: 0 <= i < |configs| ==> run.results[i].localValue == configs[i].localValue
    ensures var run := Resolve(cache, h, taxonomy, configs, allowCreation);
      run.failure.Some? ==> |run.results| < |configs|
    decreases |configs|
  {
    if |configs| > 0 {
      var front := configs[..|configs| - 1];
      ResolveOnePerConfig(cache, h, taxonomy, front, allowCreation);
      var prev := Resolve(cache, h, taxonomy, front, allowCreation);
      if prev.failure.None? {
        var s := ResolveOne(prev.cache, prev.host, taxonomy, configs[|configs| - 1], allowCreation);
        if s.outcome.Ok? {
          var results := prev.results + [s.outcome.value];
          assert Resolve(cache, h, taxonomy, configs, allowCreation).results == results;
          forall i | 0 <= i < |configs|
            ensures results[i].localValue == configs[i].localValue
          {
            if i < |front| {
              assert configs[i] == front[i];
            }
          }
        }
      }
    }
  }

  /** A result is marked created only when its config's `create` flag or `allow_creation` permitted it. */
  lemma {:induction false} ResolveCreatesOnlyWhenAllowed(cache: TermCache, h: HostState, taxonomy: string, configs: seq<TermConfig>, allowCreation: bool)
    ensures var run := Resolve(cache, h, taxonomy, configs, allowCreation);
      forall i :: 0 <= i < |run.results| && run.results[i].created ==> i < |configs| && (configs[i].create || allowCreation)
    decreases |configs|
  {
    if |configs| > 0 {
      var front := configs[..|configs| - 1];
      ResolveCreatesOnlyWhenAllowed(cache, h, taxonomy, front, allowCreation);
      ResolveOnePerConfig(cache, h, taxonomy, front, allowCreation);
      var prev := Resolve(cache, h, taxonomy, front, allowCreation);
      if prev.failure.None? {
        var s := ResolveOne(prev.cache, prev.host, taxonomy, configs[|configs| - 1], allowCreation);
        var run := Resolve(cache, h, taxonomy, configs, allowCreation);
        if s.outcome.Ok? {
          var last := configs[|configs| - 1];
          assert s.outcome.value.created ==> last.create || allowCreation;
          assert run.results == prev.results + [s.outcome.value];
          forall i | 0 <= i < |run.results| && run.results[i].created
            ensures i < |configs| && (configs[i].create || allowCreation)
          {
            if i < |front| {
              assert configs[i] == front[i];
              assert run.results[i] == prev.results[i];
            } else {
              assert i == |front|;
              assert run.results[i] == s.outcome.value;
            }
          }
        } else {
          assert run.results == prev.results;
        }
      }
    }
  }

  /** The store grows only by inserted terms: one appended term per created result. */
  lemma {:induction false} ResolveInsertsOnlyCreated(cache: TermCache, h: HostState, taxonomy: string, configs: seq<TermConfig>, allowCreation: bool)
    ensures var run := Resolve(cache, h, taxonomy, configs, allowCreation);
      run.host == h.(terms := run.host.terms, nextId := run.host.nextId) &&
      |run.host.terms| == |h.terms| + CreatedCount(run.results) &&
      run.host.terms[..|h.terms|] == h.terms
    decreases |configs|
  {
    if |configs| > 0 {
      var front := configs[..|configs| - 1];
      var c := configs[|configs| - 1];
      ResolveInsertsOnlyCreated(cache, h, taxonomy, front, allowCreation);
      var prev := Resolve(cache, h, taxonomy, front, allowCreation);
      var run := Resolve(cache, h, taxonomy, configs, allowCreation);
      if prev.failure.None? {
        var s := ResolveOne(prev.cache, prev.host, taxonomy, c, allowCreation);
        assert run.host == s.host;
        if s.outcome.Ok? {
          assert run.results == prev.results + [s.outcome.value];
          CreatedCountAppend(prev.results, s.outcome.value);
          if s.outcome.value.created {
            var t := Term(prev.host.nextId, taxonomy, RequestedSlug(c), c.termName.GetOr(c.localValue));
            assert s.host.terms == prev.host.terms + [t];
            assert (prev.host.terms + [t])[..|h.terms|] == prev.host.terms[..|h.terms|];
          } else {
            assert s.host == prev.host;
          }
        } else {
          assert run.results == prev.results;
          assert s.host == prev.host;
        }
      } else {
        assert run == prev;
      }
    }
  }

  /** How many results were created. */
  function CreatedCount(results: seq<ResolvedTerm>): nat
  {
    if |results| == 0 then 0
    else CreatedCount(results[..|results| - 1]) + (if results[|results| - 1].created then 1 else 0)
  }

  lemma CreatedCountAppend(results: seq<ResolvedTerm>, r: ResolvedTerm)
    ensures CreatedCount(results + [r]) == CreatedCount(results) + (if r.created then 1 else 0)
  {
    assert (results + [r])[..|results|] == results;
  }

  /** Cache entries and terms are never removed, so every lookup that succeeded keeps succeeding. */
  predicate Extends(cache: TermCache, h: HostState, cache': TermCache, h': HostState)
  {
    cache.Keys <= cache'.Keys && |h.terms| <= |h'.terms| && h'.terms[..|h.terms|] == h.terms
  }

  lemma LookupMonotone(cache: TermCache, h: HostState, cache': TermCache, h': HostState, taxonomy: string, c: TermConfig)
    requires Extends(cache, h, cache', h')
    requires Lookup(cache, h, taxonomy, c).Some?
    ensures Lookup(cache', h', taxonomy, c).Some?
  {
    var slug := RequestedSlug(c);
    var more := h'.terms[|h.terms|..];
    assert h'.terms == h.terms + more;
    if (taxonomy, slug) !in cache {
      if c.termId != 0 && GetTerm(h, c.termId, taxonomy).Some? {
        FindTermExtends(h.terms, more, HasId(c.termId, taxonomy));
      } else {
        FindTermExtends(h.terms, more, HasSlug(slug, taxonomy));
      }
    }
  }

  /** After one successful iteration its own config can be looked up again without inserting. */
  lemma ResolveOneMakesResolvable(cache: TermCache, h: HostState, taxonomy: string, c: TermConfig, allowCreation: bool)
    requires ResolveOne(cache, h, taxonomy, c, allowCreation).outcome.Ok?
    ensures var s := ResolveOne(cache, h, taxonomy, c, allowCreation);
      Extends(cache, h, s.cache, s.host) && Lookup(s.cache, s.host, taxonomy, c).Some?
  {
    var s := ResolveOne(cache, h, taxonomy, c, allowCreation);
    var slug := RequestedSlug(c);
    var more := s.host.terms[|h.terms|..];
    assert s.host.terms == h.terms + more;
    if (taxonomy, slug) !in cache && c.termId != 0 && GetTerm(h, c.termId, taxonomy).Some? {
      FindTermExtends(h.terms, more, HasId(c.termId, taxonomy));
    }
  }

  /** After a completed run every config of the run can be looked up without inserting. */
  lemma {:induction false} ResolveMakesAllResolvable(cache: TermCache, h: HostState, taxonomy: string, configs: seq<TermConfig>, allowCreation: bool)
    ensures var run := Resolve(cache, h, taxonomy, configs, allowCreation);
      Extends(cache, h, run.cache, run.host) &&
      (run.failure.None? ==> forall i :: 0 <= i < |configs| ==> Lookup(run.cache, run.host, taxonomy, configs[i]).Some?)
    decreases |configs|
  {
    if |configs| > 0 {
      var front := configs[..|configs| - 1];
      var c := configs[|configs| - 1];
      ResolveMakesAllResolvable(cache, h, taxonomy, front, allowCreation);
      var prev := Resolve(cache, h, taxonomy, front, allowCreation);
      if prev.failure.None? {
        var s := ResolveOne(prev.cache, prev.host, taxonomy, c, allowCreation);
        if s.outcome.Ok? {
          assert Resolve(cache, h, taxonomy, configs, allowCreation) == RunState(None, prev.results + [s.outcome.value], s.cache, s.host);
          ResolveOneMakesResolvable(prev.cache, prev.host, taxonomy, c, allowCreation);
          forall i | 0 <= i < |configs|
            ensures Lookup(s.cache, s.host, taxonomy, configs[i]).Some?
          {
            if i < |configs| - 1 {
              assert configs[i] == front[i];
              LookupMonotone(prev.cache, prev.host, s.cache, s.host, taxonomy, configs[i]);
            }
          }
        }
      }
    }
  }

  /** When every config can be looked up, a run inserts nothing, fails nowhere and creates no result. */
  lemma {:induction false} ResolveResolvableCreatesNothing(cache: TermCache, h: HostState, taxonomy: string, configs: seq<TermConfig>, allowCreation: bool)
    requires forall i :: 0 <= i < |configs| ==> Lookup(cache, h, taxonomy, configs[i]).Some?
    ensures var run := Resolve(cache, h, taxonomy, configs, allowCreation);
      run.failure.None? && run.host == h && cache.Keys <= run.cache.Keys &&
      forall i :: 0 <= i < |run.results| ==> !run.results[i].created
    decreases |configs|
  {
    if |configs| > 0 {
      var front := configs[..|configs| - 1];
      var c := configs[|configs| - 1];
      forall i | 0 <= i < |front| ensures Lookup(cache, h, taxonomy, front[i]).Some? {
        assert front[i] == configs[i];
      }
      ResolveResolvableCreatesNothing(cache, h, taxonomy, front, allowCreation);
      var prev := Resolve(cache, h, taxonomy, front, allowCreation);
      assert Extends(cache, h, prev.cache, prev.host);
      LookupMonotone(cache, h, prev.cache, prev.host, taxonomy, c);
      var s := ResolveOne(prev.cache, prev.host, taxonomy, c, allowCreation);
      assert s.outcome.Ok? && !s.outcome.value.created && s.host == h;
      assert Resolve(cache, h, taxonomy, configs, allowCreation) == RunState(None, prev.results + [s.outcome.value], s.cache, s.host);
    }
  }

  /**
   * The per-instance cache makes a repeated request harmless: running the
   * same configs again on the same service and store, with or without
   * creation allowed, creates no term and leaves the store unchanged.
   */
  lemma RepeatedResolveCreatesNothing(cache: TermCache, h: HostState, taxonomy: string, configs: seq<TermConfig>, allowCreation: bool, allowAgain: bool)
    requires Resolve(cache, h, taxonomy, configs, allowCreation).failure.None?
    ensures var first := Resolve(cache, h, taxonomy, configs, allowCreation);
      var second := Resolve(first.cache, first.host, taxonomy, configs, allowAgain);
      second.failure.None? && second.host == first.host &&
      |second.results| == |configs| &&
      forall i :: 0 <= i < |configs| ==> !second.results[i].created
  {
    var first := Resolve(cache, h, taxonomy, configs, allowCreation);
    ResolveMakesAllResolvable(cache, h, taxonomy, configs, allowCreation);
    ResolveResolvableCreatesNothing(first.cache, first.host, taxonomy, configs, allowAgain);
    ResolveOnePerConfig(first.cache, first.host, taxonomy, configs, allowAgain);
  }

  /** Every created result was created under its own config's slug, and that slug stays in the cache for the rest of the run. */
  lemma {:induction false} ResolveCreatedInCache(cache: TermCache, h: HostState, taxonomy: string, configs: seq<TermConfig>, allowCreation: bool)
    ensures var run := Resolve(cache, h, taxonomy, configs, allowCreation);
      cache.Keys <= run.cache.Keys &&
      forall i :: 0 <= i < |run.results| && run.results[i].created ==>
        i < |configs| && run.results[i].slug == RequestedSlug(configs[i]) && (taxonomy, RequestedSlug(configs[i])) in run.cache
    decreases |configs|
  {
    if |configs| > 0 {
      var front := configs[..|configs| - 1];
      var c := configs[|configs| - 1];
      ResolveCreatedInCache(cache, h, taxonomy, front, allowCreation);
      ResolveOnePerConfig(cache, h, taxonomy, front, allowCreation);
      var prev := Resolve(cache, h, taxonomy, front, allowCreation);
      var run := Resolve(cache, h, taxonomy, configs, allowCreation);
      if prev.failure.None? {
        var s := ResolveOne(prev.cache, prev.host, taxonomy, c, allowCreation);
        assert run.cache == s.cache;
        if s.outcome.Ok? {
          assert run.results == prev.results + [s.outcome.value];
          forall i | 0 <= i < |run.results| && run.results[i].created
            ensures i < |configs| && run.results[i].slug == RequestedSlug(configs[i]) && (taxonomy, RequestedSlug(configs[i])) in run.cache
          {
            var key := (taxonomy, RequestedSlug(configs[i]));
            if i < |front| {
              assert configs[i] == front[i];
              assert run.results[i] == prev.results[i];
              assert key in prev.cache;
            } else {
              assert |prev.results| == |front| && i == |front|;
              assert run.results[|prev.results|] == s.outcome.value;
              assert configs[|front|] == c;
              assert s.outcome.value.slug == RequestedSlug(c);
            }
            assert key in s.cache;
          }
        } else {
          assert run.results == prev.results;
        }
      }
    }
  }

  /** An iteration creates a term only when its slug is not cached yet. */
  lemma CreatedOnlyWhenUncached(cache: TermCache, h: HostState, taxonomy: string, c: TermConfig, allowCreation: bool)
    ensures var s := ResolveOne(cache, h, taxonomy, c, allowCreation);
      s.outcome.Ok? && s.outcome.value.created ==> (taxonomy, RequestedSlug(c)) !in cache
  {
  }

  /**
   * The cache keeps one run from creating a term twice: once a result is
   * created, no later config of the same run that asks for the same slug
   * is created again.
   */
  lemma {:induction false} ResolveCreatesEachSlugOnce(cache: TermCache, h: HostState, taxonomy: string, configs: seq<TermConfig>, allowCreation: bool)
    ensures var run := Resolve(cache, h, taxonomy, configs, allowCreation);
      |run.results| <= |configs| &&
      forall i, j :: 0 <= i < j < |run.results| && run.results[i].created && run.results[j].created ==>
        RequestedSlug(configs[i]) != RequestedSlug(configs[j])
    decreases |configs|
  {
    ResolveOnePerConfig(cache, h, taxonomy, configs, allowCreation);
    if |configs| > 0 {
      var front := configs[..|configs| - 1];
      var c := configs[|configs| - 1];
      ResolveCreatesEachSlugOnce(cache, h, taxonomy, front, allowCreation);
      ResolveCreatedInCache(cache, h, taxonomy, front, allowCreation);
      ResolveOnePerConfig(cache, h, taxonomy, front, allowCreation);
      var prev := Resolve(cache, h, taxonomy, front, allowCreation);
      var run := Resolve(cache, h, taxonomy, configs, allowCreation);
      if prev.failure.None? {
        var s := ResolveOne(prev.cache, prev.host, taxonomy, c, allowCreation);
        CreatedOnlyWhenUncached(prev.cache, prev.host, taxonomy, c, allowCreation);
        if s.outcome.Ok? {
          var results := prev.results + [s.outcome.value];
          assert run.results == results;
          forall i, j | 0 <= i < j < |results| && results[i].created && results[j].created
            ensures RequestedSlug(configs[i]) != RequestedSlug(configs[j])
          {
            assert configs[i] == front[i];
            assert results[i] == prev.results[i];
            if j < |front| {
              assert configs[j] == front[j];
              assert results[j] == prev.results[j];
            } else {
              assert |prev.results| == |front| && j == |front|;
              assert results[|prev.results|] == s.outcome.value;
              assert configs[|front|] == c;
              assert (taxonomy, RequestedSlug(front[i])) in prev.cache;
            }
          }
        } else {
          assert run.results == prev.results;
        }
      }
    }
  }

  /** The message for a taxonomy `ensure_terms` finds unregistered. */
  function UnregisteredTaxonomyMessage(taxonomy: string): string
  {
    "Taxonomia " + taxonomy + " não registrada."
  }

  /** The message for a missing global attribute that may not be created. */
  function MissingAttributeMessage(taxonomy: string): string
  {
    "Atributo global " + taxonomy + " não existe."
  }

  /** `register_taxonomy` when the taxonomy is not registered yet. */
  function Registered(h: HostState, taxonomy: string): HostState
  {
    h.(taxonomies := h.taxonomies + {taxonomy})
  }

  /** `ensure_global_attribute` on the store: the attribute found or created, and the store after it. */
  function GlobalAttributeResult(h: HostState, targetTaxonomy: string, displayName: string, createIfMissing: bool, args: AttributeArgs): (Result<AttributeInfo>, HostState)
  {
    var taxonomy := GlobalTaxonomyName(targetTaxonomy);
    var slug := taxonomy[3..];
    var id := AttributeIdByName(h, slug);
    if id != 0 then (Ok(AttributeInfo(id, taxonomy)), Registered(h, taxonomy))
    else if !createIfMissing then (Throw(RuntimeError(MissingAttributeMessage(taxonomy))), h)
    else
      var created := CreateAttribute(h, SanitizeTextField(displayName), slug, args.orderBy.GetOr("name"), args.enableArchive);
      if created.0.Throw? then (Throw(created.0.error), h)
      else (Ok(AttributeInfo(created.0.value, taxonomy)), Registered(RegisterAttributeTaxonomies(created.1), taxonomy))
  }

  /**
   * What `ensure_global_attribute` promises: the `pa_` taxonomy it returns
   * is registered afterwards and backed by a global attribute; an existing
   * attribute is reused; a missing one with creation switched off fails
   * with "Atributo global … não existe." and changes nothing; a creation
   * `WP_Error` is rethrown with its own message and changes nothing; and
   * only taxonomies, global attributes and the id counter ever change.
   */
  lemma GlobalAttributeEffect(h: HostState, targetTaxonomy: string, displayName: string, createIfMissing: bool, args: AttributeArgs)
    ensures var (r, h') := GlobalAttributeResult(h, targetTaxonomy, displayName, createIfMissing, args);
      var taxonomy := GlobalTaxonomyName(targetTaxonomy);
      var slug := taxonomy[3..];
      h' == h.(taxonomies := h'.taxonomies, attributeTaxonomies := h'.attributeTaxonomies, nextId := h'.nextId) &&
      (r.Ok? ==> r.value.taxonomy == taxonomy && TaxonomyExists(h', taxonomy) &&
                 slug in h'.attributeTaxonomies && h'.attributeTaxonomies[slug].id == r.value.attributeId) &&
      (slug in h.attributeTaxonomies && h.attributeTaxonomies[slug].id != 0 ==>
         r == Ok(AttributeInfo(h.attributeTaxonomies[slug].id, taxonomy)) && h'.attributeTaxonomies == h.attributeTaxonomies) &&
      (AttributeIdByName(h, slug) == 0 && !createIfMissing ==>
         r == Throw(RuntimeError(MissingAttributeMessage(taxonomy))) && h' == h) &&
      (AttributeIdByName(h, slug) == 0 && createIfMissing && slug in h.rejectedAttributes ==>
         r == Throw(RuntimeError(h.rejectedAttributes[slug])) && h' == h)
  {
    GlobalAttributeFrame(h, targetTaxonomy, displayName, createIfMissing, args);
    GlobalAttributeRegistered(h, targetTaxonomy, displayName, createIfMissing, args);
    GlobalAttributeCases(h, targetTaxonomy, displayName, createIfMissing, args);
  }

  /** Only taxonomies, global attributes and the id counter change. */
  lemma GlobalAttributeFrame(h: HostState, targetTaxonomy: string, displayName: string, createIfMissing: bool, args: AttributeArgs)
    ensures var (r, h') := GlobalAttributeResult(h, targetTaxonomy, displayName, createIfMissing, args);
      h' == h.(taxonomies := h'.taxonomies, attributeTaxonomies := h'.attributeTaxonomies, nextId := h'.nextId)
  {
  }

  /** A returned taxonomy is registered and backed by the global attribute whose id is returned. */
  lemma GlobalAttributeRegistered(h: HostState, targetTaxonomy: string, displayName: string, createIfMissing: bool, args: AttributeArgs)
    ensures var (r, h') := GlobalAttributeResult(h, targetTaxonomy, displayName, createIfMissing, args);
      var taxonomy := GlobalTaxonomyName(targetTaxonomy);
      var slug := taxonomy[3..];
      r.Ok? ==> r.value.taxonomy == taxonomy && TaxonomyExists(h', taxonomy) &&
                slug in h'.attributeTaxonomies && h'.attributeTaxonomies[slug].id == r.value.attributeId
  {
    var taxonomy := GlobalTaxonomyName(targetTaxonomy);
    var slug := taxonomy[3..];
    assert taxonomy == "pa_" + slug;
    if AttributeIdByName(h, slug) == 0 && createIfMissing {
      var created := CreateAttribute(h, SanitizeTextField(displayName), slug, args.orderBy.GetOr("name"), args.enableArchive);
      if created.0.Ok? {
        var registered := RegisterAttributeTaxonomies(created.1);
        assert slug in created.1.attributeTaxonomies;
        assert TaxonomyExists(registered, taxonomy);
        assert Registered(registered, taxonomy).attributeTaxonomies == created.1.attributeTaxonomies;
      }
    }
  }

  /** An existing attribute is reused; a missing one fails without creation, or with the creation error. */
  lemma GlobalAttributeCases(h: HostState, targetTaxonomy: string, displayName: string, createIfMissing: bool, args: AttributeArgs)
    ensures var (r, h') := GlobalAttributeResult(h, targetTaxonomy, displayName, createIfMissing, args);
      var taxonomy := GlobalTaxonomyName(targetTaxonomy);
      var slug := taxonomy[3..];
      (slug in h.attributeTaxonomies && h.attributeTaxonomies[slug].id != 0 ==>
         r == Ok(AttributeInfo(h.attributeTaxonomies[slug].id, taxonomy)) && h'.attributeTaxonomies == h.attributeTaxonomies) &&
      (AttributeIdByName(h, slug) == 0 && !createIfMissing ==>
         r == Throw(RuntimeError(MissingAttributeMessage(taxonomy))) && h' == h) &&
      (AttributeIdByName(h, slug) == 0 && createIfMissing && slug in h.rejectedAttributes ==>
         r == Throw(RuntimeError(h.rejectedAttributes[slug])) && h' == h)
  {
  }

  /** `ensure_terms` on the store and the cache: the results, the cache and the store after it. */
  function TermsResult(cache: TermCache, h: HostState, taxonomy: string, configs: seq<TermConfig>, allowCreation: bool): (Result<seq<ResolvedTerm>>, TermCache, HostState)
  {
    var tax := SanitizeKey(taxonomy);
    if !TaxonomyExists(h, tax) then (Throw(RuntimeError(UnregisteredTaxonomyMessage(tax))), cache, h)
    else
      var run := Resolve(cache, h, tax, configs, allowCreation);
      (if run.failure.Some? then Throw(run.failure.value) else Ok(run.results), run.cache, run.host)
  }

  /**
   * `ensure_terms` throws before any lookup on an unregistered taxonomy;
   * otherwise it returns one result per config, in order, and changes only
   * the terms and the id counter of the store.
   */
  lemma TermsResultEffect(cache: TermCache, h: HostState, taxonomy: string, configs: seq<TermConfig>, allowCreation: bool)
    ensures var (r, cache', h') := TermsResult(cache, h, taxonomy, configs, allowCreation);
      h' == h.(terms := h'.terms, nextId := h'.nextId) &&
      (!TaxonomyExists(h, SanitizeKey(taxonomy)) ==>
         r == Throw(RuntimeError(UnregisteredTaxonomyMessage(SanitizeKey(taxonomy)))) && cache' == cache && h' == h) &&
      (r.Ok? ==> |r.value| == |configs| && forall i :: 0 <= i < |configs| ==> r.value[i].localValue == configs[i].localValue)
  {
    var tax := SanitizeKey(taxonomy);
    if TaxonomyExists(h, tax) {
      ResolveInsertsOnlyCreated(cache, h, tax, configs, allowCreation);
      ResolveOnePerConfig(cache, h, tax, configs, allowCreation);
    }
  }

  class TermService {
    var cache: TermCache

    constructor()
      ensures cache == map[]
    {
      cache := map[];
    }

    /**
     * `ensure_global_attribute`: find the global attribute behind the
     * taxonomy, creating it when allowed, and make sure the taxonomy is
     * registered.
     */
    method EnsureGlobalAttribute(store: Store, targetTaxonomy: string, displayName: string, createIfMissing: bool, args: AttributeArgs)
      returns (r: Result<AttributeInfo>)
      modifies store
      ensures (r, store.st) == GlobalAttributeResult(old(store.st), targetTaxonomy, displayName, createIfMissing, args)
    {
      var taxonomy := GlobalTaxonomyName(targetTaxonomy);
      var cleanLabel := SanitizeTextField(displayName);
      var slug := taxonomy[3..];
      var id := AttributeIdByName(store.st, slug);
      if id == 0 {
        if !createIfMissing {
          return Throw(RuntimeError(MissingAttributeMessage(taxonomy)));
        }
        var created := store.CreateAttributeCall(cleanLabel, slug, args.orderBy.GetOr("name"), args.enableArchive);
        if created.Throw? {
          return Throw(created.error);
        }
        id := created.value;
        store.RegisterAttributeTaxonomiesCall();
      }
      if !TaxonomyExists(store.st, taxonomy) {
        store.RegisterTaxonomy(taxonomy);
      } else {
        assert store.st.taxonomies + {taxonomy} == store.st.taxonomies;
      }
      return Ok(AttributeInfo(id, taxonomy));
    }

    /** `get_cached_term`. */
    function CachedTerm(taxonomy: string, slug: string): (r: Option<FoundTerm>)
      reads this
      ensures r.Some? <==> (taxonomy, slug) in cache
      ensures r.Some? ==> r.value == cache[(taxonomy, slug)]
    {
      if (taxonomy, slug) in cache then Some(cache[(taxonomy, slug)]) else None
    }

    /** `set_cached_term`. */
    method SetCachedTerm(taxonomy: string, slug: string, found: FoundTerm)
      modifies this
      ensures cache == old(cache)[(taxonomy, slug) := found]
    {
      cache := cache[(taxonomy, slug) := found];
    }

    /**
     * `ensure_terms`: resolve every config in order against the
     * `sanitize_key`'d taxonomy, which must be registered, caching each
     * resolution under its slug.
     */
    method EnsureTerms(store: Store, taxonomy: string, configs: seq<TermConfig>, allowCreation: bool)
      returns (r: Result<seq<ResolvedTerm>>)
      modifies this, store
      ensures (r, cache, store.st) == TermsResult(old(cache), old(store.st), taxonomy, configs, allowCreation)
    {
      var tax := SanitizeKey(taxonomy);
      if !TaxonomyExists(store.st, tax) {
        return Throw(RuntimeError(UnregisteredTaxonomyMessage(tax)));
      }
      ghost var cache0 := cache;
      ghost var host0 := store.st;
      var results: seq<ResolvedTerm> := [];
      for i := 0 to |configs|
        invariant Resolve(cache0, host0, tax, configs[..i], allowCreation) == RunState(None, results, cache, store.st)
      {
        var c := configs[i];
        assert configs[..i + 1][..i] == configs[..i];
        ghost var step := ResolveOne(cache, store.st, tax, c, allowCreation);
        var slug := RequestedSlug(c);
        var existing := CachedTerm(tax, slug);
        if existing.None? && c.termId != 0 {
          var term := GetTerm(store.st, c.termId, tax);
          if term.Some? {
            existing := Some(FoundTerm(term.value.id, term.value.slug));
          }
        }
        if existing.None? {
          var term := GetTermBySlug(store.st, slug, tax);
          if term.Some? {
            existing := Some(FoundTerm(term.value.id, term.value.slug));
          }
        }
        assert existing == Lookup(cache, store.st, tax, c);
        var created := false;
        if existing.None? {
          if !(c.create || allowCreation) {
            assert step.outcome.Throw? && step.cache == cache && step.host == store.st;
            ResolveStopsAtFailure(cache0, host0, tax, configs, i + 1, allowCreation);
            return Throw(RuntimeError(MissingTermMessage(c.localValue, tax)));
          }
          ghost var before := store.st;
          var inserted := store.InsertTermCall(c.termName.GetOr(c.localValue), tax, slug);
          if inserted.Throw? {
            assert step == Step(Throw(inserted.error), cache, before);
            ResolveStopsAtFailure(cache0, host0, tax, configs, i + 1, allowCreation);
            return Throw(inserted.error);
          }
          existing := Some(FoundTerm(inserted.value, slug));
          created := true;
          assert step.host == store.st;
        }
        SetCachedTerm(tax, existing.value.slug, existing.value);
        results := results + [ResolvedTerm(c.localValue, existing.value.termId, existing.value.slug, created)];
        assert step == Step(Ok(results[|results| - 1]), cache, store.st);
      }
      assert configs[..|configs|] == configs;
      return Ok(results);
    }
  }
}
