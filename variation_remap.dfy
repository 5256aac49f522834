/**
 * `Variation_Service`: after a local attribute has become a global one,
 * each child variation of the parent gets the global attribute's meta key
 * from the first of four strategies that succeeds (direct meta, variation
 * attributes, title/SKU inference, the native attribute snapshot), and the
 * run is summarised in counters, a reason histogram and a percentage.
 */
module VariationRemap {
  import opened PhpCore
  import opened PhpString
  import opened PhpArray
  import opened Sanitize
  import opened ValueNormalizer
  import opened Host

  /** What a strategy reports: `updated` (with the slug written), `already_ok`, `missing_source_meta` or `no_slug_match`. */
  datatype Status = Updated(value: string) | AlreadyOk | MissingSourceMeta | NoSlugMatch

  /** `$slug_map`: normalised local value to final slug, in insertion order. */
  type SlugMap = seq<(string, string)>

  /** `'attribute_' . sanitize_title($local_name)`. */
  function LocalKey(localName: string): (k: string)
    ensures StartsWith(k, "attribute_") && !EmptyString(k)
  {
    "attribute_" + SanitizeTitle(localName)
  }

  /** `'attribute_' . $taxonomy`. */
  function TargetKey(taxonomy: string): (k: string)
    ensures StartsWith(k, "attribute_") && !EmptyString(k)
  {
    "attribute_" + taxonomy
  }

  // ---------------------------------------------------------------------
  // Strategy 1: direct meta
  // ---------------------------------------------------------------------

  /** `try_direct_meta_update`'s status for a variation with this meta. */
  function DirectMetaStatus(meta: map<string, string>, localKey: string, targetKey: string, slugMap: SlugMap, intl: Intl): Status
  {
    var currentTarget := MetaText(meta, targetKey);
    var currentValue := MetaText(meta, localKey);
    if currentValue == "" && currentTarget != "" then AlreadyOk
    else if currentValue == "" then MissingSourceMeta
    else
      var slug := Get(slugMap, Normalize(currentValue, intl));
      if slug.None? then NoSlugMatch
      else if currentTarget != "" && slug.value == currentTarget then AlreadyOk
      else Updated(slug.value)
  }

  /**
   * Strategy 1's status in terms of the two meta values: nothing to read
   * gives `missing_source_meta`, an unmapped local value `no_slug_match`, a
   * target already set (and agreeing with the mapped slug, if there is a
   * local value) `already_ok`, and otherwise the mapped slug is written.
   */
  lemma DirectMetaStatusCases(meta: map<string, string>, localKey: string, targetKey: string, slugMap: SlugMap, intl: Intl)
    ensures var s := DirectMetaStatus(meta, localKey, targetKey, slugMap, intl);
      var local := MetaText(meta, localKey);
      var target := MetaText(meta, targetKey);
      var slug := Get(slugMap, Normalize(local, intl));
      (s == MissingSourceMeta <==> local == "" && target == "") &&
      (s == NoSlugMatch <==> local != "" && slug.None?) &&
      (s == AlreadyOk <==> (local == "" && target != "") || (local != "" && slug.Some? && target != "" && slug.value == target)) &&
      (s.Updated? <==> local != "" && slug.Some? && (target == "" || slug.value != target)) &&
      (s.Updated? ==> s.value == slug.value)
  {
  }

  /**
   * The meta after a successful strategy 1 or 4: the target key is
   * written, the local key deleted and the target written again by the
   * forced save.
   */
  function MovedMeta(meta: map<string, string>, localKey: string, targetKey: string, slug: string): map<string, string>
  {
    UpdateMeta(DeleteMeta(UpdateMeta(meta, targetKey, slug), localKey), targetKey, slug)
  }

  /** The meta after strategy 1: moved on success, untouched otherwise. */
  function DirectMetaResult(meta: map<string, string>, localKey: string, targetKey: string, status: Status): map<string, string>
  {
    if status.Updated? then MovedMeta(meta, localKey, targetKey, status.value) else meta
  }

  /** After the move the target key holds the slug, a distinct local key reads as empty, and every other key is unchanged. */
  lemma MovedMetaEffect(meta: map<string, string>, localKey: string, targetKey: string, slug: string)
    requires !EmptyString(localKey) && !EmptyString(targetKey)
    ensures var m := MovedMeta(meta, localKey, targetKey, slug);
      MetaText(m, targetKey) == slug &&
      (localKey != targetKey ==> MetaText(m, localKey) == "") &&
      forall k :: k != localKey && k != targetKey ==> MetaText(m, k) == MetaText(meta, k)
  {
    var m1 := UpdateMeta(meta, targetKey, slug);
    var m2 := DeleteMeta(m1, localKey);
    var m := UpdateMeta(m2, targetKey, slug);
    forall k | k != localKey && k != targetKey
      ensures MetaText(m, k) == MetaText(meta, k)
    {
      if !EmptyString(k) {
        assert MetaText(m, k) == MetaText(m2, k) == MetaText(m1, k) == MetaText(meta, k);
      }
    }
  }

  /** The three writes of a successful strategy 1 or 4. */
  method MoveMeta(store: Store, vid: int, localKey: string, targetKey: string, slug: string)
    requires vid in store.st.products
    modifies store
    ensures store.st == WithMeta(old(store.st), vid, MovedMeta(old(store.st.products[vid].meta), localKey, targetKey, slug))
  {
    ghost var h0 := store.st;
    ghost var m1 := UpdateMeta(h0.products[vid].meta, targetKey, slug);
    ghost var m2 := DeleteMeta(m1, localKey);
    store.UpdateMetaData(vid, targetKey, slug);
    store.DeleteMetaData(vid, localKey);
    WithMetaTwice(h0, vid, m1, m2);
    store.UpsertMeta(vid, targetKey, slug);
    WithMetaTwice(h0, vid, m2, UpdateMeta(m2, targetKey, slug));
  }

  /**
   * Strategy 1's effect: on success the target key holds the mapped slug,
   * a distinct local key reads as empty and every other key is unchanged;
   * the `already_ok` outcome (even with a non-empty local value) and the
   * failures leave the meta untouched.
   */
  lemma DirectMetaEffect(meta: map<string, string>, localKey: string, targetKey: string, slugMap: SlugMap, intl: Intl)
    requires !EmptyString(localKey) && !EmptyString(targetKey)
    ensures var s := DirectMetaStatus(meta, localKey, targetKey, slugMap, intl);
      var m := DirectMetaResult(meta, localKey, targetKey, s);
      (s.Updated? ==>
        MetaText(m, targetKey) == s.value &&
        (localKey != targetKey ==> MetaText(m, localKey) == "") &&
        forall k :: k != localKey && k != targetKey ==> MetaText(m, k) == MetaText(meta, k)) &&
      (!s.Updated? ==> m == meta)
  {
    var s := DirectMetaStatus(meta, localKey, targetKey, slugMap, intl);
    if s.Updated? {
      MovedMetaEffect(meta, localKey, targetKey, s.value);
    }
  }

  /** `try_direct_meta_update`. */
  method TryDirectMetaUpdate(store: Store, vid: int, localKey: string, targetKey: string, slugMap: SlugMap, intl: Intl)
    returns (status: Status)
    requires vid in store.st.products
    modifies store
    ensures status == DirectMetaStatus(old(store.st.products[vid].meta), localKey, targetKey, slugMap, intl)
    ensures store.st == WithMeta(old(store.st), vid, DirectMetaResult(old(store.st.products[vid].meta), localKey, targetKey, status))
  {
    var meta := store.st.products[vid].meta;
    WithOwnMeta(store.st, vid);
    var currentTarget := MetaText(meta, targetKey);
    var currentValue := MetaText(meta, localKey);
    if currentValue == "" && currentTarget != "" {
      return AlreadyOk;
    }
    if currentValue == "" {
      return MissingSourceMeta;
    }
    var normalized := Normalize(currentValue, intl);
    if !HasKey(slugMap, normalized) {
      return NoSlugMatch;
    }
    var slug := Get(slugMap, normalized).value;
    if currentTarget != "" && slug == currentTarget {
      return AlreadyOk;
    }
    MoveMeta(store, vid, localKey, targetKey, slug);
    return Updated(slug);
  }

  // ---------------------------------------------------------------------
  // Strategy 2: the variation's own attributes
  // ---------------------------------------------------------------------

  /** A variation attribute entry strategy 2 accepts: its `sanitize_title`'d key is `localSlug` and its value is not `''`. */
  predicate IsLocalEntry(e: (string, AttributeValue), localSlug: string)
  {
    SanitizeTitle(e.0) == localSlug && e.1 != Scalar("")
  }

  /** The position of the first entry strategy 2 accepts. */
  function FirstLocalAttribute(attrs: seq<(string, AttributeValue)>, localSlug: string): (r: Option<nat>)
    ensures r.Some? ==> r.value < |attrs| && IsLocalEntry(attrs[r.value], localSlug)
    ensures r.Some? ==> forall j :: 0 <= j < r.value ==> !IsLocalEntry(attrs[j], localSlug)
    ensures r.None? ==> forall j :: 0 <= j < |attrs| ==> !IsLocalEntry(attrs[j], localSlug)
  {
    FirstWhere(attrs, (e: (string, AttributeValue)) => IsLocalEntry(e, localSlug))
  }

  /** The `TypeError` strict typing raises when a non-string reaches `Value_Normalizer::normalize`. */
  const NormalizeTypeError := FatalError("Value_Normalizer::normalize(): Argument #1 ($value) must be of type string")

  /** `try_variation_attributes_update`'s outcome and the variation afterwards. */
  function VariationAttributesUpdate(v: Product, taxonomy: string, localName: string, slugMap: SlugMap, intl: Intl): (Result<Status>, Product)
  {
    AttributesUpdate(v, taxonomy, SanitizeTitle(localName), slugMap, intl)
  }

  /** Strategy 2 once `$local_normalized` is known. */
  function AttributesUpdate(v: Product, taxonomy: string, localSlug: string, slugMap: SlugMap, intl: Intl): (Result<Status>, Product)
  {
    var found := FirstLocalAttribute(v.attributes, localSlug);
    if found.None? then (Ok(MissingSourceMeta), v)
    else match v.attributes[found.value].1
      case Scalar(currentValue) =>
        var normalized := Normalize(currentValue, intl);
        if !HasKey(slugMap, normalized) then (Ok(NoSlugMatch), v)
        else
          var newSlug := Get(slugMap, normalized).value;
          var attrs := Put(Remove(v.attributes, localSlug), taxonomy, Scalar(newSlug));
          (Ok(Updated(newSlug)), v.(attributes := attrs, meta := MovedMeta(v.meta, "attribute_" + localSlug, TargetKey(taxonomy), newSlug)))
      case _ => (Throw(NormalizeTypeError), v)
  }

  /** Strategy 2 reports `updated`, `missing_source_meta`, `no_slug_match` or an error, and leaves the variation alone unless it updates. */
  lemma AttributesUpdateFailure(v: Product, taxonomy: string, localSlug: string, slugMap: SlugMap, intl: Intl)
    ensures var r := AttributesUpdate(v, taxonomy, localSlug, slugMap, intl);
      (r.0.Throw? || r.0.value.Updated? || r.0.value == MissingSourceMeta || r.0.value == NoSlugMatch) &&
      (!(r.0.Ok? && r.0.value.Updated?) ==> r.1 == v)
  {
  }

  /** What a successful strategy 2 writes: its slug, and the variation with the local entry renamed and the meta moved. */
  lemma AttributesUpdateWrites(v: Product, taxonomy: string, localSlug: string, slugMap: SlugMap, intl: Intl)
    ensures var r := AttributesUpdate(v, taxonomy, localSlug, slugMap, intl);
      r.0.Ok? && r.0.value.Updated? ==>
        r.1 == v.(attributes := Put(Remove(v.attributes, localSlug), taxonomy, Scalar(r.0.value.value)),
                  meta := MovedMeta(v.meta, "attribute_" + localSlug, TargetKey(taxonomy), r.0.value.value))
  {
    var found := FirstLocalAttribute(v.attributes, localSlug);
    if found.Some? && v.attributes[found.value].1.Scalar? {
      var normalized := Normalize(v.attributes[found.value].1.text, intl);
      if HasKey(slugMap, normalized) {
        var newSlug := Get(slugMap, normalized).value;
        assert AttributesUpdate(v, taxonomy, localSlug, slugMap, intl).0 == Ok(Updated(newSlug));
      }
    }
  }

  /**
   * On success strategy 2 replaces the local attribute by the taxonomy
   * with the mapped slug and keeps every other attribute.
   */
  lemma AttributesUpdateEffect(v: Product, taxonomy: string, localSlug: string, slugMap: SlugMap, intl: Intl)
    ensures var r := AttributesUpdate(v, taxonomy, localSlug, slugMap, intl);
      r.0.Ok? && r.0.value.Updated? ==>
        Get(r.1.attributes, taxonomy) == Some(Scalar(r.0.value.value)) &&
        (localSlug != taxonomy ==> !HasKey(r.1.attributes, localSlug)) &&
        (forall k :: k != localSlug && k != taxonomy ==> Get(r.1.attributes, k) == Get(v.attributes, k))
  {
    var r := AttributesUpdate(v, taxonomy, localSlug, slugMap, intl);
    AttributesUpdateWrites(v, taxonomy, localSlug, slugMap, intl);
    if r.0.Ok? && r.0.value.Updated? {
      RenameEntry(v.attributes, localSlug, taxonomy, Scalar(r.0.value.value));
    }
  }

  /** On success strategy 2 writes the target meta key, empties the local one and keeps every other key. */
  lemma AttributesUpdateMetaEffect(v: Product, taxonomy: string, localSlug: string, slugMap: SlugMap, intl: Intl)
    ensures var r := AttributesUpdate(v, taxonomy, localSlug, slugMap, intl);
      r.0.Ok? && r.0.value.Updated? ==>
        MetaText(r.1.meta, TargetKey(taxonomy)) == r.0.value.value &&
        ("attribute_" + localSlug != TargetKey(taxonomy) ==> MetaText(r.1.meta, "attribute_" + localSlug) == "") &&
        (forall k :: k != "attribute_" + localSlug && k != TargetKey(taxonomy) ==> MetaText(r.1.meta, k) == MetaText(v.meta, k))
  {
    var r := AttributesUpdate(v, taxonomy, localSlug, slugMap, intl);
    AttributesUpdateWrites(v, taxonomy, localSlug, slugMap, intl);
    if r.0.Ok? && r.0.value.Updated? {
      MovedMetaEffect(v.meta, "attribute_" + localSlug, TargetKey(taxonomy), r.0.value.value);
    }
  }

  /** The value strategy 2 writes is the mapping of a usable entry's value, and that entry's key sanitises to `localSlug`. */
  lemma AttributesUpdateOrigin(v: Product, taxonomy: string, localSlug: string, slugMap: SlugMap, intl: Intl)
    ensures var r := AttributesUpdate(v, taxonomy, localSlug, slugMap, intl);
      r.0.Ok? && r.0.value.Updated? ==>
        exists i :: 0 <= i < |v.attributes| && SanitizeTitle(v.attributes[i].0) == localSlug &&
          v.attributes[i].1.Scalar? && Get(slugMap, Normalize(v.attributes[i].1.text, intl)) == Some(r.0.value.value)
  {
    var found := FirstLocalAttribute(v.attributes, localSlug);
    if found.Some? {
      assert IsLocalEntry(v.attributes[found.value], localSlug);
    }
  }

  /** The four writes of a successful strategy 2: target meta, local meta deleted, the new attributes, the forced save. */
  method RewriteAttributes(store: Store, vid: int, localKey: string, targetKey: string, attributes: seq<(string, AttributeValue)>, slug: string)
    requires vid in store.st.products
    modifies store
    ensures store.st == old(store.st).(products := old(store.st.products)[vid := old(store.st.products[vid]).(attributes := attributes, meta := MovedMeta(old(store.st.products[vid].meta), localKey, targetKey, slug))])
  {
    ghost var h0 := store.st;
    ghost var m1 := UpdateMeta(h0.products[vid].meta, targetKey, slug);
    ghost var m2 := DeleteMeta(m1, localKey);
    store.UpdateMetaData(vid, targetKey, slug);
    store.DeleteMetaData(vid, localKey);
    WithMetaTwice(h0, vid, m1, m2);
    store.SetAttributes(vid, attributes);
    store.UpsertMeta(vid, targetKey, slug);
    WithMetaAttributesMeta(h0, vid, m2, attributes, UpdateMeta(m2, targetKey, slug));
  }

  /** `try_variation_attributes_update`. */
  method TryVariationAttributesUpdate(store: Store, vid: int, taxonomy: string, localName: string, slugMap: SlugMap, intl: Intl)
    returns (status: Result<Status>)
    requires vid in store.st.products
    modifies store
    ensures var r := AttributesUpdate(old(store.st.products[vid]), taxonomy, SanitizeTitle(localName), slugMap, intl);
      status == r.0 && store.st == old(store.st).(products := old(store.st.products)[vid := r.1])
  {
    var variationAttributes := store.st.products[vid].attributes;
    var localNormalized := SanitizeTitle(localName);
    var found := FirstLocalAttribute(variationAttributes, localNormalized);
    WithOwnMeta(store.st, vid);
    if found.None? {
      return Ok(MissingSourceMeta);
    }
    var value := variationAttributes[found.value].1;
    if !value.Scalar? {
      return Throw(NormalizeTypeError);
    }
    var normalized := Normalize(value.text, intl);
    if !HasKey(slugMap, normalized) {
      return Ok(NoSlugMatch);
    }
    var targetKey := TargetKey(taxonomy);
    var newSlug := Get(slugMap, normalized).value;
    var updatedAttributes := Put(Remove(variationAttributes, localNormalized), taxonomy, Scalar(newSlug));
    RewriteAttributes(store, vid, "attribute_" + localNormalized, targetKey, updatedAttributes, newSlug);
    return Ok(Updated(newSlug));
  }

  // ---------------------------------------------------------------------
  // Strategy 3: inference from title and SKU
  // ---------------------------------------------------------------------

  /** The characters `preg_quote($s, '/')` escapes with a backslash. */
  predicate IsRegexSpecial(c: char)
  {
    c in ".\\+*?[^]$(){}=!<>|:-#/"
  }

  /** `preg_quote($s, '/')`: every special character gets a backslash, NUL becomes `\000`. */
  function PregQuote(s: string): (r: string)
    ensures |r| >= |s|
    ensures (forall i :: 0 <= i < |s| ==> !IsRegexSpecial(s[i]) && s[i] != '\0') ==> r == s
  {
    if s == [] then []
    else
      (if IsRegexSpecial(s[0]) then ['\\', s[0]] else if s[0] == '\0' then "\\000" else [s[0]]) + PregQuote(s[1..])
  }

  /**
   * The four search patterns of one parent option, in priority order:
   * the lower-cased option, its normalised form, its target slug and the
   * regex-quoted lower-cased option.
   */
  function SearchPatterns(option: string, normalized: string, targetSlug: string): seq<string>
  {
    [Lower(option), normalized, targetSlug, PregQuote(Lower(option))]
  }

  /**
   * Whether some non-empty pattern is found in the text.  The source tries
   * `strpos` and then a `\b...\b` match of the quoted pattern; the second
   * one only matches where the pattern occurs literally, so the first
   * already decides.
   */
  predicate PatternFound(text: string, patterns: seq<string>)
  {
    exists i :: 0 <= i < |patterns| && !EmptyString(patterns[i]) && Contains(text, patterns[i])
  }

  /**
   * The slug one textual parent option contributes: its slug-map value,
   * when one of its search patterns is found in the text.
   */
  function OptionCandidate(searchText: string, option: string, slugMap: SlugMap, intl: Intl): (c: Option<string>)
    ensures c.Some? ==> Get(slugMap, Normalize(option, intl)) == c
  {
    var normalized := Normalize(option, intl);
    var slug := Get(slugMap, normalized);
    if slug.Some? && PatternFound(searchText, SearchPatterns(option, normalized, slug.value)) then slug else None
  }

  /** Whether every option is free text, none a term id. */
  predicate AllText(options: seq<OptionValue>)
    decreases |options|
  {
    options == [] || (options[0].Text? && AllText(options[1..]))
  }

  lemma {:induction false} AllTextMeans(options: seq<OptionValue>)
    ensures AllText(options) <==> forall i :: 0 <= i < |options| ==> options[i].Text?
    decreases |options|
  {
    if options != [] {
      AllTextMeans(options[1..]);
      assert forall i :: 1 <= i < |options| ==> options[i] == options[1..][i - 1];
    }
  }

  /**
   * The candidate slugs before de-duplication: every matching parent
   * option adds its slug, in the order of the options.
   */
  function RawCandidates(searchText: string, options: seq<OptionValue>, slugMap: SlugMap, intl: Intl): (r: Result<seq<string>>)
    ensures r.Ok? <==> AllText(options)
    ensures r.Throw? ==> r.error == NormalizeTypeError
    decreases |options|
  {
    if |options| == 0 then Ok([])
    else
      var rest := RawCandidates(searchText, options[1..], slugMap, intl);
      match options[0]
      case TermId(_) => Throw(NormalizeTypeError)
      case Text(option) =>
        if rest.Throw? then rest
        else
          var normalized := Normalize(option, intl);
          var slug := Get(slugMap, normalized);
          if slug.None? then rest
          else if PatternFound(searchText, SearchPatterns(option, normalized, slug.value)) then Ok([slug.value] + rest.value)
          else rest
  }

  /**
   * Every matching option adds its slug, and nothing else is added: a
   * slug is a raw candidate exactly when some option yields it.
   */
  lemma {:induction false} RawCandidatesMembers(searchText: string, options: seq<OptionValue>, slugMap: SlugMap, intl: Intl)
    ensures var r := RawCandidates(searchText, options, slugMap, intl);
      r.Ok? ==> forall c :: c in r.value <==>
        exists i :: 0 <= i < |options| && options[i].Text? && OptionCandidate(searchText, options[i].text, slugMap, intl) == Some(c)
    decreases |options|
  {
    var r := RawCandidates(searchText, options, slugMap, intl);
    if |options| > 0 && r.Ok? {
      var tail := options[1..];
      RawCandidatesMembers(searchText, tail, slugMap, intl);
      var rest := RawCandidates(searchText, tail, slugMap, intl);
      var here := OptionCandidate(searchText, options[0].text, slugMap, intl);
      assert r.value == if here.Some? then [here.value] + rest.value else rest.value;
      forall c
        ensures c in r.value <==>
          exists i :: 0 <= i < |options| && options[i].Text? && OptionCandidate(searchText, options[i].text, slugMap, intl) == Some(c)
      {
        if c in r.value && here != Some(c) {
          assert c in rest.value;
          var i :| 0 <= i < |tail| && tail[i].Text? && OptionCandidate(searchText, tail[i].text, slugMap, intl) == Some(c);
          assert options[i + 1] == tail[i];
        }
        if exists i :: 0 <= i < |options| && options[i].Text? && OptionCandidate(searchText, options[i].text, slugMap, intl) == Some(c) {
          var i :| 0 <= i < |options| && options[i].Text? && OptionCandidate(searchText, options[i].text, slugMap, intl) == Some(c);
          if i > 0 {
            assert tail[i - 1] == options[i];
            assert c in rest.value;
          }
        }
      }
    }
  }

  /** Every raw candidate is a value of the slug map. */
  lemma {:induction false} RawCandidatesInValues(searchText: string, options: seq<OptionValue>, slugMap: SlugMap, intl: Intl)
    ensures var r := RawCandidates(searchText, options, slugMap, intl);
      r.Ok? ==> forall c :: c in r.value ==> c in Values(slugMap)
    decreases |options|
  {
    var r := RawCandidates(searchText, options, slugMap, intl);
    if |options| > 0 && r.Ok? {
      RawCandidatesInValues(searchText, options[1..], slugMap, intl);
      GetInValues(slugMap, Normalize(options[0].text, intl));
    }
  }

  /**
   * The first raw candidate is the slug of the first option that yields
   * one: the options before it yield none.
   */
  lemma {:induction false} RawCandidatesFirst(searchText: string, options: seq<OptionValue>, slugMap: SlugMap, intl: Intl)
    ensures var r := RawCandidates(searchText, options, slugMap, intl);
      r.Ok? && r.value != [] ==>
        exists i :: 0 <= i < |options| && options[i].Text? && OptionCandidate(searchText, options[i].text, slugMap, intl) == Some(r.value[0]) &&
          RawCandidates(searchText, options[..i], slugMap, intl) == Ok([])
    decreases |options|
  {
    var r := RawCandidates(searchText, options, slugMap, intl);
    if |options| > 0 && r.Ok? && r.value != [] {
      var tail := options[1..];
      var rest := RawCandidates(searchText, tail, slugMap, intl);
      var here := OptionCandidate(searchText, options[0].text, slugMap, intl);
      assert options[..0] == [];
      if here.None? {
        assert r == rest;
        RawCandidatesFirst(searchText, tail, slugMap, intl);
        var i :| 0 <= i < |tail| && tail[i].Text? && OptionCandidate(searchText, tail[i].text, slugMap, intl) == Some(rest.value[0]) &&
          RawCandidates(searchText, tail[..i], slugMap, intl) == Ok([]);
        PrefixShift(options, i);
        var before := options[..i + 1];
        assert RawCandidates(searchText, before, slugMap, intl) == Ok([]);
        assert options[i + 1] == tail[i];
      }
    }
  }

  /** A prefix one longer starts with the first element and continues as the tail's prefix. */
  lemma PrefixShift<T>(s: seq<T>, i: nat)
    requires i < |s|
    ensures s[..i + 1][0] == s[0] && s[..i + 1][1..] == s[1..][..i]
  {
  }

  /** One textual option yields its own candidate, if any. */
  lemma RawCandidatesSingle(searchText: string, option: string, slugMap: SlugMap, intl: Intl)
    ensures var c := OptionCandidate(searchText, option, slugMap, intl);
      RawCandidates(searchText, [Text(option)], slugMap, intl) == Ok(if c.Some? then [c.value] else [])
  {
    var options := [Text(option)];
    assert options[1..] == [];
    var rest := RawCandidates(searchText, options[1..], slugMap, intl);
    assert rest == Ok([]);
    var here := OptionCandidate(searchText, option, slugMap, intl);
    if here.Some? {
      assert RawCandidates(searchText, options, slugMap, intl) == Ok([here.value] + rest.value);
      assert [here.value] + rest.value == [here.value];
    } else {
      assert RawCandidates(searchText, options, slugMap, intl) == rest;
    }
  }

  /** The raw candidates of a concatenation of option lists are those of each part, in turn. */
  lemma {:induction false} RawCandidatesAppend(searchText: string, a: seq<OptionValue>, b: seq<OptionValue>, slugMap: SlugMap, intl: Intl)
    ensures var ra, rb, rab := RawCandidates(searchText, a, slugMap, intl), RawCandidates(searchText, b, slugMap, intl), RawCandidates(searchText, a + b, slugMap, intl);
      (rab.Throw? <==> ra.Throw? || rb.Throw?) &&
      (rab.Ok? ==> rab.value == ra.value + rb.value)
    decreases |a|
  {
    if |a| == 0 {
      assert a + b == b;
    } else {
      var tailA := a[1..];
      assert (a + b)[1..] == tailA + b;
      assert (a + b)[0] == a[0];
      RawCandidatesAppend(searchText, tailA, b, slugMap, intl);
      match a[0]
      case TermId(_) =>
      case Text(option) =>
        RawCandidatesTextStep(searchText, option, tailA, b, slugMap, intl);
    }
  }

  /** The step of `RawCandidatesAppend` for a textual first option. */
  lemma RawCandidatesTextStep(searchText: string, option: string, tail: seq<OptionValue>, b: seq<OptionValue>, slugMap: SlugMap, intl: Intl)
    requires var rt, rb, rtb := RawCandidates(searchText, tail, slugMap, intl), RawCandidates(searchText, b, slugMap, intl), RawCandidates(searchText, tail + b, slugMap, intl);
      (rtb.Throw? <==> rt.Throw? || rb.Throw?) && (rtb.Ok? ==> rtb.value == rt.value + rb.value)
    ensures var ra, rb, rab := RawCandidates(searchText, [Text(option)] + tail, slugMap, intl), RawCandidates(searchText, b, slugMap, intl), RawCandidates(searchText, [Text(option)] + (tail + b), slugMap, intl);
      (rab.Throw? <==> ra.Throw? || rb.Throw?) &&
      (rab.Ok? ==> rab.value == ra.value + rb.value)
  {
    var a := [Text(option)] + tail;
    var ab := [Text(option)] + (tail + b);
    assert a[0] == Text(option) && a[1..] == tail;
    assert ab[0] == Text(option) && ab[1..] == tail + b;
    var here := OptionCandidate(searchText, option, slugMap, intl);
    var rt := RawCandidates(searchText, tail, slugMap, intl);
    var rb := RawCandidates(searchText, b, slugMap, intl);
    var rtb := RawCandidates(searchText, tail + b, slugMap, intl);
    assert RawCandidates(searchText, a, slugMap, intl) == if rt.Throw? then rt else if here.Some? then Ok([here.value] + rt.value) else rt;
    assert RawCandidates(searchText, ab, slugMap, intl) == if rtb.Throw? then rtb else if here.Some? then Ok([here.value] + rtb.value) else rtb;
    if rtb.Ok? && here.Some? {
      assert [here.value] + (rt.value + rb.value) == ([here.value] + rt.value) + rb.value;
    }
  }

  /**
   * `find_attribute_candidates`: the slug-map values of the parent options
   * found in `strtolower($title . ' ' . $sku)`, each once, in order of
   * first appearance; the first is the slug of the first matching option.
   * A term-id option reaches `normalize` as an integer, which strict typing
   * rejects.
   */
  function FindAttributeCandidates(title: string, sku: string, options: seq<OptionValue>, slugMap: SlugMap, intl: Intl): (r: Result<seq<string>>)
    ensures r.Ok? <==> AllText(options)
    ensures r.Ok? ==> forall i, j :: 0 <= i < j < |r.value| ==> r.value[i] != r.value[j]
    ensures r.Ok? ==> forall c :: c in r.value ==> c in Values(slugMap)
    ensures r.Ok? ==> forall c :: c in r.value <==>
      exists i :: 0 <= i < |options| && options[i].Text? && OptionCandidate(Lower(title + " " + sku), options[i].text, slugMap, intl) == Some(c)
    ensures r.Ok? ==> var raw := RawCandidates(Lower(title + " " + sku), options, slugMap, intl);
      raw.Ok? && forall p, q :: 0 <= p < q < |r.value| ==>
        r.value[p] in raw.value && r.value[q] in raw.value && FirstIndex(raw.value, r.value[p]) < FirstIndex(raw.value, r.value[q])
  {
    var raw := RawCandidates(Lower(title + " " + sku), options, slugMap, intl);
    if raw.Throw? then raw
    else
      RawCandidatesMembers(Lower(title + " " + sku), options, slugMap, intl);
      var u := Unique(raw.value);
      UniqueKeepsFirstSeenOrder(raw.value);
      RawCandidatesInValues(Lower(title + " " + sku), options, slugMap, intl);
      Ok(u)
  }

  /**
   * The first candidate, the one strategy 3 writes, is the slug of the
   * first parent option that yields one.
   */
  lemma FirstAttributeCandidate(title: string, sku: string, options: seq<OptionValue>, slugMap: SlugMap, intl: Intl)
    ensures var r := FindAttributeCandidates(title, sku, options, slugMap, intl);
      r.Ok? && r.value != [] ==>
        exists i :: 0 <= i < |options| && options[i].Text? && OptionCandidate(Lower(title + " " + sku), options[i].text, slugMap, intl) == Some(r.value[0]) &&
          RawCandidates(Lower(title + " " + sku), options[..i], slugMap, intl) == Ok([])
  {
    var raw := RawCandidates(Lower(title + " " + sku), options, slugMap, intl);
    if raw.Ok? && raw.value != [] {
      RawCandidatesFirst(Lower(title + " " + sku), options, slugMap, intl);
      UniqueFirst(raw.value);
    }
  }

  /** The `Error` PHP raises when a parent attribute is not an object. */
  const NonObjectAttributeError := FatalError("Call to a member function get_name() on non-object")

  /** The parent's first attribute object named exactly `localName` and used for variations; a non-object before it is an `Error`. */
  function ParentVariationAttribute(attrs: seq<(string, AttributeValue)>, localName: string): (r: Result<Option<ProductAttribute>>)
    ensures r.Ok? && r.value.Some? ==>
      r.value.value.name == localName && r.value.value.variation &&
      exists i :: 0 <= i < |attrs| && attrs[i].1 == AttributeObject(r.value.value)
    ensures r.Throw? ==> r.error == NonObjectAttributeError
  {
    if |attrs| == 0 then Ok(None)
    else match attrs[0].1
      case AttributeObject(a) =>
        if a.name == localName && a.variation then Ok(Some(a))
        else
          var rest := ParentVariationAttribute(attrs[1..], localName);
          assert rest.Ok? && rest.value.Some? ==> exists i :: 0 <= i < |attrs| && attrs[i].1 == AttributeObject(rest.value.value) by {
            if rest.Ok? && rest.value.Some? {
              var i :| 0 <= i < |attrs[1..]| && attrs[1..][i].1 == AttributeObject(rest.value.value);
              assert attrs[i + 1] == attrs[1..][i];
            }
          }
          rest
      case _ => Throw(NonObjectAttributeError)
  }

  /** `get_post($id)->post_title`, or `''` without a post. */
  function PostTitle(h: HostState, id: int): string
  {
    if id in h.postTitles then h.postTitles[id] else ""
  }

  /** `try_inference_update`'s outcome, and the variation's meta afterwards. */
  function InferenceUpdate(h: HostState, vid: int, pid: int, taxonomy: string, localName: string, slugMap: SlugMap, intl: Intl): (Result<Status>, map<string, string>)
    requires vid in h.products && pid in h.products
  {
    var meta := h.products[vid].meta;
    var title := PostTitle(h, vid);
    var sku := MetaText(meta, "_sku");
    var target := ParentVariationAttribute(h.products[pid].attributes, localName);
    if target.Throw? then (Throw(target.error), meta)
    else if target.value.None? then (Ok(MissingSourceMeta), meta)
    else
      var options := target.value.value.options;
      if options == [] then (Ok(MissingSourceMeta), meta)
      else
        var candidates := FindAttributeCandidates(title, sku, options, slugMap, intl);
        if candidates.Throw? then (Throw(candidates.error), meta)
        else if candidates.value == [] then (Ok(NoSlugMatch), meta)
        else
          var best := candidates.value[0];
          (Ok(Updated(best)), UpdateMeta(UpdateMeta(meta, TargetKey(taxonomy), best), TargetKey(taxonomy), best))
  }

  /**
   * Strategy 3 reports `updated`, `missing_source_meta`, `no_slug_match`
   * or an error; it changes the meta only when it updates, and then only
   * the target key, which gets the first candidate.
   */
  lemma InferenceUpdateEffect(h: HostState, vid: int, pid: int, taxonomy: string, localName: string, slugMap: SlugMap, intl: Intl)
    requires vid in h.products && pid in h.products
    ensures var r := InferenceUpdate(h, vid, pid, taxonomy, localName, slugMap, intl);
      (r.0.Throw? || r.0.value.Updated? || r.0.value == MissingSourceMeta || r.0.value == NoSlugMatch) &&
      (!(r.0.Ok? && r.0.value.Updated?) ==> r.1 == h.products[vid].meta) &&
      (r.0.Ok? && r.0.value.Updated? ==>
        r.0.value.value in Values(slugMap) &&
        MetaText(r.1, TargetKey(taxonomy)) == r.0.value.value &&
        forall k :: k != TargetKey(taxonomy) ==> MetaText(r.1, k) == MetaText(h.products[vid].meta, k)) &&
      var target := ParentVariationAttribute(h.products[pid].attributes, localName);
      var hasOptions := target.Ok? && target.value.Some? && target.value.value.options != [];
      (r.0 == Ok(MissingSourceMeta) <==> target.Ok? && !hasOptions) &&
      (hasOptions ==>
        var cs := FindAttributeCandidates(PostTitle(h, vid), MetaText(h.products[vid].meta, "_sku"), target.value.value.options, slugMap, intl);
        (cs.Throw? ==> r.0 == Throw(cs.error)) &&
        (cs.Ok? && cs.value == [] ==> r.0 == Ok(NoSlugMatch)) &&
        (cs.Ok? && cs.value != [] ==> r.0 == Ok(Updated(cs.value[0]))))
  {
    var meta := h.products[vid].meta;
    var r := InferenceUpdate(h, vid, pid, taxonomy, localName, slugMap, intl);
    if r.0.Ok? && r.0.value.Updated? {
      var best := r.0.value.value;
      var m1 := UpdateMeta(meta, TargetKey(taxonomy), best);
      assert r.1 == UpdateMeta(m1, TargetKey(taxonomy), best);
      forall k | k != TargetKey(taxonomy) ensures MetaText(r.1, k) == MetaText(meta, k) {
        if !EmptyString(k) {
          assert MetaText(r.1, k) == MetaText(m1, k);
        }
      }
    }
  }

  /** The two writes of a successful strategy 3: the target key, then the forced save of it. */
  method WriteTargetMeta(store: Store, vid: int, targetKey: string, slug: string)
    requires vid in store.st.products
    modifies store
    ensures store.st == WithMeta(old(store.st), vid, UpdateMeta(UpdateMeta(old(store.st.products[vid].meta), targetKey, slug), targetKey, slug))
  {
    ghost var h0 := store.st;
    ghost var m1 := UpdateMeta(h0.products[vid].meta, targetKey, slug);
    store.UpdateMetaData(vid, targetKey, slug);
    store.UpsertMeta(vid, targetKey, slug);
    WithMetaTwice(h0, vid, m1, UpdateMeta(m1, targetKey, slug));
  }

  /** `try_inference_update`. */
  method TryInferenceUpdate(store: Store, vid: int, pid: int, taxonomy: string, localName: string, slugMap: SlugMap, intl: Intl)
    returns (status: Result<Status>)
    requires vid in store.st.products && pid in store.st.products
    modifies store
    ensures var r := InferenceUpdate(old(store.st), vid, pid, taxonomy, localName, slugMap, intl);
      status == r.0 && store.st == WithMeta(old(store.st), vid, r.1)
  {
    var title := PostTitle(store.st, vid);
    var sku := MetaText(store.st.products[vid].meta, "_sku");
    WithOwnMeta(store.st, vid);
    var parentAttributes := store.st.products[pid].attributes;
    var targetAttribute := ParentVariationAttribute(parentAttributes, localName);
    if targetAttribute.Throw? {
      return Throw(targetAttribute.error);
    }
    if targetAttribute.value.None? {
      return Ok(MissingSourceMeta);
    }
    var parentOptions := targetAttribute.value.value.options;
    if parentOptions == [] {
      return Ok(MissingSourceMeta);
    }
    var candidates := FindAttributeCandidates(title, sku, parentOptions, slugMap, intl);
    if candidates.Throw? {
      return Throw(candidates.error);
    }
    if candidates.value == [] {
      return Ok(NoSlugMatch);
    }
    var bestCandidate := candidates.value[0];
    var targetKey := TargetKey(taxonomy);
    WriteTargetMeta(store, vid, targetKey, bestCandidate);
    return Ok(Updated(bestCandidate));
  }

  // ---------------------------------------------------------------------
  // Strategy 4: the native attribute snapshot
  // ---------------------------------------------------------------------

  /** `try_wc_native_update`'s status, read from `wc_get_product_variation_attributes`. */
  function NativeStatus(h: HostState, vid: int, localName: string, slugMap: SlugMap, intl: Intl): (s: Status)
    ensures !s.AlreadyOk?
  {
    var wcAttributes := VariationAttributeMeta(h, vid);
    var localKey := LocalKey(localName);
    if localKey !in wcAttributes then MissingSourceMeta
    else
      var currentValue := wcAttributes[localKey];
      if currentValue == "" then MissingSourceMeta
      else
        var slug := Get(slugMap, Normalize(currentValue, intl));
        if slug.None? then NoSlugMatch else Updated(slug.value)
  }

  /**
   * Strategy 4 reads the very meta entry strategy 1 read, so once strategy
   * 1 has reported `missing_source_meta` or `no_slug_match` on a
   * variation, strategy 4 on the same state reports the same and never
   * updates.
   */
  lemma NativeRepeatsDirectMeta(h: HostState, vid: int, taxonomy: string, localName: string, slugMap: SlugMap, intl: Intl)
    requires IsVariationId(h, vid)
    requires DirectMetaStatus(h.products[vid].meta, LocalKey(localName), TargetKey(taxonomy), slugMap, intl) in {MissingSourceMeta, NoSlugMatch}
    ensures NativeStatus(h, vid, localName, slugMap, intl) == DirectMetaStatus(h.products[vid].meta, LocalKey(localName), TargetKey(taxonomy), slugMap, intl)
  {
    var meta := h.products[vid].meta;
    var localKey := LocalKey(localName);
    var wcAttributes := VariationAttributeMeta(h, vid);
    assert localKey in wcAttributes <==> localKey in meta;
    assert localKey in meta ==> wcAttributes[localKey] == meta[localKey];
    assert MetaText(meta, localKey) == (if localKey in meta then meta[localKey] else "");
  }

  /** `try_wc_native_update`. */
  method TryWcNativeUpdate(store: Store, vid: int, taxonomy: string, localName: string, slugMap: SlugMap, intl: Intl)
    returns (status: Status)
    requires vid in store.st.products
    modifies store
    ensures status == NativeStatus(old(store.st), vid, localName, slugMap, intl)
    ensures store.st == WithMeta(old(store.st), vid, DirectMetaResult(old(store.st.products[vid].meta), LocalKey(localName), TargetKey(taxonomy), status))
  {
    WithOwnMeta(store.st, vid);
    var wcAttributes := VariationAttributeMeta(store.st, vid);
    var localKey := LocalKey(localName);
    if localKey !in wcAttributes {
      return MissingSourceMeta;
    }
    var currentValue := wcAttributes[localKey];
    if currentValue == "" {
      return MissingSourceMeta;
    }
    var normalized := Normalize(currentValue, intl);
    if !HasKey(slugMap, normalized) {
      return NoSlugMatch;
    }
    var targetKey := TargetKey(taxonomy);
    var newSlug := Get(slugMap, normalized).value;
    MoveMeta(store, vid, localKey, targetKey, newSlug);
    return Updated(newSlug);
  }

  // ---------------------------------------------------------------------
  // The chain and the summary
  // ---------------------------------------------------------------------

  /** Why a variation was skipped. */
  datatype SkipReason = SkipMissingSourceMeta | SkipNoSlugMatch | SkipAlreadyOk

  /** What happened to one child id: not a variation, updated by strategy number `strategy` (1 to 4), or skipped. */
  datatype ChildOutcome = NotVariation | UpdatedBy(strategy: nat) | Skipped(reason: SkipReason)

  /**
   * The chain over the strategies' results: strategy 1's status and meta,
   * strategy 2's status and variation, strategy 3's status and meta,
   * strategy 4's status and meta.  A later strategy's result is consulted
   * only when every earlier one neither updated nor threw.
   */
  function Chain(h: HostState, vid: int, s1: Status, m1: map<string, string>, s2: (Result<Status>, Product),
                 s3: (Result<Status>, map<string, string>), s4: Status, m4: map<string, string>): (Result<ChildOutcome>, HostState)
    requires vid in h.products
  {
    if s1.Updated? then (Ok(UpdatedBy(1)), WithMeta(h, vid, m1))
    else if s1 == AlreadyOk then (Ok(Skipped(SkipAlreadyOk)), h)
    else Fallbacks(h, vid, s1, s2, s3, s4, m4)
  }

  /** Strategies 2 to 4, reached once strategy 1 reported `missing_source_meta` or `no_slug_match` (`s1`). */
  function Fallbacks(h: HostState, vid: int, s1: Status, s2: (Result<Status>, Product),
                     s3: (Result<Status>, map<string, string>), s4: Status, m4: map<string, string>): (Result<ChildOutcome>, HostState)
    requires vid in h.products
  {
    if s2.0.Throw? then (Throw(s2.0.error), h)
    else if s2.0.value.Updated? then (Ok(UpdatedBy(2)), h.(products := h.products[vid := s2.1]))
    else LastStrategies(h, vid, s1, s3, s4, m4)
  }

  /** Strategies 3 and 4, reached once strategy 2 neither updated nor threw. */
  function LastStrategies(h: HostState, vid: int, s1: Status, s3: (Result<Status>, map<string, string>), s4: Status, m4: map<string, string>): (Result<ChildOutcome>, HostState)
    requires vid in h.products
  {
    if s3.0.Throw? then (Throw(s3.0.error), h)
    else if s3.0.value.Updated? then (Ok(UpdatedBy(3)), WithMeta(h, vid, s3.1))
    else if s4.Updated? then (Ok(UpdatedBy(4)), WithMeta(h, vid, m4))
    else (Ok(Skipped(if s1 == MissingSourceMeta then SkipMissingSourceMeta else SkipNoSlugMatch)), h)
  }

  /** One child through the strategy chain: the outcome, or the error that escaped, and the state after it. */
  function RemapChild(h: HostState, pid: int, vid: int, taxonomy: string, localName: string, slugMap: SlugMap, intl: Intl): (Result<ChildOutcome>, HostState)
    requires pid in h.products
  {
    if !IsVariationId(h, vid) then (Ok(NotVariation), h)
    else
      var v := h.products[vid];
      var localKey := LocalKey(localName);
      var targetKey := TargetKey(taxonomy);
      var s1 := DirectMetaStatus(v.meta, localKey, targetKey, slugMap, intl);
      var s4 := NativeStatus(h, vid, localName, slugMap, intl);
      Chain(h, vid, s1, DirectMetaResult(v.meta, localKey, targetKey, s1),
            AttributesUpdate(v, taxonomy, SanitizeTitle(localName), slugMap, intl),
            InferenceUpdate(h, vid, pid, taxonomy, localName, slugMap, intl),
            s4, DirectMetaResult(v.meta, localKey, targetKey, s4))
  }

  lemma ChainFrame(h: HostState, vid: int, s1: Status, m1: map<string, string>, s2: (Result<Status>, Product),
                   s3: (Result<Status>, map<string, string>), s4: Status, m4: map<string, string>)
    requires vid in h.products
    requires s2.0.Ok? && s2.0.value.Updated? ==> s2.1 == h.products[vid].(attributes := s2.1.attributes, meta := s2.1.meta)
    ensures var r := Chain(h, vid, s1, m1, s2, s3, s4, m4);
      OnlyProductChanged(h, r.1, vid) && (!(r.0.Ok? && r.0.value.UpdatedBy?) ==> r.1 == h)
  {
    var r := Chain(h, vid, s1, m1, s2, s3, s4, m4);
    if s1.Updated? {
      WithMetaChangesOnly(h, vid, m1);
    } else if s1 != AlreadyOk && s2.0.Ok? && s2.0.value.Updated? {
      PutProductChangesOnly(h, vid, s2.1);
    } else if s1 != AlreadyOk && s2.0.Ok? && s3.0.Ok? && s3.0.value.Updated? {
      WithMetaChangesOnly(h, vid, s3.1);
    } else if s1 != AlreadyOk && s2.0.Ok? && s3.0.Ok? && s4.Updated? {
      WithMetaChangesOnly(h, vid, m4);
    } else {
      assert r.1 == h;
      OnlyProductChangedNothing(h, vid);
    }
  }

  /**
   * One child changes nothing but that child's attributes and meta, and
   * changes nothing at all unless some strategy updated it.
   */
  lemma RemapChildFrame(h: HostState, pid: int, vid: int, taxonomy: string, localName: string, slugMap: SlugMap, intl: Intl)
    requires pid in h.products
    ensures var r := RemapChild(h, pid, vid, taxonomy, localName, slugMap, intl);
      OnlyProductChanged(h, r.1, vid) &&
      (!(r.0.Ok? && r.0.value.UpdatedBy?) ==> r.1 == h)
  {
    if IsVariationId(h, vid) {
      var v := h.products[vid];
      AttributesUpdateWrites(v, taxonomy, SanitizeTitle(localName), slugMap, intl);
      var s1 := DirectMetaStatus(v.meta, LocalKey(localName), TargetKey(taxonomy), slugMap, intl);
      var s4 := NativeStatus(h, vid, localName, slugMap, intl);
      ChainFrame(h, vid, s1, DirectMetaResult(v.meta, LocalKey(localName), TargetKey(taxonomy), s1),
                 AttributesUpdate(v, taxonomy, SanitizeTitle(localName), slugMap, intl),
                 InferenceUpdate(h, vid, pid, taxonomy, localName, slugMap, intl),
                 s4, DirectMetaResult(v.meta, LocalKey(localName), TargetKey(taxonomy), s4));
    }
  }

  lemma ChainOutcome(h: HostState, vid: int, s1: Status, m1: map<string, string>, s2: (Result<Status>, Product),
                     s3: (Result<Status>, map<string, string>), s4: Status, m4: map<string, string>)
    requires vid in h.products
    ensures var r := Chain(h, vid, s1, m1, s2, s3, s4, m4).0;
      (r.Ok? && r.value.UpdatedBy? ==> 1 <= r.value.strategy <= 4) &&
      r != Ok(NotVariation) &&
      (r == Ok(UpdatedBy(1)) <==> s1.Updated?) &&
      (r == Ok(Skipped(SkipAlreadyOk)) <==> s1 == AlreadyOk) &&
      (r == Ok(UpdatedBy(2)) <==> !s1.Updated? && s1 != AlreadyOk && s2.0.Ok? && s2.0.value.Updated?) &&
      (r == Ok(UpdatedBy(3)) <==> !s1.Updated? && s1 != AlreadyOk && s2.0.Ok? && !s2.0.value.Updated? &&
                                  s3.0.Ok? && s3.0.value.Updated?) &&
      (r == Ok(UpdatedBy(4)) <==> !s1.Updated? && s1 != AlreadyOk && s2.0.Ok? && !s2.0.value.Updated? &&
                                  s3.0.Ok? && !s3.0.value.Updated? && s4.Updated?) &&
      (r == Ok(Skipped(SkipMissingSourceMeta)) <==> s1 == MissingSourceMeta && s2.0.Ok? && !s2.0.value.Updated? &&
                                                    s3.0.Ok? && !s3.0.value.Updated? && !s4.Updated?) &&
      (r == Ok(Skipped(SkipNoSlugMatch)) <==> !s1.Updated? && s1 != AlreadyOk && s1 != MissingSourceMeta &&
                                              s2.0.Ok? && !s2.0.value.Updated? &&
                                              s3.0.Ok? && !s3.0.value.Updated? && !s4.Updated?)
  {
  }

  /**
   * The outcome of one child: `NotVariation` exactly for ids that do not
   * load as variations, `UpdatedBy(1)` and `Skipped(already_ok)` exactly
   * when strategy 1 reports `updated` or `already_ok`, and otherwise a
   * strategy from 2 to 4 or a skip.  A child that no strategy updated is
   * skipped as `missing_source_meta` exactly when strategy 1 said so, and
   * as `no_slug_match` exactly when strategy 1 said that.
   */
  lemma RemapChildOutcome(h: HostState, pid: int, vid: int, taxonomy: string, localName: string, slugMap: SlugMap, intl: Intl)
    requires pid in h.products
    ensures var r := RemapChild(h, pid, vid, taxonomy, localName, slugMap, intl).0;
      (r.Ok? && r.value.UpdatedBy? ==> 1 <= r.value.strategy <= 4) &&
      (r == Ok(NotVariation) <==> !IsVariationId(h, vid)) &&
      (r == Ok(UpdatedBy(1)) <==>
        IsVariationId(h, vid) && DirectMetaStatus(h.products[vid].meta, LocalKey(localName), TargetKey(taxonomy), slugMap, intl).Updated?) &&
      (r == Ok(Skipped(SkipAlreadyOk)) <==>
        IsVariationId(h, vid) && DirectMetaStatus(h.products[vid].meta, LocalKey(localName), TargetKey(taxonomy), slugMap, intl) == AlreadyOk)
    ensures var r := RemapChild(h, pid, vid, taxonomy, localName, slugMap, intl).0;
      IsVariationId(h, vid) ==>
        var v := h.products[vid];
        var s1 := DirectMetaStatus(v.meta, LocalKey(localName), TargetKey(taxonomy), slugMap, intl);
        var s2 := AttributesUpdate(v, taxonomy, SanitizeTitle(localName), slugMap, intl).0;
        var s3 := InferenceUpdate(h, vid, pid, taxonomy, localName, slugMap, intl).0;
        var s4 := NativeStatus(h, vid, localName, slugMap, intl);
        var noneUpdated := s2.Ok? && !s2.value.Updated? && s3.Ok? && !s3.value.Updated? && !s4.Updated?;
        (r == Ok(Skipped(SkipMissingSourceMeta)) <==> s1 == MissingSourceMeta && noneUpdated) &&
        (r == Ok(Skipped(SkipNoSlugMatch)) <==> s1 == NoSlugMatch && noneUpdated)
  {
    if IsVariationId(h, vid) {
      var v := h.products[vid];
      var s1 := DirectMetaStatus(v.meta, LocalKey(localName), TargetKey(taxonomy), slugMap, intl);
      var s4 := NativeStatus(h, vid, localName, slugMap, intl);
      DirectMetaStatusCases(v.meta, LocalKey(localName), TargetKey(taxonomy), slugMap, intl);
      ChainOutcome(h, vid, s1, DirectMetaResult(v.meta, LocalKey(localName), TargetKey(taxonomy), s1),
                   AttributesUpdate(v, taxonomy, SanitizeTitle(localName), slugMap, intl),
                   InferenceUpdate(h, vid, pid, taxonomy, localName, slugMap, intl),
                   s4, DirectMetaResult(v.meta, LocalKey(localName), TargetKey(taxonomy), s4));
    }
  }

  /** Strategy 4 is never the one that updates a variation. */
  lemma NativeNeverUpdates(h: HostState, pid: int, vid: int, taxonomy: string, localName: string, slugMap: SlugMap, intl: Intl)
    requires pid in h.products
    ensures RemapChild(h, pid, vid, taxonomy, localName, slugMap, intl).0 != Ok(UpdatedBy(4))
  {
    if IsVariationId(h, vid) {
      var v := h.products[vid];
      var s1 := DirectMetaStatus(v.meta, LocalKey(localName), TargetKey(taxonomy), slugMap, intl);
      var s4 := NativeStatus(h, vid, localName, slugMap, intl);
      DirectMetaStatusCases(v.meta, LocalKey(localName), TargetKey(taxonomy), slugMap, intl);
      if s1 == MissingSourceMeta || s1 == NoSlugMatch {
        NativeRepeatsDirectMeta(h, vid, taxonomy, localName, slugMap, intl);
      }
      ChainOutcome(h, vid, s1, DirectMetaResult(v.meta, LocalKey(localName), TargetKey(taxonomy), s1),
                   AttributesUpdate(v, taxonomy, SanitizeTitle(localName), slugMap, intl),
                   InferenceUpdate(h, vid, pid, taxonomy, localName, slugMap, intl),
                   s4, DirectMetaResult(v.meta, LocalKey(localName), TargetKey(taxonomy), s4));
    }
  }

  /**
   * A variation whose local value has no slug-map entry but whose title or
   * SKU names an option is updated by strategy 3, and then holds both the
   * old local key and the new target key.
   */
  lemma InferenceLeavesBothKeys(h: HostState, pid: int, vid: int, taxonomy: string, localName: string, slugMap: SlugMap, intl: Intl)
    requires pid in h.products
    requires LocalKey(localName) != TargetKey(taxonomy)
    requires RemapChild(h, pid, vid, taxonomy, localName, slugMap, intl).0 == Ok(UpdatedBy(3))
    requires IsVariationId(h, vid) && DirectMetaStatus(h.products[vid].meta, LocalKey(localName), TargetKey(taxonomy), slugMap, intl) == NoSlugMatch
    ensures var after := RemapChild(h, pid, vid, taxonomy, localName, slugMap, intl).1;
      vid in after.products &&
      MetaText(after.products[vid].meta, LocalKey(localName)) == MetaText(h.products[vid].meta, LocalKey(localName)) != "" &&
      MetaText(after.products[vid].meta, TargetKey(taxonomy)) in Values(slugMap)
  {
    var v := h.products[vid];
    var s1 := DirectMetaStatus(v.meta, LocalKey(localName), TargetKey(taxonomy), slugMap, intl);
    var s3 := InferenceUpdate(h, vid, pid, taxonomy, localName, slugMap, intl);
    var s4 := NativeStatus(h, vid, localName, slugMap, intl);
    DirectMetaStatusCases(v.meta, LocalKey(localName), TargetKey(taxonomy), slugMap, intl);
    InferenceUpdateEffect(h, vid, pid, taxonomy, localName, slugMap, intl);
    ChainByInference(h, vid, s1, DirectMetaResult(v.meta, LocalKey(localName), TargetKey(taxonomy), s1),
                     AttributesUpdate(v, taxonomy, SanitizeTitle(localName), slugMap, intl),
                     s3, s4, DirectMetaResult(v.meta, LocalKey(localName), TargetKey(taxonomy), s4));
  }

  lemma ChainByInference(h: HostState, vid: int, s1: Status, m1: map<string, string>, s2: (Result<Status>, Product),
                         s3: (Result<Status>, map<string, string>), s4: Status, m4: map<string, string>)
    requires vid in h.products
    requires Chain(h, vid, s1, m1, s2, s3, s4, m4).0 == Ok(UpdatedBy(3))
    ensures s3.0.Ok? && s3.0.value.Updated? && Chain(h, vid, s1, m1, s2, s3, s4, m4).1 == WithMeta(h, vid, s3.1)
  {
  }

  /** `$reasons`. */
  datatype Reasons = Reasons(missingSourceMeta: nat, noSlugMatch: nat, alreadyOk: nat, fallbackUpdated: nat)

  /** `$updated`, `$skipped` and `$reasons` as the loop leaves them. */
  datatype Tally = Tally(updated: nat, skipped: nat, reasons: Reasons)

  const NoTally := Tally(0, 0, Reasons(0, 0, 0, 0))

  /** The counters after one child. */
  function Count(t: Tally, o: ChildOutcome): Tally
  {
    match o
    case NotVariation => t
    case UpdatedBy(strategy) =>
      t.(updated := t.updated + 1,
         reasons := if strategy >= 2 then t.reasons.(fallbackUpdated := t.reasons.fallbackUpdated + 1) else t.reasons)
    case Skipped(SkipAlreadyOk) => t.(skipped := t.skipped + 1, reasons := t.reasons.(alreadyOk := t.reasons.alreadyOk + 1))
    case Skipped(SkipMissingSourceMeta) => t.(skipped := t.skipped + 1, reasons := t.reasons.(missingSourceMeta := t.reasons.missingSourceMeta + 1))
    case Skipped(SkipNoSlugMatch) => t.(skipped := t.skipped + 1, reasons := t.reasons.(noSlugMatch := t.reasons.noSlugMatch + 1))
  }

  /** The three skip reasons add up to `skipped`, and fallbacks are a part of `updated`. */
  predicate Balanced(t: Tally)
  {
    t.reasons.missingSourceMeta + t.reasons.noSlugMatch + t.reasons.alreadyOk == t.skipped &&
    t.reasons.fallbackUpdated <= t.updated
  }

  /** Counting one outcome keeps the reasons balanced and counts every variation once. */
  lemma CountStep(t: Tally, o: ChildOutcome)
    requires Balanced(t)
    ensures Balanced(Count(t, o))
    ensures Count(t, o).updated + Count(t, o).skipped == t.updated + t.skipped + (if o.NotVariation? then 0 else 1)
  {
  }

  /** Counting one outcome other than strategy 4 adds a fallback exactly for strategies 2 and 3. */
  lemma FallbackStep(t: Tally, o: ChildOutcome)
    requires o != UpdatedBy(4)
    requires o.UpdatedBy? ==> 1 <= o.strategy <= 4
    ensures Count(t, o).reasons.fallbackUpdated == t.reasons.fallbackUpdated + (if o == UpdatedBy(2) || o == UpdatedBy(3) then 1 else 0)
  {
  }

  /** Where the children loop stands: the error that escaped, if any, the counters and the state. */
  datatype RemapState = RemapState(failure: Option<Throwable>, tally: Tally, host: HostState)

  /** The children loop of `update_variations` over `children`, stopping at an escaping error. */
  function RemapChildren(h: HostState, pid: int, children: seq<int>, taxonomy: string, localName: string, slugMap: SlugMap, intl: Intl): (r: RemapState)
    requires pid in h.products
    ensures OnlyAttributesAndMetaChanged(h, r.host)
    decreases |children|, 1
  {
    if |children| == 0 then
      assert h == h.(products := h.products);
      RemapState(None, NoTally, h)
    else RemapLast(h, pid, children, taxonomy, localName, slugMap, intl)
  }

  /** The loop's last iteration: the loop over all children but the last, then the last one unless an error escaped. */
  function RemapLast(h: HostState, pid: int, children: seq<int>, taxonomy: string, localName: string, slugMap: SlugMap, intl: Intl): (r: RemapState)
    requires pid in h.products && |children| > 0
    ensures OnlyAttributesAndMetaChanged(h, r.host)
    decreases |children|, 0
  {
    var prev := RemapChildren(h, pid, children[..|children| - 1], taxonomy, localName, slugMap, intl);
    if prev.failure.Some? then prev
    else
      var step := RemapChild(prev.host, pid, children[|children| - 1], taxonomy, localName, slugMap, intl);
      RemapChildFrame(prev.host, pid, children[|children| - 1], taxonomy, localName, slugMap, intl);
      OnlyAttributesAndMetaChain(h, prev.host, step.1, children[|children| - 1]);
      match step.0
      case Throw(e) => RemapState(Some(e), prev.tally, step.1)
      case Ok(o) => RemapState(None, Count(prev.tally, o), step.1)
  }

  /** How many of `children` load as variations in `h`. */
  function VariationCount(h: HostState, children: seq<int>): nat
  {
    if |children| == 0 then 0
    else VariationCount(h, children[..|children| - 1]) + (if IsVariationId(h, children[|children| - 1]) then 1 else 0)
  }


  /**
   * The counters of a completed loop: every child that loads as a
   * variation is counted once as updated or skipped, the three skip
   * reasons add up to `skipped`, and fallbacks are a part of `updated`.
   */
  lemma {:induction false} RemapChildrenCounts(h: HostState, pid: int, children: seq<int>, taxonomy: string, localName: string, slugMap: SlugMap, intl: Intl)
    requires pid in h.products
    ensures var r := RemapChildren(h, pid, children, taxonomy, localName, slugMap, intl);
      Balanced(r.tally) &&
      (r.failure.None? ==> r.tally.updated + r.tally.skipped == VariationCount(h, children))
    decreases |children|
  {
    if |children| > 0 {
      var front := children[..|children| - 1];
      var vid := children[|children| - 1];
      RemapChildrenCounts(h, pid, front, taxonomy, localName, slugMap, intl);
      var prev := RemapChildren(h, pid, front, taxonomy, localName, slugMap, intl);
      if prev.failure.None? {
        var step := RemapChild(prev.host, pid, vid, taxonomy, localName, slugMap, intl);
        RemapChildOutcome(prev.host, pid, vid, taxonomy, localName, slugMap, intl);
        assert IsVariationId(prev.host, vid) == IsVariationId(h, vid);
        if step.0.Ok? {
          CountStep(prev.tally, step.0.value);
        }
      }
    }
  }

  /** Fallback successes come only from strategies 2 and 3, since strategy 4 never updates. */
  lemma {:induction false} RemapChildrenNoNativeUpdates(h: HostState, pid: int, children: seq<int>, taxonomy: string, localName: string, slugMap: SlugMap, intl: Intl)
    requires pid in h.products
    ensures var r := RemapChildren(h, pid, children, taxonomy, localName, slugMap, intl);
      r.tally.reasons.fallbackUpdated == UpdatedByCount(h, pid, children, taxonomy, localName, slugMap, intl, 2) +
                                         UpdatedByCount(h, pid, children, taxonomy, localName, slugMap, intl, 3)
    decreases |children|
  {
    if |children| > 0 {
      var front := children[..|children| - 1];
      var vid := children[|children| - 1];
      RemapChildrenNoNativeUpdates(h, pid, front, taxonomy, localName, slugMap, intl);
      var prev := RemapChildren(h, pid, front, taxonomy, localName, slugMap, intl);
      if prev.failure.None? {
        var step := RemapChild(prev.host, pid, vid, taxonomy, localName, slugMap, intl);
        NativeNeverUpdates(prev.host, pid, vid, taxonomy, localName, slugMap, intl);
        RemapChildOutcome(prev.host, pid, vid, taxonomy, localName, slugMap, intl);
        assert UpdatedByCount(h, pid, children, taxonomy, localName, slugMap, intl, 2) ==
               UpdatedByCount(h, pid, front, taxonomy, localName, slugMap, intl, 2) + (if step.0 == Ok(UpdatedBy(2)) then 1 else 0);
        assert UpdatedByCount(h, pid, children, taxonomy, localName, slugMap, intl, 3) ==
               UpdatedByCount(h, pid, front, taxonomy, localName, slugMap, intl, 3) + (if step.0 == Ok(UpdatedBy(3)) then 1 else 0);
        if step.0.Ok? {
          FallbackStep(prev.tally, step.0.value);
        }
      }
    }
  }

  /** How many children of a run were updated by strategy number `strategy`. */
  function UpdatedByCount(h: HostState, pid: int, children: seq<int>, taxonomy: string, localName: string, slugMap: SlugMap, intl: Intl, strategy: nat): nat
    requires pid in h.products
    decreases |children|
  {
    if |children| == 0 then 0
    else
      var front := children[..|children| - 1];
      var prev := RemapChildren(h, pid, front, taxonomy, localName, slugMap, intl);
      var before := UpdatedByCount(h, pid, front, taxonomy, localName, slugMap, intl, strategy);
      if prev.failure.Some? then before
      else
        var step := RemapChild(prev.host, pid, children[|children| - 1], taxonomy, localName, slugMap, intl);
        before + (if step.0 == Ok(UpdatedBy(strategy)) then 1 else 0)
  }

  /**
   * `round($updated / $total * 100, 2)`, computed exactly with halves
   * rounded up, and `0.0` for no children.
   */
  function Percent(updated: nat, total: nat): (p: real)
    ensures total == 0 ==> p == 0.0
    ensures updated <= total ==> 0.0 <= p <= 100.0
    ensures 0 < total && updated == total ==> p == 100.0
    ensures 0 < total ==> -0.005 < p - 100.0 * (updated as real) / (total as real) <= 0.005
  {
    if total == 0 then 0.0
    else
      var hundredths := (20000 * updated + total) / (2 * total);
      assert updated <= total ==> hundredths <= 10000 by {
        if updated <= total {
          DivBelow(20000 * updated + total, 2 * total, 10001);
        }
      }
      assert updated == total ==> hundredths == 10000 by {
        if updated == total {
          DivExact(2 * total, 10000, total);
          assert 20000 * updated + total == 2 * total * 10000 + total;
        }
      }
      RoundedHundredths(updated, total, hundredths);
      hundredths as real / 100.0
  }

  /** `hundredths`, rounded half up from `10000 * updated / total`, is within half a hundredth of the exact percentage. */
  lemma RoundedHundredths(updated: nat, total: nat, hundredths: int)
    requires 0 < total && hundredths == (20000 * updated + total) / (2 * total)
    ensures -0.005 < hundredths as real / 100.0 - 100.0 * (updated as real) / (total as real) <= 0.005
  {
    var a := 20000 * updated + total;
    var b := 2 * total;
    assert b * hundredths <= a < b * hundredths + b by {
      assert a == b * (a / b) + a % b;
    }
    var k := 2 * total * hundredths - 20000 * updated;
    assert -(total as int) < k <= total;
    var t := total as real;
    var h := hundredths as real;
    var u := updated as real;
    assert k as real == 2.0 * t * h - 20000.0 * u;
    ScaledError(h, u, t, k as real);
  }

  /** Dividing `-t < 200 * t * e <= t` by `200 * t`. */
  lemma ScaledError(h: real, u: real, t: real, k: real)
    requires t > 0.0 && k == 2.0 * t * h - 20000.0 * u && -t < k <= t
    ensures -0.005 < h / 100.0 - 100.0 * u / t <= 0.005
  {
    var e := h / 100.0 - 100.0 * u / t;
    assert h == 100.0 * (h / 100.0);
    assert 100.0 * u == t * (100.0 * u / t);
    assert k == 200.0 * t * e;
  }

  lemma DivBelow(a: nat, b: nat, c: nat)
    requires b > 0 && a < b * c
    ensures a / b < c
  {
    var q := a / b;
    assert q * b <= a;
    assert (c - q) * b == c * b - q * b;
    PositiveFactor(c - q, b);
  }

  lemma DivExact(b: nat, q: nat, r: nat)
    requires 0 <= r < b
    ensures (b * q + r) / b == q
  {
    var d := (b * q + r) / b;
    var m: int := (b * q + r) % b;
    assert b * d + m == b * q + r;
    assert (d - q) * b == r - m;
    assert m - r < b && r - m < b;
    SmallMultiple(d - q, b);
  }

  lemma PositiveFactor(x: int, b: int)
    requires b > 0 && x * b > 0
    ensures x > 0
  {
  }

  lemma SmallMultiple(x: int, b: int)
    requires b > 0 && x * b < b && 0 - x * b < b
    ensures x == 0
  {
  }

  /** What `update_variations` returns: the bare result for a non-variable parent, or the full summary. */
  datatype VariationReport =
    | NotVariable
    | Report(updated: nat, skipped: nat, totalVariations: nat, updatedPct: real, reasons: Reasons)

  /** `update_variations` on a parent product. */
  function UpdateVariationsResult(h: HostState, pid: int, taxonomy: string, localName: string, slugMap: SlugMap, intl: Intl): (r: (Result<VariationReport>, HostState))
    requires pid in h.products
    ensures !h.products[pid].IsVariable() ==> r == (Ok(NotVariable), h)
    ensures r.0.Ok? && r.0.value.Report? ==>
      r.0.value.totalVariations == |h.products[pid].children| &&
      r.0.value.updatedPct == Percent(r.0.value.updated, r.0.value.totalVariations)
  {
    if !h.products[pid].IsVariable() then (Ok(NotVariable), h)
    else
      var children := h.products[pid].children;
      var run := RemapChildren(h, pid, children, taxonomy, localName, slugMap, intl);
      if run.failure.Some? then (Throw(run.failure.value), run.host)
      else
        var t := run.tally;
        (Ok(Report(t.updated, t.skipped, |children|, Percent(t.updated, |children|), t.reasons)), run.host)
  }

  /**
   * The report of a variable parent: `updated + skipped` is the number of
   * children that load as variations, at most `total_variations`, the
   * reasons add up to `skipped`, and the percentage lies in [0, 100].
   */
  lemma UpdateVariationsReport(h: HostState, pid: int, taxonomy: string, localName: string, slugMap: SlugMap, intl: Intl)
    requires pid in h.products && h.products[pid].IsVariable()
    ensures var r := UpdateVariationsResult(h, pid, taxonomy, localName, slugMap, intl).0;
      r.Ok? ==>
        r.value.Report? &&
        r.value.updated + r.value.skipped == VariationCount(h, h.products[pid].children) <= r.value.totalVariations &&
        r.value.reasons.missingSourceMeta + r.value.reasons.noSlugMatch + r.value.reasons.alreadyOk == r.value.skipped &&
        r.value.reasons.fallbackUpdated <= r.value.updated &&
        0.0 <= r.value.updatedPct <= 100.0
  {
    var children := h.products[pid].children;
    RemapChildrenCounts(h, pid, children, taxonomy, localName, slugMap, intl);
    VariationCountBound(h, children);
  }

  lemma {:induction false} VariationCountBound(h: HostState, children: seq<int>)
    ensures VariationCount(h, children) <= |children|
    decreases |children|
  {
    if |children| > 0 {
      VariationCountBound(h, children[..|children| - 1]);
    }
  }

  /** `update_variations` changes nothing but the attributes and meta of products. */
  lemma UpdateVariationsFrame(h: HostState, pid: int, taxonomy: string, localName: string, slugMap: SlugMap, intl: Intl)
    requires pid in h.products
    ensures OnlyAttributesAndMetaChanged(h, UpdateVariationsResult(h, pid, taxonomy, localName, slugMap, intl).1)
  {
    if !h.products[pid].IsVariable() {
      assert h == h.(products := h.products);
    }
  }

  /** `update_variations`. */
  method UpdateVariations(store: Store, pid: int, taxonomy: string, localName: string, slugMap: SlugMap, intl: Intl)
    returns (r: Result<VariationReport>)
    requires pid in store.st.products
    modifies store
    ensures (r, store.st) == UpdateVariationsResult(old(store.st), pid, taxonomy, localName, slugMap, intl)
  {
    if !store.st.products[pid].IsVariable() {
      return Ok(NotVariable);
    }
    ghost var h0 := store.st;
    var localKey := LocalKey(localName);
    var targetKey := TargetKey(taxonomy);
    var variationIds := store.st.products[pid].children;
    var total := |variationIds|;
    var tally := NoTally;
    for i := 0 to |variationIds|
      invariant RemapChildren(h0, pid, variationIds[..i], taxonomy, localName, slugMap, intl) == RemapState(None, tally, store.st)
      invariant pid in store.st.products
    {
      assert variationIds[..i + 1][..i] == variationIds[..i];
      var vid := variationIds[i];
      ghost var step := RemapChild(store.st, pid, vid, taxonomy, localName, slugMap, intl);
      var outcome := ChildStrategies(store, pid, vid, taxonomy, localName, slugMap, intl);
      if outcome.Throw? {
        RemapStopsAtFailure(h0, pid, variationIds, i + 1, taxonomy, localName, slugMap, intl);
        assert h0.products[pid].children == variationIds;
        return Throw(outcome.error);
      }
      tally := Count(tally, outcome.value);
    }
    assert variationIds[..|variationIds|] == variationIds;
    return Ok(Report(tally.updated, tally.skipped, total, Percent(tally.updated, total), tally.reasons));
  }

  /** The body of `update_variations`' loop for one child id. */
  method ChildStrategies(store: Store, pid: int, vid: int, taxonomy: string, localName: string, slugMap: SlugMap, intl: Intl)
    returns (r: Result<ChildOutcome>)
    requires pid in store.st.products
    modifies store
    ensures (r, store.st) == RemapChild(old(store.st), pid, vid, taxonomy, localName, slugMap, intl)
  {
    if !IsVariationId(store.st, vid) {
      return Ok(NotVariation);
    }
    ghost var h0 := store.st;
    ghost var v := h0.products[vid];
    var localKey := LocalKey(localName);
    var targetKey := TargetKey(taxonomy);
    WithOwnMeta(h0, vid);
    var result := TryDirectMetaUpdate(store, vid, localKey, targetKey, slugMap, intl);
    if result.Updated? {
      return Ok(UpdatedBy(1));
    }
    assert store.st == h0;
    if result == AlreadyOk {
      return Ok(Skipped(SkipAlreadyOk));
    }
    r := FallbackStrategies(store, pid, vid, taxonomy, localName, slugMap, intl, result);
  }

  /** Strategies 2 to 4 of the loop body, after strategy 1 reported `result`. */
  method FallbackStrategies(store: Store, pid: int, vid: int, taxonomy: string, localName: string, slugMap: SlugMap, intl: Intl, result: Status)
    returns (r: Result<ChildOutcome>)
    requires pid in store.st.products && IsVariationId(store.st, vid)
    modifies store
    ensures var h0 := old(store.st);
      var v := h0.products[vid];
      var s4 := NativeStatus(h0, vid, localName, slugMap, intl);
      (r, store.st) == Fallbacks(h0, vid, result, AttributesUpdate(v, taxonomy, SanitizeTitle(localName), slugMap, intl),
                                 InferenceUpdate(h0, vid, pid, taxonomy, localName, slugMap, intl),
                                 s4, DirectMetaResult(v.meta, LocalKey(localName), TargetKey(taxonomy), s4))
  {
    ghost var h0 := store.st;
    ghost var v := h0.products[vid];
    ghost var s2 := AttributesUpdate(v, taxonomy, SanitizeTitle(localName), slugMap, intl);
    ghost var s3 := InferenceUpdate(h0, vid, pid, taxonomy, localName, slugMap, intl);
    ghost var s4 := NativeStatus(h0, vid, localName, slugMap, intl);
    ghost var m4 := DirectMetaResult(v.meta, LocalKey(localName), TargetKey(taxonomy), s4);
    AttributesUpdateFailure(v, taxonomy, SanitizeTitle(localName), slugMap, intl);
    PutOwnProduct(h0, vid);
    var fallbackResult := TryVariationAttributesUpdate(store, vid, taxonomy, localName, slugMap, intl);
    if fallbackResult.Throw? {
      return Throw(fallbackResult.error);
    }
    if fallbackResult.value.Updated? {
      return Ok(UpdatedBy(2));
    }
    assert store.st == h0;
    assert Fallbacks(h0, vid, result, s2, s3, s4, m4) == LastStrategies(h0, vid, result, s3, s4, m4);
    r := LastStrategiesCall(store, pid, vid, taxonomy, localName, slugMap, intl, result);
    assert (r, store.st) == LastStrategies(h0, vid, result, s3, s4, m4);
  }

  /** Strategies 3 and 4 of the loop body, after strategy 1 reported `result` and strategy 2 did nothing. */
  method LastStrategiesCall(store: Store, pid: int, vid: int, taxonomy: string, localName: string, slugMap: SlugMap, intl: Intl, result: Status)
    returns (r: Result<ChildOutcome>)
    requires pid in store.st.products && IsVariationId(store.st, vid)
    modifies store
    ensures var h0 := old(store.st);
      var s4 := NativeStatus(h0, vid, localName, slugMap, intl);
      (r, store.st) == LastStrategies(h0, vid, result, InferenceUpdate(h0, vid, pid, taxonomy, localName, slugMap, intl),
                                      s4, DirectMetaResult(h0.products[vid].meta, LocalKey(localName), TargetKey(taxonomy), s4))
  {
    ghost var h0 := store.st;
    InferenceUpdateEffect(h0, vid, pid, taxonomy, localName, slugMap, intl);
    WithOwnMeta(h0, vid);
    var inferenceResult := TryInferenceUpdate(store, vid, pid, taxonomy, localName, slugMap, intl);
    if inferenceResult.Throw? {
      return Throw(inferenceResult.error);
    }
    if inferenceResult.value.Updated? {
      return Ok(UpdatedBy(3));
    }
    assert store.st == h0;
    var wcResult := TryWcNativeUpdate(store, vid, taxonomy, localName, slugMap, intl);
    if wcResult.Updated? {
      return Ok(UpdatedBy(4));
    }
    return Ok(Skipped(if result == MissingSourceMeta then SkipMissingSourceMeta else SkipNoSlugMatch));
  }

  /** Once a child's error escapes, the loop is over: later children change nothing. */
  lemma {:induction false} RemapStopsAtFailure(h: HostState, pid: int, children: seq<int>, n: nat, taxonomy: string, localName: string, slugMap: SlugMap, intl: Intl)
    requires pid in h.products
    requires n <= |children|
    requires RemapChildren(h, pid, children[..n], taxonomy, localName, slugMap, intl).failure.Some?
    ensures RemapChildren(h, pid, children, taxonomy, localName, slugMap, intl) == RemapChildren(h, pid, children[..n], taxonomy, localName, slugMap, intl)
    decreases |children|
  {
    if n < |children| {
      var front := children[..|children| - 1];
      assert front[..n] == children[..n];
      RemapStopsAtFailure(h, pid, front, n, taxonomy, localName, slugMap, intl);
    } else {
      assert children[..n] == children;
    }
  }

  // ---------------------------------------------------------------------
  // infer_candidates
  // ---------------------------------------------------------------------

  /** The `local2global_aggressive_max_title_length` default. */
  const MaxTitleLength := 160

  /** The `local2global_aggressive_max_candidates` default. */
  const MaxCandidates := 3

  /** Appends the slug of each entry whose key passes `test`, stopping once `max` candidates are collected. */
  function CollectEntries(entries: SlugMap, test: string -> bool, acc: seq<string>, max: nat): (r: seq<string>)
    requires |acc| < max
    ensures |acc| <= |r| <= max
    ensures r[..|acc|] == acc
    ensures forall i :: |acc| <= i < |r| ==> r[i] in Values(entries)
    decreases |entries|
  {
    if |entries| == 0 then acc
    else
      var acc' := if test(entries[0].0) then acc + [entries[0].1] else acc;
      if |acc'| >= max then acc'
      else
        var r := CollectEntries(entries[1..], test, acc', max);
        assert forall i :: |acc'| <= i < |r| ==> r[i] in Values(entries) by {
          forall i | |acc'| <= i < |r| ensures r[i] in Values(entries) {
            var j :| 0 <= j < |entries[1..]| && Values(entries[1..])[j] == r[i];
            assert Values(entries)[j + 1] == r[i];
          }
        }
        assert r[..|acc|] == r[..|acc'|][..|acc|];
        r
  }

  /** Appends the slug of each numeric token whose normalised form is a slug-map key, stopping at `max`. */
  function CollectTokens(tokens: seq<string>, slugMap: SlugMap, intl: Intl, acc: seq<string>, max: nat): (r: seq<string>)
    requires |acc| < max
    ensures |acc| <= |r| <= max
    ensures r[..|acc|] == acc
    ensures forall i :: |acc| <= i < |r| ==> r[i] in Values(slugMap)
    decreases |tokens|
  {
    if |tokens| == 0 then acc
    else
      var key := Normalize(tokens[0], intl);
      var slug := Get(slugMap, key);
      GetInValues(slugMap, key);
      var acc' := if slug.Some? then acc + [slug.value] else acc;
      if |acc'| >= max then acc'
      else
        var r := CollectTokens(tokens[1..], slugMap, intl, acc', max);
        assert r[..|acc|] == r[..|acc'|][..|acc|];
        assert forall i :: |acc| <= i < |acc'| ==> r[i] == r[..|acc'|][i] == slug.value;
        r
  }

  /** `mb_strtolower`, which the model leaves to a parameter except on `''`. */
  function MbLower(mbLower: string -> string, s: string): string
  {
    if s == "" then "" else mbLower(s)
  }

  /**
   * `infer_candidates`: slugs whose key occurs as a word of the lower-cased
   * title (titles over 160 characters are ignored), then slugs whose key
   * occurs in the lower-cased SKU, then slugs of numeric tokens of the
   * full title and SKU, at most three, without duplicates.  `mbLower`
   * stands for `mb_strtolower`, `wordMatch(k, t)` for the `\b`-anchored
   * match of `k` in `t`, and `numericTokens` for the `\d{1,4}(/\d{1,4})?`
   * tokens PCRE finds.
   */
  function InferCandidates(title: string, sku: string, slugMap: SlugMap, intl: Intl,
                           mbLower: string -> string, wordMatch: (string, string) -> bool, numericTokens: string -> seq<string>): (r: seq<string>)
    ensures |r| <= MaxCandidates
    ensures forall i, j :: 0 <= i < j < |r| ==> r[i] != r[j]
    ensures forall c :: c in r ==> c in Values(slugMap)
  {
    var titleForMatching := if |title| > MaxTitleLength then "" else title;
    var lowerTitle := MbLower(mbLower, titleForMatching);
    var phase1: seq<string> := if lowerTitle != "" then CollectEntries(slugMap, (k: string) => wordMatch(k, lowerTitle), [], MaxCandidates) else [];
    var lowerSku := MbLower(mbLower, sku);
    var phase2 := if |phase1| < MaxCandidates && lowerSku != "" then CollectEntries(slugMap, (k: string) => Contains(lowerSku, k), phase1, MaxCandidates) else phase1;
    var phase3 := if |phase2| < MaxCandidates then CollectTokens(numericTokens(title + " " + sku), slugMap, intl, phase2, MaxCandidates) else phase2;
    assert forall c :: c in phase3 ==> c in Values(slugMap) by {
      forall c | c in phase3 ensures c in Values(slugMap) {
        var i :| 0 <= i < |phase3| && phase3[i] == c;
        if i >= |phase2| {
        } else if i >= |phase1| {
          assert phase3[..|phase2|] == phase2;
          assert phase2[i] == c;
        } else {
          assert phase3[..|phase2|] == phase2;
          assert phase2[..|phase1|] == phase1;
          assert phase1[i] == c;
        }
      }
    }
    Unique(phase3)
  }

  /** A title longer than 160 characters takes no part in the word search: the result is that of an empty title with the same numeric tokens. */
  lemma InferCandidatesIgnoresLongTitle(title: string, sku: string, slugMap: SlugMap, intl: Intl,
                                        mbLower: string -> string, wordMatch: (string, string) -> bool, numericTokens: string -> seq<string>)
    requires |title| > MaxTitleLength
    requires numericTokens(title + " " + sku) == numericTokens(" " + sku)
    ensures InferCandidates(title, sku, slugMap, intl, mbLower, wordMatch, numericTokens) ==
            InferCandidates("", sku, slugMap, intl, mbLower, wordMatch, numericTokens)
  {
    assert "" + " " + sku == " " + sku;
  }
}
