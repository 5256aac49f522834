/**
 * The admin wizard (`assets/js/admin.js`): the slugs and taxonomy names
 * it builds, the Levenshtein similarity it matches terms by, and the
 * mapping it builds from a discovered attribute and posts to `/map`.
 *
 * `String.prototype.normalize('NFD')` is a parameter `nfd`; everything
 * after it is modelled exactly for the characters it keeps.
 */
module Wizard {
  import opened PhpCore
  import opened PhpString
  import opened Sanitize
  import opened TermResolver
  import opened Mapping

  // ---------------------------------------------------------------------
  // slugify

  /** `[a-z0-9]`. */
  predicate IsSlugChar(c: char)
  {
    'a' <= c <= 'z' || '0' <= c <= '9'
  }

  predicate IsNotSlugChar(c: char)
  {
    !IsSlugChar(c)
  }

  predicate IsNotDash(c: char)
  {
    c != '-'
  }

  /** `[a-z0-9-]*`. */
  predicate AllSlugOrDash(s: string)
  {
    forall i :: 0 <= i < |s| ==> IsSlugChar(s[i]) || s[i] == '-'
  }

  /** No `--` anywhere. */
  predicate NoDoubleDash(s: string)
  {
    forall i :: 0 <= i < |s| - 1 ==> !(s[i] == '-' && s[i + 1] == '-')
  }

  /** What `slugify` returns: `[a-z0-9-]`, no `-` at either end, no `--`. */
  predicate IsSlug(s: string)
  {
    AllSlugOrDash(s) && TrimmedBy(s, IsDash) && NoDoubleDash(s)
  }

  /** The combining marks `/[̀-ͯ]/g` removes. */
  predicate IsNotCombiningMark(c: char)
  {
    !('̀' <= c <= 'ͯ')
  }

  /** A decomposition that leaves strings of `[a-z0-9-]` alone, as NFD does. */
  ghost predicate KeepsSlugs(nfd: string -> string)
  {
    forall s :: AllSlugOrDash(s) ==> nfd(s) == s
  }

  /** `.replace(/[^a-z0-9]+/g, '-')`: each maximal run of other characters becomes one `-`. */
  function ReplaceRuns(s: string): (r: string)
    ensures AllSlugOrDash(r) && NoDoubleDash(r)
    ensures r != [] ==> s != [] && (r[0] == '-' <==> IsNotSlugChar(s[0]))
    ensures r == [] <==> s == []
    decreases |s|
  {
    if s == [] then []
    else if IsSlugChar(s[0]) then [s[0]] + ReplaceRuns(s[1..])
    else
      var run := LeadingCount(s[1..], IsNotSlugChar);
      var rest := s[1 + run..];
      assert rest != [] ==> IsSlugChar(rest[0]) by {
        if rest != [] {
          assert rest[0] == s[1..][run];
        }
      }
      "-" + ReplaceRuns(rest)
  }

  /** Characters of `[a-z0-9]` in front pass through the replacement unchanged. */
  lemma {:induction false} ReplaceRunsKeepsPrefix(x: string, y: string)
    requires forall i :: 0 <= i < |x| ==> IsSlugChar(x[i])
    ensures ReplaceRuns(x + y) == x + ReplaceRuns(y)
    decreases |x|
  {
    if x == [] {
      assert x + y == y;
    } else {
      assert (x + y)[0] == x[0] && (x + y)[1..] == x[1..] + y;
      assert forall i :: 0 <= i < |x[1..]| ==> x[1..][i] == x[i + 1];
      ReplaceRunsKeepsPrefix(x[1..], y);
    }
  }

  /** A maximal run of characters outside `[a-z0-9]` becomes exactly one `-`. */
  lemma ReplaceRunsOfRun(run: string, y: string)
    requires run != [] && forall i :: 0 <= i < |run| ==> IsNotSlugChar(run[i])
    requires y == [] || IsSlugChar(y[0])
    ensures ReplaceRuns(run + y) == "-" + ReplaceRuns(y)
  {
    var s := run + y;
    var tail := run[1..];
    assert s[1..] == tail + y;
    assert forall i :: 0 <= i < |tail| ==> IsNotSlugChar(tail[i]) by {
      assert forall i :: 0 <= i < |tail| ==> tail[i] == run[i + 1];
    }
    if y == [] {
      assert tail + y == tail;
      LeadingCountAll(tail, IsNotSlugChar);
    } else {
      LeadingCountPrefix(tail, y, IsNotSlugChar);
    }
    assert s[1 + |tail|..] == y;
  }

  /**
   * The replacement on any string cut at its first run of other characters:
   * the `[a-z0-9]` part is kept, the run becomes one `-`, and the rest is
   * replaced the same way.
   */
  lemma ReplaceRunsSplit(x: string, run: string, y: string)
    requires forall i :: 0 <= i < |x| ==> IsSlugChar(x[i])
    requires run != [] && forall i :: 0 <= i < |run| ==> IsNotSlugChar(run[i])
    requires y == [] || IsSlugChar(y[0])
    ensures ReplaceRuns(x + run + y) == x + "-" + ReplaceRuns(y)
  {
    var rest := run + y;
    var replaced := ReplaceRuns(y);
    assert x + run + y == x + rest;
    ReplaceRunsOfRun(run, y);
    assert ReplaceRuns(rest) == "-" + replaced;
    ReplaceRunsKeepsPrefix(x, rest);
    assert x + ("-" + replaced) == x + "-" + replaced;
  }

  /** A string of `[a-z0-9-]` without `--` is left as it is. */
  lemma {:induction false} ReplaceRunsOfSlug(s: string)
    requires AllSlugOrDash(s) && NoDoubleDash(s)
    ensures ReplaceRuns(s) == s
    decreases |s|
  {
    if s != [] {
      var tail := s[1..];
      assert AllSlugOrDash(tail) && NoDoubleDash(tail) by {
        assert forall i :: 0 <= i < |tail| ==> tail[i] == s[i + 1];
      }
      ReplaceRunsOfSlug(tail);
      if !IsSlugChar(s[0]) {
        assert LeadingCount(tail, IsNotSlugChar) == 0 by {
          if tail != [] {
            assert s[1] == tail[0];
          }
        }
        assert s[1 + 0..] == tail;
        assert s == "-" + tail;
      }
    }
  }

  /** `.replace(/-{2,}/g, '-')`. */
  function CollapseDashes(s: string): (r: string)
    ensures NoDoubleDash(s) ==> r == s
    decreases |s|
  {
    if s == [] then []
    else if s[0] != '-' then [s[0]] + CollapseDashes(s[1..])
    else
      var run := LeadingCount(s[1..], IsDash);
      assert NoDoubleDash(s) ==> run == 0 by {
        if NoDoubleDash(s) && |s| > 1 {
          assert s[1..][0] == s[1];
        }
      }
      assert NoDoubleDash(s) ==> NoDoubleDash(s[1..]) by {
        if NoDoubleDash(s) {
          var tail := s[1..];
          assert forall i :: 0 <= i < |tail| ==> tail[i] == s[i + 1];
        }
      }
      "-" + CollapseDashes(s[1 + run..])
  }

  /** `slugify(value)` on a string, `nfd` standing for `.normalize('NFD')`. */
  function Slugify(value: string, nfd: string -> string): string
  {
    CollapseDashes(TrimDashes(ReplaceRuns(Lower(Filter(nfd(value), IsNotCombiningMark)))))
  }

  /** A contiguous piece of a string keeps its characters and has no `--` if the string has none. */
  lemma SliceKeepsSlug(s: string, a: nat, b: nat)
    requires a <= b <= |s|
    requires AllSlugOrDash(s) && NoDoubleDash(s)
    ensures AllSlugOrDash(s[a..b]) && NoDoubleDash(s[a..b])
  {
    assert forall i :: 0 <= i < b - a ==> s[a..b][i] == s[a + i];
  }

  /** `trim($s, '-')` takes a contiguous piece of `s`. */
  lemma TrimDashesSlice(s: string)
    ensures exists a: nat, b: nat :: a <= b <= |s| && TrimDashes(s) == s[a..b]
  {
    var a := LeadingCount(s, IsDash);
    var rest := s[a..];
    var b := TrailingCount(rest, IsDash);
    assert rest[..|rest| - b] == s[a..|s| - b];
  }

  /** `slugify` returns only `[a-z0-9-]`, never a `-` at either end and never `--`. */
  lemma SlugifyShape(value: string, nfd: string -> string)
    ensures IsSlug(Slugify(value, nfd))
  {
    var runs := ReplaceRuns(Lower(Filter(nfd(value), IsNotCombiningMark)));
    TrimDashesSlice(runs);
    var a: nat, b: nat :| a <= b <= |runs| && TrimDashes(runs) == runs[a..b];
    SliceKeepsSlug(runs, a, b);
  }

  /** A slug is its own slug. */
  lemma SlugifyOfSlug(s: string, nfd: string -> string)
    requires KeepsSlugs(nfd) && IsSlug(s)
    ensures Slugify(s, nfd) == s
  {
    assert forall i :: 0 <= i < |s| ==> IsNotCombiningMark(s[i]);
    assert Filter(s, IsNotCombiningMark) == s;
    assert IsLower(s);
    LowerIsLower(s);
    ReplaceRunsOfSlug(s);
  }

  /** `slugify` is idempotent. */
  lemma SlugifyIdempotent(value: string, nfd: string -> string)
    requires KeepsSlugs(nfd)
    ensures Slugify(Slugify(value, nfd), nfd) == Slugify(value, nfd)
  {
    SlugifyShape(value, nfd);
    SlugifyOfSlug(Slugify(value, nfd), nfd);
  }

  /** `normalizeString(value)`: the slug without its dashes. */
  function NormalizeString(value: string, nfd: string -> string): (r: string)
    ensures forall i :: 0 <= i < |r| ==> IsSlugChar(r[i])
  {
    var slug := Slugify(value, nfd);
    SlugifyShape(value, nfd);
    FilterSubset(slug, IsNotDash);
    var r := Filter(slug, IsNotDash);
    assert forall i :: 0 <= i < |r| ==> r[i] in slug;
    r
  }

  // ---------------------------------------------------------------------
  // ensurePaPrefix

  const PaPrefix := "pa_"

  /** `ensurePaPrefix(value)`. */
  function EnsurePaPrefix(value: string, nfd: string -> string): string
  {
    if value == "" then ""
    else if StartsWith(value, PaPrefix) then PaPrefix + Slugify(value[3..], nfd)
    else PaPrefix + Slugify(value, nfd)
  }

  /**
   * The empty string stays empty; anything else becomes `pa_` followed by
   * a slug (of the rest after one leading `pa_`, if any), so no `_` is
   * left after the prefix.
   */
  lemma EnsurePaPrefixShape(value: string, nfd: string -> string)
    ensures var r := EnsurePaPrefix(value, nfd);
      (value == "" <==> r == "") &&
      (value != "" ==> |r| >= 3 && r[..3] == PaPrefix && IsSlug(r[3..]) && '_' !in r[3..]) &&
      (StartsWith(value, PaPrefix) ==> r == PaPrefix + Slugify(value[3..], nfd)) &&
      (value != "" && !StartsWith(value, PaPrefix) ==> r == PaPrefix + Slugify(value, nfd))
  {
    var r := EnsurePaPrefix(value, nfd);
    if value != "" {
      var rest := if StartsWith(value, PaPrefix) then value[3..] else value;
      SlugifyShape(rest, nfd);
      assert r[3..] == Slugify(rest, nfd);
      assert r[..3] == PaPrefix;
      assert '_' !in r[3..] by {
        forall i | 0 <= i < |r[3..]| ensures r[3..][i] != '_' {
          assert IsSlugChar(r[3..][i]) || r[3..][i] == '-';
        }
      }
    }
  }

  /** `ensurePaPrefix` is idempotent. */
  lemma EnsurePaPrefixIdempotent(value: string, nfd: string -> string)
    requires KeepsSlugs(nfd)
    ensures EnsurePaPrefix(EnsurePaPrefix(value, nfd), nfd) == EnsurePaPrefix(value, nfd)
  {
    var r := EnsurePaPrefix(value, nfd);
    EnsurePaPrefixShape(value, nfd);
    if value != "" {
      assert StartsWith(r, PaPrefix);
      SlugifyOfSlug(r[3..], nfd);
    }
  }

  /** `sanitize_key` keeps the `pa_` of the wizard's taxonomy and drops the dashes of its slug. */
  lemma SanitizeKeyOfPaSlug(slug: string)
    requires AllSlugOrDash(slug)
    ensures SanitizeKey(PaPrefix + slug) == PaPrefix + Filter(slug, IsNotDash)
  {
    var r := PaPrefix + slug;
    assert IsLower(r) by {
      forall i | 0 <= i < |r| ensures !IsAsciiUpper(r[i]) {
        if i >= 3 {
          assert r[i] == slug[i - 3];
        }
      }
    }
    LowerIsLower(r);
    FilterAppend(PaPrefix, slug, IsKeyChar);
    assert Filter(PaPrefix, IsKeyChar) == PaPrefix;
    FilterSameOn(slug, IsKeyChar, IsNotDash);
  }

  /** `Filter` returns its input exactly when every character passes. */
  lemma FilterKeepsAll(s: string, p: char -> bool)
    ensures Filter(s, p) == s <==> forall i :: 0 <= i < |s| ==> p(s[i])
  {
    if exists i :: 0 <= i < |s| && !p(s[i]) {
      var i :| 0 <= i < |s| && !p(s[i]);
      FilterDrops(s, p, i);
    }
  }

  /**
   * What the server's `sanitize_taxonomy` makes of the wizard's taxonomy:
   * `sanitize_key` drops the dashes of the slug, so it is kept exactly
   * when the slug has none.
   */
  lemma WizardTaxonomyOnServer(value: string, nfd: string -> string)
    requires value != ""
    ensures var r := EnsurePaPrefix(value, nfd);
      SanitizeTaxonomy(r) == PaPrefix + Filter(r[3..], IsNotDash) &&
      (SanitizeTaxonomy(r) == r <==> '-' !in r[3..])
  {
    var r := EnsurePaPrefix(value, nfd);
    EnsurePaPrefixShape(value, nfd);
    var slug := r[3..];
    assert r == PaPrefix + slug;
    SanitizeKeyOfPaSlug(slug);
    var key := PaPrefix + Filter(slug, IsNotDash);
    assert StartsWith(key, PaPrefix) by {
      assert key[..3] == PaPrefix;
    }
    FilterKeepsAll(slug, IsNotDash);
    assert '-' !in slug <==> forall i :: 0 <= i < |slug| ==> IsNotDash(slug[i]);
    assert key == r <==> Filter(slug, IsNotDash) == slug;
  }

  /** Two predicates that agree on every character of `s` keep the same characters. */
  lemma {:induction false} FilterSameOn(s: string, p: char -> bool, q: char -> bool)
    requires forall i :: 0 <= i < |s| ==> p(s[i]) == q(s[i])
    ensures Filter(s, p) == Filter(s, q)
    decreases |s|
  {
    if s != [] {
      assert forall i :: 0 <= i < |s[1..]| ==> s[1..][i] == s[i + 1];
      FilterSameOn(s[1..], p, q);
    }
  }

  /** A character `p` rejects makes the result shorter. */
  lemma {:induction false} FilterDrops(s: string, p: char -> bool, i: nat)
    requires i < |s| && !p(s[i])
    ensures |Filter(s, p)| < |s|
    decreases |s|
  {
    if i > 0 {
      assert s[1..][i - 1] == s[i];
      FilterDrops(s[1..], p, i - 1);
    }
  }

  // ---------------------------------------------------------------------
  // similarity

  function Min3(x: nat, y: nat, z: nat): nat
  {
    if x <= y && x <= z then x else if y <= z then y else z
  }

  lemma Min3Swap(x: nat, y: nat, z: nat)
    ensures Min3(x, y, z) == Min3(y, x, z)
  {
  }

  function Max(x: nat, y: nat): nat
  {
    if x >= y then x else y
  }

  function Cost(x: char, y: char): nat
  {
    if x == y then 0 else 1
  }

  /** The Levenshtein distance between `a[..i]` and `b[..j]`. */
  function Lev(a: string, b: string, i: nat, j: nat): nat
    requires i <= |a| && j <= |b|
    decreases i + j, 1
  {
    if i == 0 then j
    else if j == 0 then i
    else Edit(a, b, i, j)
  }

  /** The distance between non-empty prefixes: the cheapest of a deletion, an insertion and a substitution. */
  function Edit(a: string, b: string, i: nat, j: nat): nat
    requires 0 < i <= |a| && 0 < j <= |b|
    decreases i + j, 0
  {
    Min3(Lev(a, b, i - 1, j) + 1, Lev(a, b, i, j - 1) + 1, Lev(a, b, i - 1, j - 1) + Cost(a[i - 1], b[j - 1]))
  }

  /** The recurrence the matrix is filled by holds at cell `(i, j)`. */
  predicate Recurrence(a: string, b: string, i: nat, j: nat)
    requires 0 < i <= |a| && 0 < j <= |b|
  {
    Lev(a, b, i, j) == Min3(Lev(a, b, i - 1, j) + 1, Lev(a, b, i, j - 1) + 1, Lev(a, b, i - 1, j - 1) + Cost(a[i - 1], b[j - 1]))
  }

  /** The recurrence for non-empty prefixes. */
  lemma LevStep(a: string, b: string, i: nat, j: nat)
    requires 0 < i <= |a| && 0 < j <= |b|
    ensures Recurrence(a, b, i, j)
  {
  }

  /** The distance never exceeds the longer length. */
  lemma {:induction false} LevBound(a: string, b: string, i: nat, j: nat)
    requires i <= |a| && j <= |b|
    ensures Lev(a, b, i, j) <= Max(i, j)
    decreases i + j
  {
    if i > 0 && j > 0 {
      LevBound(a, b, i - 1, j - 1);
    }
  }

  /** The distance is zero exactly between equal prefixes. */
  lemma {:induction false} LevZero(a: string, b: string, i: nat, j: nat)
    requires i <= |a| && j <= |b|
    ensures Lev(a, b, i, j) == 0 <==> a[..i] == b[..j]
    decreases i + j
  {
    if i != j {
      LevPositive(a, b, i, j);
      assert |a[..i]| != |b[..j]|;
    } else if i > 0 {
      LevZero(a, b, i - 1, j - 1);
      assert a[..i] == a[..i - 1] + [a[i - 1]] && b[..j] == b[..j - 1] + [b[j - 1]];
      if a[..i] == b[..j] {
        assert a[..i][..i - 1] == a[..i - 1] && b[..j][..j - 1] == b[..j - 1];
        assert a[..i][i - 1] == a[i - 1] && b[..j][j - 1] == b[j - 1];
      }
    }
  }

  /** Prefixes of different lengths are at distance at least one. */
  lemma {:induction false} LevPositive(a: string, b: string, i: nat, j: nat)
    requires i <= |a| && j <= |b| && i != j
    ensures Lev(a, b, i, j) >= 1
    decreases i + j
  {
    if i > 0 && j > 0 {
      LevPositive(a, b, i - 1, j - 1);
    }
  }

  /** The distance between `a[..i]` and `b[..j]` is the one between `b[..j]` and `a[..i]`. */
  predicate SymmetricAt(a: string, b: string, i: nat, j: nat)
    requires i <= |a| && j <= |b|
  {
    Lev(a, b, i, j) == Lev(b, a, j, i)
  }

  /** The distance is symmetric. */
  lemma {:induction false} LevSymmetric(a: string, b: string, i: nat, j: nat)
    requires i <= |a| && j <= |b|
    ensures SymmetricAt(a, b, i, j)
    decreases i + j
  {
    if i > 0 && j > 0 {
      LevSymmetric(a, b, i - 1, j);
      LevSymmetric(a, b, i, j - 1);
      LevSymmetric(a, b, i - 1, j - 1);
      var up, left, diagonal := Lev(a, b, i - 1, j), Lev(a, b, i, j - 1), Lev(a, b, i - 1, j - 1);
      var cost := Cost(a[i - 1], b[j - 1]);
      assert cost == Cost(b[j - 1], a[i - 1]);
      LevStep(a, b, i, j);
      LevStep(b, a, j, i);
      Min3Swap(up + 1, left + 1, diagonal + cost);
    }
  }

  /** `similarity(a, b)`: 0 when either is empty, otherwise `1 - lev / max(|a|, |b|)`. */
  function Similarity(a: string, b: string): real
  {
    if |a| == 0 || |b| == 0 then 0.0
    else 1.0 - (Lev(a, b, |a|, |b|) as real) / (Max(|a|, |b|) as real)
  }

  /** A product of two positive reals is positive. */
  lemma PositiveProduct(x: real, y: real)
    requires x > 0.0 && y > 0.0
    ensures x * y > 0.0
  {
  }

  /** A product of two non-negative reals is non-negative. */
  lemma NonNegativeProduct(x: real, y: real)
    requires x >= 0.0 && y >= 0.0
    ensures x * y >= 0.0
  {
  }

  /** A ratio `d / m` with `0 <= d <= m` lies in `[0, 1]` and is 0 exactly when `d` is. */
  lemma RatioRange(d: real, m: real)
    requires 0.0 <= d <= m && m > 0.0
    ensures 0.0 <= d / m <= 1.0
    ensures d / m == 0.0 <==> d == 0.0
  {
    var q := d / m;
    assert q * m == d;
    if q > 0.0 {
      PositiveProduct(q, m);
    } else {
      assert q * m == 0.0;
    }
    if q > 1.0 {
      PositiveProduct(q - 1.0, m);
    }
  }

  /** The threshold the wizard applies to `1 - d / m`. */
  lemma RatioThreshold(d: real, m: real)
    requires 0.0 <= d <= m && m > 0.0
    ensures 1.0 - d / m > 0.5 <==> 2.0 * d < m
  {
    var q := d / m;
    assert q * m == d;
    if q < 0.5 {
      PositiveProduct(0.5 - q, m);
      assert (0.5 - q) * m == 0.5 * m - d;
    } else {
      NonNegativeProduct(q - 0.5, m);
      assert (q - 0.5) * m == d - 0.5 * m;
    }
  }

  /** The similarity lies in `[0, 1]`, is symmetric, and is 1 exactly for equal non-empty strings. */
  lemma SimilarityRange(a: string, b: string)
    ensures 0.0 <= Similarity(a, b) <= 1.0
    ensures Similarity(a, b) == Similarity(b, a)
    ensures Similarity(a, b) == 1.0 <==> |a| > 0 && a == b
  {
    if |a| > 0 && |b| > 0 {
      LevBound(a, b, |a|, |b|);
      LevSymmetric(a, b, |a|, |b|);
      LevZero(a, b, |a|, |b|);
      assert a[..|a|] == a && b[..|b|] == b;
      RatioRange(Lev(a, b, |a|, |b|) as real, Max(|a|, |b|) as real);
    }
  }

  /** The wizard's threshold `similarity > 0.5` is `2·lev < max(|a|, |b|)` on non-empty strings. */
  lemma SimilarityThreshold(a: string, b: string)
    ensures Similarity(a, b) > 0.5 <==> |a| > 0 && |b| > 0 && 2 * Lev(a, b, |a|, |b|) < Max(|a|, |b|)
  {
    if |a| > 0 && |b| > 0 {
      LevBound(a, b, |a|, |b|);
      RatioThreshold(Lev(a, b, |a|, |b|) as real, Max(|a|, |b|) as real);
    }
  }

  /** One row of the matrix: `matrix[i][j]` for every `j`, from row `prev = i - 1` and `matrix[i][0]`. */
  method FillRow(matrix: array2<nat>, a: string, b: string, prev: nat, i: nat)
    requires matrix.Length0 == |a| + 1 && matrix.Length1 == |b| + 1 && i == prev + 1 && i <= |a|
    requires forall j {:trigger matrix[prev, j]} :: 0 <= j <= |b| ==> matrix[prev, j] == Lev(a, b, prev, j)
    requires matrix[i, 0] == Lev(a, b, i, 0)
    modifies matrix
    ensures forall j {:trigger matrix[i, j]} :: 0 <= j <= |b| ==> matrix[i, j] == Lev(a, b, i, j)
    ensures forall i' {:trigger matrix[i', 0]} :: i < i' <= |a| ==> matrix[i', 0] == old(matrix[i', 0])
  {
    for j := 1 to |b| + 1
      invariant forall j' {:trigger matrix[i, j']} :: 0 <= j' < j ==> matrix[i, j'] == Lev(a, b, i, j')
      invariant forall j' {:trigger matrix[prev, j']} :: 0 <= j' <= |b| ==> matrix[prev, j'] == Lev(a, b, prev, j')
      invariant forall i' {:trigger matrix[i', 0]} :: i < i' <= |a| ==> matrix[i', 0] == old(matrix[i', 0])
    {
      FillCell(matrix, a, b, prev, i, j);
    }
  }

  /** One cell: `matrix[i][j]` from its upper, left and diagonal neighbours. */
  method FillCell(matrix: array2<nat>, a: string, b: string, prev: nat, i: nat, j: nat)
    requires matrix.Length0 == |a| + 1 && matrix.Length1 == |b| + 1 && i == prev + 1 && i <= |a| && 0 < j <= |b|
    requires matrix[prev, j] == Lev(a, b, prev, j) && matrix[prev, j - 1] == Lev(a, b, prev, j - 1)
    requires matrix[i, j - 1] == Lev(a, b, i, j - 1)
    modifies matrix
    ensures matrix[i, j] == Lev(a, b, i, j)
    ensures forall i', j' {:trigger matrix[i', j']} :: 0 <= i' <= |a| && 0 <= j' <= |b| && (i' != i || j' != j) ==>
      matrix[i', j'] == old(matrix[i', j'])
  {
    var cost := if a[i - 1] == b[j - 1] then 0 else 1;
    var up, left, diagonal := matrix[prev, j], matrix[i, j - 1], matrix[prev, j - 1];
    LevStep(a, b, i, j);
    assert i - 1 == prev;
    var value := Min3(up + 1, left + 1, diagonal + cost);
    assert value == Lev(a, b, i, j);
    matrix[i, j] := value;
  }

  /** `similarity(a, b)`: the edit-distance matrix filled row by row. */
  method SimilarityOf(a: string, b: string) returns (s: real)
    ensures s == Similarity(a, b)
  {
    if |a| == 0 || |b| == 0 {
      return 0.0;
    }
    var matrix := new nat[|a| + 1, |b| + 1];
    for i := 0 to |a| + 1
      invariant forall i' :: 0 <= i' < i ==> matrix[i', 0] == i'
    {
      matrix[i, 0] := i;
    }
    for j := 0 to |b| + 1
      invariant forall i' :: 0 <= i' <= |a| ==> matrix[i', 0] == Lev(a, b, i', 0)
      invariant forall j' :: 0 <= j' < j ==> matrix[0, j'] == j'
    {
      matrix[0, j] := j;
    }
    for prev := 0 to |a|
      invariant forall j :: 0 <= j <= |b| ==> matrix[prev, j] == Lev(a, b, prev, j)
      invariant forall i :: prev < i <= |a| ==> matrix[i, 0] == Lev(a, b, i, 0)
    {
      FillRow(matrix, a, b, prev, prev + 1);
    }
    var distance := matrix[|a|, |b|];
    s := 1.0 - (distance as real) / (Max(|a|, |b|) as real);
  }

  // ---------------------------------------------------------------------
  // The wizard's mapping

  /** A `suggestion` object: an empty string stands for a missing `target_tax`/`target_label`. */
  datatype Suggestion = Suggestion(targetTax: string, targetLabel: string, terms: Option<map<string, string>>)

  /** An element of `discover(...).attributes` as the wizard reads it; a missing `suggestion` is `None`. */
  datatype WizardAttribute = WizardAttribute(name: string, labelText: string, values: seq<string>, suggestion: Option<Suggestion>)

  /** One term row of a wizard mapping. */
  datatype TermDraft = TermDraft(localValue: string, termSlug: string, termName: string, create: bool)

  /** An entry of `/terms/<taxonomy>`. */
  datatype TermOption = TermOption(termId: int, name: string, slug: string)

  /** One element of `state.mapping`. */
  datatype MappingDraft = MappingDraft(
    localAttr: string,
    localLabel: string,
    targetTax: string,
    targetLabel: string,
    createAttribute: bool,
    terms: seq<TermDraft>,
    termOptions: seq<TermOption>)

  /** `state.options`. */
  datatype WizardOptions = WizardOptions(updateVariations: bool, autoCreateTerms: bool, createBackup: bool, saveTemplate: bool)

  const DefaultWizardOptions := WizardOptions(true, true, true, true)

  /** `attr.suggestion || {}`. */
  function SuggestionOf(attr: WizardAttribute): Suggestion
  {
    attr.suggestion.GetOr(Suggestion("", "", None))
  }

  /** `suggestion.terms ? suggestion.terms[value] : ''`, a missing entry read as `''`. */
  function SuggestedSlug(s: Suggestion, value: string): string
  {
    if s.terms.Some? && value in s.terms.value then s.terms.value[value] else ""
  }

  /** A term row once the `forEach` of `buildMappingFromAttribute` has passed over it. */
  function BuiltTerm(s: Suggestion, value: string, autoCreate: bool, nfd: string -> string): TermDraft
  {
    var slug := SuggestedSlug(s, value);
    TermDraft(value, if slug == "" then Slugify(value, nfd) else slug, value,
              if s.terms.None? then autoCreate else slug == "")
  }

  /** `buildMappingFromAttribute(attr)` with `state.options.auto_create_terms == autoCreate`. */
  function BuiltMapping(attr: WizardAttribute, autoCreate: bool, nfd: string -> string): MappingDraft
  {
    var s := SuggestionOf(attr);
    MappingDraft(attr.name, attr.labelText, EnsurePaPrefix(s.targetTax, nfd),
                 if s.targetLabel == "" then attr.labelText else s.targetLabel,
                 s.targetTax == "",
                 seq(|attr.values|, i requires 0 <= i < |attr.values| => BuiltTerm(s, attr.values[i], autoCreate, nfd)),
                 [])
  }

  /**
   * The mapping built from an attribute creates its global attribute
   * exactly when no target taxonomy is suggested; each term keeps its
   * value as name, takes the suggested slug or else the value's slug, and
   * is created by the option when there is no suggested term list, and
   * otherwise exactly when the list has no slug for it.
   */
  lemma BuiltMappingShape(attr: WizardAttribute, autoCreate: bool, nfd: string -> string)
    ensures var m := BuiltMapping(attr, autoCreate, nfd);
      var s := SuggestionOf(attr);
      m.localAttr == attr.name && m.localLabel == attr.labelText &&
      (m.createAttribute <==> s.targetTax == "") && (m.targetTax == "" <==> s.targetTax == "") &&
      |m.terms| == |attr.values| && m.termOptions == [] &&
      forall i :: 0 <= i < |attr.values| ==>
        m.terms[i].localValue == attr.values[i] && m.terms[i].termName == attr.values[i] &&
        (SuggestedSlug(s, attr.values[i]) != "" ==> m.terms[i].termSlug == SuggestedSlug(s, attr.values[i])) &&
        (SuggestedSlug(s, attr.values[i]) == "" ==> m.terms[i].termSlug == Slugify(attr.values[i], nfd)) &&
        (s.terms.None? ==> m.terms[i].create == autoCreate) &&
        (s.terms.Some? ==> (m.terms[i].create <==> SuggestedSlug(s, attr.values[i]) == ""))
  {
    EnsurePaPrefixShape(SuggestionOf(attr).targetTax, nfd);
  }

  /** Attributes reported without a suggestion (as `discover` reports them) map to new attributes whose terms all follow the option. */
  lemma BuiltWithoutSuggestion(attr: WizardAttribute, autoCreate: bool, nfd: string -> string)
    requires attr.suggestion.None?
    ensures var m := BuiltMapping(attr, autoCreate, nfd);
      m.createAttribute && m.targetTax == "" && m.targetLabel == attr.labelText &&
      forall i :: 0 <= i < |m.terms| ==> m.terms[i].create == autoCreate && m.terms[i].termSlug == Slugify(attr.values[i], nfd)
  {
  }

  /** `buildMappingFromAttribute(attr)`: the object literal, then the `forEach` that fills slugs and `create`. */
  method BuildMappingFromAttribute(attr: WizardAttribute, autoCreate: bool, nfd: string -> string) returns (m: MappingDraft)
    ensures m == BuiltMapping(attr, autoCreate, nfd)
  {
    var s := SuggestionOf(attr);
    var terms := seq(|attr.values|, i requires 0 <= i < |attr.values| =>
      TermDraft(attr.values[i], SuggestedSlug(s, attr.values[i]), attr.values[i],
                s.terms.Some? && SuggestedSlug(s, attr.values[i]) == ""));
    for k := 0 to |terms|
      invariant |terms| == |attr.values|
      invariant forall i :: 0 <= i < k ==> terms[i] == BuiltTerm(s, attr.values[i], autoCreate, nfd)
      invariant forall i :: k <= i < |terms| ==>
        terms[i] == TermDraft(attr.values[i], SuggestedSlug(s, attr.values[i]), attr.values[i],
                              s.terms.Some? && SuggestedSlug(s, attr.values[i]) == "")
    {
      var term := terms[k];
      if term.termSlug == "" {
        term := term.(termSlug := Slugify(if term.termName != "" then term.termName else term.localValue, nfd));
      }
      if s.terms.None? {
        term := term.(create := autoCreate);
      }
      terms := terms[k := term];
    }
    m := MappingDraft(attr.name, attr.labelText, EnsurePaPrefix(s.targetTax, nfd),
                      if s.targetLabel == "" then attr.labelText else s.targetLabel,
                      s.targetTax == "", terms, []);
  }

  // ---------------------------------------------------------------------
  // autoMapAttributeTerms

  /** The best option so far and its score. */
  datatype Best = Best(choice: Option<TermOption>, score: real)

  /** An option that matches a term outright: same normalised name, or the slug of the term's value. */
  predicate ExactMatch(localValue: string, option: TermOption, nfd: string -> string)
  {
    NormalizeString(option.name, nfd) == NormalizeString(localValue, nfd) || option.slug == Slugify(localValue, nfd)
  }

  /** The score an option earns on its own: 1 for an outright match, else the similarity of the normalised names. */
  function OptionScore(localValue: string, option: TermOption, nfd: string -> string): real
  {
    if ExactMatch(localValue, option, nfd) then 1.0
    else Similarity(NormalizeString(localValue, nfd), NormalizeString(option.name, nfd))
  }

  /** One pass of the inner `forEach`: an outright match takes over with score 1, otherwise a strictly better score does. */
  function BestStep(b: Best, localValue: string, option: TermOption, nfd: string -> string): Best
  {
    if ExactMatch(localValue, option, nfd) then Best(Some(option), 1.0)
    else if OptionScore(localValue, option, nfd) > b.score then Best(Some(option), OptionScore(localValue, option, nfd))
    else b
  }

  /** The inner `forEach` over the first options. */
  function BestOf(localValue: string, options: seq<TermOption>, nfd: string -> string): Best
    decreases |options|
  {
    if options == [] then Best(None, 0.0)
    else BestStep(BestOf(localValue, options[..|options| - 1], nfd), localValue, options[|options| - 1], nfd)
  }

  /** Every score lies in `[0, 1]`. */
  lemma OptionScoreRange(localValue: string, option: TermOption, nfd: string -> string)
    ensures 0.0 <= OptionScore(localValue, option, nfd) <= 1.0
  {
    SimilarityRange(NormalizeString(localValue, nfd), NormalizeString(option.name, nfd));
  }

  /**
   * The best score is the highest score any option earns (0 with no
   * option), and nothing is chosen exactly when that is 0.
   */
  lemma {:induction false} BestOfIsMax(localValue: string, options: seq<TermOption>, nfd: string -> string)
    ensures var b := BestOf(localValue, options, nfd);
      0.0 <= b.score <= 1.0 &&
      (forall i :: 0 <= i < |options| ==> OptionScore(localValue, options[i], nfd) <= b.score) &&
      (b.choice.None? <==> b.score == 0.0)
    decreases |options|
  {
    if options != [] {
      var front := options[..|options| - 1];
      var prev := BestOf(localValue, front, nfd);
      var b := BestOf(localValue, options, nfd);
      assert b == BestStep(prev, localValue, options[|options| - 1], nfd);
      BestOfIsMax(localValue, front, nfd);
      BestStepKeepsMax(prev, localValue, options[|options| - 1], nfd);
      forall i | 0 <= i < |options|
        ensures OptionScore(localValue, options[i], nfd) <= b.score
      {
        if i < |front| {
          assert options[i] == front[i];
          assert OptionScore(localValue, front[i], nfd) <= prev.score;
        } else {
          assert i == |options| - 1;
        }
      }
    }
  }

  /** One step never lowers the best score, reaches the new option's score, and keeps the bounds. */
  lemma BestStepKeepsMax(b: Best, localValue: string, option: TermOption, nfd: string -> string)
    requires 0.0 <= b.score <= 1.0 && (b.choice.None? <==> b.score == 0.0)
    ensures var r := BestStep(b, localValue, option, nfd);
      b.score <= r.score <= 1.0 && OptionScore(localValue, option, nfd) <= r.score &&
      (r.choice.None? <==> r.score == 0.0)
  {
    OptionScoreRange(localValue, option, nfd);
  }

  /** The option chosen is one of the options, and the best score is its own. */
  lemma {:induction false} BestOfWitness(localValue: string, options: seq<TermOption>, nfd: string -> string)
    ensures var b := BestOf(localValue, options, nfd);
      b.choice.Some? ==> exists i :: 0 <= i < |options| && options[i] == b.choice.value &&
                                     OptionScore(localValue, options[i], nfd) == b.score
    decreases |options|
  {
    if options != [] {
      var front := options[..|options| - 1];
      var b := BestOf(localValue, options, nfd);
      var prev := BestOf(localValue, front, nfd);
      BestOfWitness(localValue, front, nfd);
      if b.choice.Some? {
        if b == prev {
          var i :| 0 <= i < |front| && front[i] == prev.choice.value && OptionScore(localValue, front[i], nfd) == prev.score;
          assert options[i] == front[i];
        } else {
          assert options[|options| - 1] == b.choice.value;
        }
      }
    }
  }

  /** When several options match outright, the last of them is chosen. */
  lemma {:induction false} BestOfLastExact(localValue: string, options: seq<TermOption>, nfd: string -> string, k: nat)
    requires k < |options| && ExactMatch(localValue, options[k], nfd)
    requires forall i :: k < i < |options| ==> !ExactMatch(localValue, options[i], nfd)
    ensures BestOf(localValue, options, nfd) == Best(Some(options[k]), 1.0)
    decreases |options|
  {
    if k < |options| - 1 {
      var front := options[..|options| - 1];
      var last := options[|options| - 1];
      assert forall i :: 0 <= i < |front| ==> front[i] == options[i];
      BestOfLastExact(localValue, front, nfd, k);
      OptionScoreRange(localValue, last, nfd);
    }
  }

  /** A term row once `autoMapAttributeTerms` has looked at it. */
  function AutoMappedTerm(t: TermDraft, options: seq<TermOption>, nfd: string -> string): TermDraft
  {
    var b := BestOf(t.localValue, options, nfd);
    if b.choice.Some? && b.score > 0.5 then t.(termSlug := b.choice.value.slug, termName := b.choice.value.name, create := false)
    else t
  }

  /** `autoMapAttributeTerms(map)` on the value of `map`. */
  function AutoMapped(m: MappingDraft, nfd: string -> string): MappingDraft
  {
    if m.termOptions == [] then m
    else m.(terms := seq(|m.terms|, i requires 0 <= i < |m.terms| => AutoMappedTerm(m.terms[i], m.termOptions, nfd)))
  }

  /** An option good enough to rewrite a term: an outright match, or a normalised name within the threshold. */
  predicate CloseEnough(localValue: string, option: TermOption, nfd: string -> string)
  {
    var a := NormalizeString(localValue, nfd);
    var b := NormalizeString(option.name, nfd);
    ExactMatch(localValue, option, nfd) || (|a| > 0 && |b| > 0 && 2 * Lev(a, b, |a|, |b|) < Max(|a|, |b|))
  }

  /**
   * The best score passes the threshold exactly when some option is close
   * enough; the term is then rewritten to a close-enough option's slug and
   * name with `create = false`, and otherwise left as it was.
   */
  lemma AutoMappedTermRewrites(t: TermDraft, options: seq<TermOption>, nfd: string -> string)
    ensures var b := BestOf(t.localValue, options, nfd);
      var r := AutoMappedTerm(t, options, nfd);
      ((exists i :: 0 <= i < |options| && CloseEnough(t.localValue, options[i], nfd)) <==> b.score > 0.5) &&
      (b.score > 0.5 ==> exists i :: 0 <= i < |options| && CloseEnough(t.localValue, options[i], nfd) &&
                                     r == t.(termSlug := options[i].slug, termName := options[i].name, create := false)) &&
      (b.score <= 0.5 ==> r == t)
  {
    var b := BestOf(t.localValue, options, nfd);
    BestOfIsMax(t.localValue, options, nfd);
    BestOfWitness(t.localValue, options, nfd);
    forall i | 0 <= i < |options|
      ensures CloseEnough(t.localValue, options[i], nfd) <==> OptionScore(t.localValue, options[i], nfd) > 0.5
    {
      SimilarityThreshold(NormalizeString(t.localValue, nfd), NormalizeString(options[i].name, nfd));
    }
    if b.score > 0.5 {
      var i :| 0 <= i < |options| && options[i] == b.choice.value && OptionScore(t.localValue, options[i], nfd) == b.score;
      assert CloseEnough(t.localValue, options[i], nfd);
    }
  }

  /** An outright match always rewrites the term, to the last option that matches outright. */
  lemma AutoMappedExact(t: TermDraft, options: seq<TermOption>, nfd: string -> string, k: nat)
    requires k < |options| && ExactMatch(t.localValue, options[k], nfd)
    requires forall i :: k < i < |options| ==> !ExactMatch(t.localValue, options[i], nfd)
    ensures AutoMappedTerm(t, options, nfd) == t.(termSlug := options[k].slug, termName := options[k].name, create := false)
  {
    BestOfLastExact(t.localValue, options, nfd, k);
  }

  /** Without term options, `autoMapAttributeTerms` changes nothing. */
  lemma AutoMappedNoOptions(m: MappingDraft, nfd: string -> string)
    requires m.termOptions == []
    ensures AutoMapped(m, nfd) == m
  {
  }

  // ---------------------------------------------------------------------
  // serializeMapping

  /** A term row as posted. */
  function SerializedTerm(t: TermDraft): TermConfig
  {
    TermConfig(t.localValue, 0, Some(t.termSlug), Some(t.termName), t.create)
  }

  /** One element of `serializeMapping()`. */
  function SerializedOne(m: MappingDraft, options: WizardOptions, nfd: string -> string): MappingRequest
  {
    MappingRequest(Some(EnsurePaPrefix(m.targetTax, nfd)), Some(m.localAttr), Some(m.localLabel), Some(m.targetLabel),
                   m.createAttribute, seq(|m.terms|, i requires 0 <= i < |m.terms| => SerializedTerm(m.terms[i])),
                   AttributeArgs(None, false), options.saveTemplate)
  }

  /** `serializeMapping()` over `state.mapping` and `state.options`. */
  function SerializeMapping(mapping: seq<MappingDraft>, options: WizardOptions, nfd: string -> string): (r: seq<MappingRequest>)
    ensures |r| == |mapping|
    ensures forall k :: 0 <= k < |mapping| ==> r[k] == SerializedOne(mapping[k], options, nfd)
  {
    seq(|mapping|, k requires 0 <= k < |mapping| => SerializedOne(mapping[k], options, nfd))
  }

  /**
   * A mapping built from an attribute posts its local name, label and
   * values unchanged, the suggested taxonomy through `ensurePaPrefix`
   * once (applying it again changes nothing), `save_template` from the
   * options, and every term's slug and `create` flag as built.
   */
  lemma SerializedBuilt(attr: WizardAttribute, options: WizardOptions, nfd: string -> string)
    requires KeepsSlugs(nfd)
    ensures var m := BuiltMapping(attr, options.autoCreateTerms, nfd);
      var r := SerializedOne(m, options, nfd);
      r.targetTax == Some(EnsurePaPrefix(SuggestionOf(attr).targetTax, nfd)) &&
      r.localAttr == Some(attr.name) && r.saveTemplate == options.saveTemplate &&
      (r.createAttribute <==> SuggestionOf(attr).targetTax == "") &&
      |r.terms| == |attr.values| &&
      forall i :: 0 <= i < |attr.values| ==>
        r.terms[i].localValue == attr.values[i] && r.terms[i].termName == Some(attr.values[i]) &&
        r.terms[i].termSlug == Some(m.terms[i].termSlug) && r.terms[i].create == m.terms[i].create
  {
    EnsurePaPrefixIdempotent(SuggestionOf(attr).targetTax, nfd);
  }

  /** The inner `forEach` of `autoMapAttributeTerms`: the best option for one term and its score. */
  method BestMatchOf(localValue: string, options: seq<TermOption>, nfd: string -> string)
    returns (bestMatch: Option<TermOption>, bestScore: real)
    ensures Best(bestMatch, bestScore) == BestOf(localValue, options, nfd)
  {
    var normalizedLocal := NormalizeString(localValue, nfd);
    var localSlug := Slugify(localValue, nfd);
    bestMatch := None;
    bestScore := 0.0;
    for o := 0 to |options|
      invariant Best(bestMatch, bestScore) == BestOf(localValue, options[..o], nfd)
    {
      var option := options[o];
      assert options[..o + 1][..o] == options[..o];
      var normalizedOption := NormalizeString(option.name, nfd);
      if normalizedOption == normalizedLocal || option.slug == localSlug {
        bestMatch := Some(option);
        bestScore := 1.0;
        continue;
      }
      var distance := SimilarityOf(normalizedLocal, normalizedOption);
      if distance > bestScore {
        bestScore := distance;
        bestMatch := Some(option);
      }
    }
    assert options[..|options|] == options;
  }

  // ---------------------------------------------------------------------
  // The wizard's state

  class WizardState {
    var mapping: seq<MappingDraft>
    var options: WizardOptions

    /** The state the wizard starts from. */
    constructor()
      ensures mapping == [] && options == DefaultWizardOptions
    {
      mapping := [];
      options := DefaultWizardOptions;
    }

    /** `state.mapping = state.attributes.map((attr) => buildMappingFromAttribute(attr))`. */
    method MapAttributes(attributes: seq<WizardAttribute>, nfd: string -> string)
      modifies this
      ensures options == old(options)
      ensures |mapping| == |attributes|
      ensures forall k :: 0 <= k < |attributes| ==> mapping[k] == BuiltMapping(attributes[k], options.autoCreateTerms, nfd)
    {
      var autoCreate := options.autoCreateTerms;
      var built: seq<MappingDraft> := [];
      for k := 0 to |attributes|
        invariant mapping == old(mapping) && options == old(options)
        invariant |built| == k
        invariant forall i :: 0 <= i < k ==> built[i] == BuiltMapping(attributes[i], autoCreate, nfd)
      {
        var m := BuildMappingFromAttribute(attributes[k], autoCreate, nfd);
        built := built + [m];
      }
      mapping := built;
    }

    /** `autoMapAttributeTerms(state.mapping[k])`: the term rows of that mapping are rewritten in place. */
    method AutoMapAttributeTerms(k: nat, nfd: string -> string)
      requires k < |mapping|
      modifies this
      ensures options == old(options)
      ensures mapping == old(mapping)[k := AutoMapped(old(mapping)[k], nfd)]
    {
      var m := mapping[k];
      if |m.termOptions| == 0 {
        assert mapping == mapping[k := m];
        return;
      }
      var terms := m.terms;
      for t := 0 to |terms|
        invariant mapping == old(mapping) && options == old(options)
        invariant |terms| == |m.terms|
        invariant forall i :: 0 <= i < t ==> terms[i] == AutoMappedTerm(m.terms[i], m.termOptions, nfd)
        invariant forall i :: t <= i < |terms| ==> terms[i] == m.terms[i]
      {
        var term := terms[t];
        var bestMatch, bestScore := BestMatchOf(term.localValue, m.termOptions, nfd);
        if bestMatch.Some? && bestScore > 0.5 {
          term := term.(termSlug := bestMatch.value.slug, termName := bestMatch.value.name, create := false);
        }
        terms := terms[t := term];
      }
      assert terms == AutoMapped(m, nfd).terms;
      mapping := mapping[k := m.(terms := terms)];
    }

    /** `state.mapping.forEach(autoMapAttributeTerms)`. */
    method AutoMapAll(nfd: string -> string)
      modifies this
      ensures options == old(options)
      ensures |mapping| == |old(mapping)|
      ensures forall k :: 0 <= k < |mapping| ==> mapping[k] == AutoMapped(old(mapping)[k], nfd)
    {
      for k := 0 to |mapping|
        invariant |mapping| == |old(mapping)| && options == old(options)
        invariant forall i :: 0 <= i < k ==> mapping[i] == AutoMapped(old(mapping)[i], nfd)
        invariant forall i :: k <= i < |mapping| ==> mapping[i] == old(mapping)[i]
      {
        AutoMapAttributeTerms(k, nfd);
      }
    }

    /** `serializeMapping()`. */
    function Serialized(nfd: string -> string): seq<MappingRequest>
      reads this
    {
      SerializeMapping(mapping, options, nfd)
    }
  }
}
