/**
 * PHP's ordered arrays with string (or integer) keys, as sequences of
 * key/value pairs in insertion order, and the array built-ins the plugin
 * relies on.
 */
module PhpArray {
  import opened PhpCore

  /** The position of the entry with key `k`, if any. */
  function Find<K(==,!new), V>(a: seq<(K, V)>, k: K): (r: Option<nat>)
    ensures r.Some? ==> r.value < |a| && a[r.value].0 == k
    ensures r.Some? ==> forall j :: 0 <= j < r.value ==> a[j].0 != k
    ensures r.None? <==> forall j :: 0 <= j < |a| ==> a[j].0 != k
  {
    if |a| == 0 then None
    else if a[0].0 == k then Some(0)
    else
      var r := Find(a[1..], k);
      if r.Some? then Some(r.value + 1) else None
  }

  /** The first position whose element satisfies `p`, if any. */
  function FirstWhere<T>(s: seq<T>, p: T -> bool): (r: Option<nat>)
    ensures r.Some? ==> r.value < |s| && p(s[r.value])
    ensures r.Some? ==> forall j :: 0 <= j < r.value ==> !p(s[j])
    ensures r.None? ==> forall j :: 0 <= j < |s| ==> !p(s[j])
  {
    if |s| == 0 then None
    else if p(s[0]) then Some(0)
    else
      var r := FirstWhere(s[1..], p);
      if r.Some? then Some(r.value + 1) else None
  }

  /** A position that satisfies `p` with none before it is the first. */
  lemma FirstWhereAt<T>(s: seq<T>, p: T -> bool, k: nat)
    requires k < |s| && p(s[k])
    requires forall j :: 0 <= j < k ==> !p(s[j])
    ensures FirstWhere(s, p) == Some(k)
  {
  }

  /** No element among the first `i` satisfies `p`: the invariant of a scan that stops at the first hit. */
  predicate NoneBefore<T>(s: seq<T>, i: nat, p: T -> bool)
    requires i <= |s|
  {
    i == 0 || (NoneBefore(s, i - 1, p) && !p(s[i - 1]))
  }

  lemma {:induction false} NoneBeforeAll<T>(s: seq<T>, i: nat, p: T -> bool)
    requires i <= |s| && NoneBefore(s, i, p)
    ensures forall j :: 0 <= j < i ==> !p(s[j])
  {
    if i > 0 {
      NoneBeforeAll(s, i - 1, p);
    }
  }

  /** A scan that stops at `k` has found the first position satisfying `p`. */
  lemma ScanFound<T>(s: seq<T>, p: T -> bool, k: nat)
    requires k < |s| && p(s[k]) && NoneBefore(s, k, p)
    ensures FirstWhere(s, p) == Some(k)
  {
    NoneBeforeAll(s, k, p);
    FirstWhereAt(s, p, k);
  }

  /** A scan that runs to the end without a hit means no position satisfies `p`. */
  lemma ScanExhausted<T>(s: seq<T>, p: T -> bool)
    requires NoneBefore(s, |s|, p)
    ensures FirstWhere(s, p).None?
  {
    NoneBeforeAll(s, |s|, p);
  }

  predicate HasKey<K(==,!new), V>(a: seq<(K, V)>, k: K)
  {
    Find(a, k).Some?
  }

  /** `$a[$k] ?? null`. */
  function Get<K(==,!new), V>(a: seq<(K, V)>, k: K): (r: Option<V>)
    ensures r.Some? <==> HasKey(a, k)
    ensures r.Some? ==> exists j :: 0 <= j < |a| && a[j] == (k, r.value)
  {
    var i := Find(a, k);
    if i.Some? then Some(a[i.value].1) else None
  }

  /** A value found under some key is one of the values. */
  lemma GetInValues<K(!new), V>(a: seq<(K, V)>, k: K)
    ensures Get(a, k).Some? ==> Get(a, k).value in Values(a)
  {
    if Get(a, k).Some? {
      var j :| 0 <= j < |a| && a[j] == (k, Get(a, k).value);
      assert Values(a)[j] == Get(a, k).value;
    }
  }

  /** The keys, in order (`array_keys`). */
  function Keys<K, V>(a: seq<(K, V)>): (ks: seq<K>)
    ensures |ks| == |a|
    ensures forall j :: 0 <= j < |a| ==> ks[j] == a[j].0
  {
    seq(|a|, j requires 0 <= j < |a| => a[j].0)
  }

  /** The values, in order (`array_values`). */
  function Values<K, V>(a: seq<(K, V)>): (vs: seq<V>)
    ensures |vs| == |a|
    ensures forall j :: 0 <= j < |a| ==> vs[j] == a[j].1
  {
    seq(|a|, j requires 0 <= j < |a| => a[j].1)
  }

  predicate DistinctKeys<K(==,!new), V>(a: seq<(K, V)>)
  {
    forall i, j :: 0 <= i < j < |a| ==> a[i].0 != a[j].0
  }

  /**
   * `$a[$k] = $v`: an existing key keeps its position and gets the new
   * value; a new key is appended.
   */
  function Put<K(==,!new), V>(a: seq<(K, V)>, k: K, v: V): (r: seq<(K, V)>)
    ensures Get(r, k) == Some(v)
    ensures forall j :: j != k ==> Get(r, j) == Get(a, j)
    ensures HasKey(a, k) ==> |r| == |a| && Keys(r) == Keys(a)
    ensures !HasKey(a, k) ==> r == a + [(k, v)]
    ensures DistinctKeys(a) ==> DistinctKeys(r)
  {
    var i := Find(a, k);
    if i.Some? then
      var r := a[i.value := (k, v)];
      assert Keys(r) == Keys(a);
      assert forall j :: j != k ==> Find(r, j) == Find(a, j) by {
        forall j | j != k ensures Find(r, j) == Find(a, j) {
          FindSameKeys(a, r, j);
        }
      }
      r
    else
      var r := a + [(k, v)];
      assert forall j :: j != k ==> Find(r, j) == Find(a, j) by {
        forall j | j != k ensures Find(r, j) == Find(a, j) {
          FindAppend(a, (k, v), j);
        }
      }
      FindAppend(a, (k, v), k);
      r
  }

  lemma {:induction false} FindSameKeys<K(!new), V>(a: seq<(K, V)>, b: seq<(K, V)>, k: K)
    requires Keys(a) == Keys(b)
    ensures Find(a, k) == Find(b, k)
    decreases |a|
  {
    if |a| > 0 {
      assert a[0].0 == Keys(a)[0] == Keys(b)[0] == b[0].0;
      assert Keys(a[1..]) == Keys(a)[1..];
      assert Keys(b[1..]) == Keys(b)[1..];
      FindSameKeys(a[1..], b[1..], k);
    }
  }

  lemma {:induction false} FindAppend<K(!new), V>(a: seq<(K, V)>, e: (K, V), k: K)
    ensures Find(a + [e], k) == if HasKey(a, k) then Find(a, k) else if e.0 == k then Some(|a|) else None
    decreases |a|
  {
    if |a| > 0 {
      assert (a + [e])[1..] == a[1..] + [e];
      FindAppend(a[1..], e, k);
    }
  }

  /** `unset($a[$k])`: every other entry keeps its position. */
  function Remove<K(==,!new), V>(a: seq<(K, V)>, k: K): (r: seq<(K, V)>)
    ensures !HasKey(r, k)
    ensures forall j :: j != k ==> Get(r, j) == Get(a, j)
    ensures !HasKey(a, k) ==> r == a
    ensures DistinctKeys(a) ==> DistinctKeys(r)
    ensures forall e :: e in r ==> e in a
    decreases |a|
  {
    if |a| == 0 then a
    else
      var rest := Remove(a[1..], k);
      if a[0].0 == k then
        assert forall j :: j != k ==> Get(a, j) == Get(a[1..], j) by {
          forall j | j != k ensures Get(a, j) == Get(a[1..], j) {
            GetCons(a[0], a[1..], j);
            assert [a[0]] + a[1..] == a;
          }
        }
        rest
      else
        var r := [a[0]] + rest;
        assert DistinctKeys(a) ==> forall e :: e in rest ==> e.0 != a[0].0 by {
          if DistinctKeys(a) {
            forall e | e in rest ensures e.0 != a[0].0 {
              assert e in a[1..];
              var i :| 0 <= i < |a[1..]| && a[1..][i] == e;
              assert a[i + 1] == e;
            }
          }
        }
        assert forall j :: j != k ==> Get(r, j) == Get(a, j) by {
          forall j | j != k ensures Get(r, j) == Get(a, j) {
            GetCons(a[0], rest, j);
            GetCons(a[0], a[1..], j);
            assert [a[0]] + a[1..] == a;
          }
        }
        GetCons(a[0], rest, k);
        assert !HasKey(a[1..], k) ==> rest == a[1..];
        assert !HasKey(a, k) ==> !HasKey(a[1..], k) by {
          GetCons(a[0], a[1..], k);
          assert [a[0]] + a[1..] == a;
        }
        r
  }

  /** `unset($a[$gone]); $a[$key] = $v;`: `key` maps to `v`, `gone` is absent unless it is `key`, every other key is kept. */
  lemma RenameEntry<K(!new), V>(a: seq<(K, V)>, gone: K, key: K, v: V)
    ensures var r := Put(Remove(a, gone), key, v);
      Get(r, key) == Some(v) &&
      (gone != key ==> !HasKey(r, gone)) &&
      forall k :: k != gone && k != key ==> Get(r, k) == Get(a, k)
  {
    var removed := Remove(a, gone);
    var r := Put(removed, key, v);
    if gone != key {
      assert Get(r, gone) == Get(removed, gone);
    }
    forall k | k != gone && k != key ensures Get(r, k) == Get(a, k) {
      assert Get(r, k) == Get(removed, k);
    }
  }

  /** Looking a key up in a list that starts with `e`. */
  lemma GetCons<K(!new), V>(e: (K, V), rest: seq<(K, V)>, k: K)
    ensures Get([e] + rest, k) == if e.0 == k then Some(e.1) else Get(rest, k)
  {
    assert ([e] + rest)[1..] == rest;
  }

  /** `array_merge($a, $b)` for string keys: `$b`'s entries win, new keys are appended in `$b`'s order. */
  function Merge<K(==,!new), V>(a: seq<(K, V)>, b: seq<(K, V)>): seq<(K, V)>
    decreases |b|
  {
    if |b| == 0 then a else Put(Merge(a, b[..|b| - 1]), b[|b| - 1].0, b[|b| - 1].1)
  }

  /** The prefix one element longer. */
  lemma TakeStep<T>(s: seq<T>, i: nat)
    requires i < |s|
    ensures s[..i + 1] == s[..i] + [s[i]]
  {
  }

  /** The prefix one element longer, seen from its own end. */
  lemma TakePrefix<T>(s: seq<T>, i: nat)
    requires i < |s|
    ensures s[..i + 1][..i] == s[..i] && s[..i + 1][i] == s[i]
  {
  }

  /** `array_merge($a, $b + [$e])` puts `$e` into `array_merge($a, $b)`. */
  lemma MergeAppend<K(!new), V>(a: seq<(K, V)>, b: seq<(K, V)>, e: (K, V))
    ensures Merge(a, b + [e]) == Put(Merge(a, b), e.0, e.1)
  {
    assert (b + [e])[..|b|] == b;
  }

  /** A key `$b` lacks keeps `$a`'s value (or absence) in `array_merge($a, $b)`. */
  lemma {:induction false} MergeKeepsOthers<K(!new), V>(a: seq<(K, V)>, b: seq<(K, V)>, k: K)
    requires !HasKey(b, k)
    ensures Get(Merge(a, b), k) == Get(a, k)
    decreases |b|
  {
    if |b| > 0 {
      var e := b[|b| - 1];
      FindAppend(b[..|b| - 1], e, k);
      assert b == b[..|b| - 1] + [e];
      MergeKeepsOthers(a, b[..|b| - 1], k);
    }
  }

  /** A key `$b` has gets `$b`'s value in `array_merge($a, $b)`. */
  lemma {:induction false} MergeTakesLater<K(!new), V>(a: seq<(K, V)>, b: seq<(K, V)>, k: K)
    requires DistinctKeys(b) && HasKey(b, k)
    ensures Get(Merge(a, b), k) == Get(b, k)
    decreases |b|
  {
    var e := b[|b| - 1];
    var front := b[..|b| - 1];
    assert b == front + [e];
    FindAppend(front, e, k);
    if e.0 != k {
      MergeTakesLater(a, front, k);
    } else {
      assert !HasKey(front, k);
    }
  }

  /** Every key of `array_merge($a, $b)` comes from `$a` or `$b`. */
  lemma {:induction false} MergeKeys<K(!new), V>(a: seq<(K, V)>, b: seq<(K, V)>, k: K)
    ensures HasKey(Merge(a, b), k) <==> HasKey(a, k) || HasKey(b, k)
    decreases |b|
  {
    if |b| > 0 {
      var e := b[|b| - 1];
      FindAppend(b[..|b| - 1], e, k);
      assert b == b[..|b| - 1] + [e];
      var m := Merge(a, b[..|b| - 1]);
      assert Get(Merge(a, b), k) == if e.0 == k then Some(e.1) else Get(m, k);
      MergeKeys(a, b[..|b| - 1], k);
    }
  }

  /** With repeated keys in `$b`, the last entry carrying a key decides its value. */
  lemma {:induction false} MergeLastWins<K(!new), V>(a: seq<(K, V)>, b: seq<(K, V)>, j: nat)
    requires j < |b|
    requires forall i :: j < i < |b| ==> b[i].0 != b[j].0
    ensures Get(Merge(a, b), b[j].0) == Some(b[j].1)
    decreases |b|
  {
    var e := b[|b| - 1];
    if j < |b| - 1 {
      var front := b[..|b| - 1];
      assert front[j] == b[j];
      MergeLastWins(a, front, j);
    }
  }

  /**
   * `array_unique` followed by `array_values`: the first occurrence of each
   * element, in order.
   */
  function Unique<T(==,!new)>(s: seq<T>): (u: seq<T>)
    ensures forall i, j :: 0 <= i < j < |u| ==> u[i] != u[j]
    ensures forall x :: x in u <==> x in s
    ensures |u| <= |s|
    decreases |s|
  {
    if |s| == 0 then []
    else
      var u := Unique(s[..|s| - 1]);
      assert forall x :: x in s <==> x in s[..|s| - 1] || x == s[|s| - 1] by {
        assert s == s[..|s| - 1] + [s[|s| - 1]];
      }
      if s[|s| - 1] in u then u else u + [s[|s| - 1]]
  }

  /** The position of the first occurrence of `x` in `s`. */
  function FirstIndex<T(==,!new)>(s: seq<T>, x: T): (i: nat)
    requires x in s
    ensures i < |s| && s[i] == x && x !in s[..i]
  {
    if s[0] == x then 0 else 1 + FirstIndex(s[1..], x)
  }

  /** `Unique` lists the elements in the order of their first occurrence. */
  lemma {:induction false} UniqueKeepsFirstSeenOrder<T(!new)>(s: seq<T>)
    ensures forall i, j :: 0 <= i < j < |Unique(s)| ==> FirstIndex(s, Unique(s)[i]) < FirstIndex(s, Unique(s)[j])
    decreases |s|
  {
    if |s| > 0 {
      var p := s[..|s| - 1];
      var x := s[|s| - 1];
      UniqueKeepsFirstSeenOrder(p);
      var u := Unique(s);
      forall y | y in p
        ensures FirstIndex(s, y) == FirstIndex(p, y)
      {
        FirstIndexPrefix(p, x, y);
        assert s == p + [x];
      }
      if x !in Unique(p) {
        assert x !in p;
        assert FirstIndex(s, x) == |s| - 1;
        forall i, j | 0 <= i < j < |u|
          ensures FirstIndex(s, u[i]) < FirstIndex(s, u[j])
        {
          if j == |u| - 1 {
            assert u[i] in p;
            assert FirstIndex(s, u[i]) == FirstIndex(p, u[i]);
          }
        }
      }
    }
  }

  /** `array_unique` keeps the first element where it is. */
  lemma UniqueFirst<T(!new)>(s: seq<T>)
    requires s != []
    ensures Unique(s) != [] && Unique(s)[0] == s[0]
  {
    var u := Unique(s);
    assert s[0] in u;
    UniqueKeepsFirstSeenOrder(s);
    assert FirstIndex(s, s[0]) == 0;
    forall j | 0 < j < |u|
      ensures FirstIndex(s, u[j]) > 0
    {
      assert FirstIndex(s, u[0]) < FirstIndex(s, u[j]);
    }
  }

  lemma {:induction false} FirstIndexPrefix<T(!new)>(p: seq<T>, x: T, y: T)
    requires y in p
    ensures FirstIndex(p + [x], y) == FirstIndex(p, y)
    decreases |p|
  {
    if p[0] != y {
      assert (p + [x])[1..] == p[1..] + [x];
      FirstIndexPrefix(p[1..], x, y);
    }
  }
}
