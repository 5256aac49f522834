/**
 * The PHP string built-ins the plugin calls, over Dafny strings.  A Dafny
 * `char` stands for one code point of the UTF-8 text PHP handles; every
 * built-in modelled here treats multi-byte characters as opaque, so the two
 * views agree.
 */
module PhpString {
  import opened PhpCore

  /** The characters `trim()` strips when given no character list. */
  predicate IsTrimChar(c: char)
  {
    c == ' ' || c == '\t' || c == '\n' || c == '\r' || c == '\0' || c == '\U{B}'
  }

  predicate IsAsciiUpper(c: char)
  {
    'A' <= c <= 'Z'
  }

  predicate IsAscii(c: char)
  {
    c as int < 128
  }

  predicate IsAsciiString(s: string)
  {
    forall i :: 0 <= i < |s| ==> IsAscii(s[i])
  }

  /** `strtolower` on one character: only `A`-`Z` change. */
  function LowerChar(c: char): (r: char)
    ensures !IsAsciiUpper(r)
    ensures IsAsciiUpper(c) <==> r != c
  {
    if IsAsciiUpper(c) then (c as int + 32) as char else c
  }

  /** `strtolower`: ASCII-only lower-casing, one character at a time. */
  function Lower(s: string): (r: string)
    ensures |r| == |s|
    ensures forall i :: 0 <= i < |s| ==> r[i] == LowerChar(s[i])
  {
    seq(|s|, i requires 0 <= i < |s| => LowerChar(s[i]))
  }

  predicate IsLower(s: string)
  {
    forall i :: 0 <= i < |s| ==> !IsAsciiUpper(s[i])
  }

  lemma LowerIsLower(s: string)
    ensures IsLower(Lower(s))
    ensures IsLower(s) ==> Lower(s) == s
  {
  }

  /** How many characters at the front of `s` satisfy `p`. */
  function LeadingCount(s: string, p: char -> bool): (n: nat)
    ensures n <= |s|
    ensures forall i :: 0 <= i < n ==> p(s[i])
    ensures n < |s| ==> !p(s[n])
  {
    if s == [] || !p(s[0]) then 0 else 1 + LeadingCount(s[1..], p)
  }

  /** How many characters at the back of `s` satisfy `p`. */
  function TrailingCount(s: string, p: char -> bool): (n: nat)
    ensures n <= |s|
    ensures forall i :: |s| - n <= i < |s| ==> p(s[i])
    ensures n < |s| ==> !p(s[|s| - 1 - n])
  {
    if s == [] || !p(s[|s| - 1]) then 0 else 1 + TrailingCount(s[..|s| - 1], p)
  }

  /** Neither end of `s` is a character that `p` would strip. */
  predicate TrimmedBy(s: string, p: char -> bool)
  {
    s == [] || (!p(s[0]) && !p(s[|s| - 1]))
  }

  /** `trim($s, $chars)` where `p` says which characters are in `$chars`. */
  function TrimBy(s: string, p: char -> bool): (r: string)
    ensures TrimmedBy(r, p)
    ensures TrimmedBy(s, p) ==> r == s
    ensures forall c :: c in r ==> c in s
  {
    var a := LeadingCount(s, p);
    var rest := s[a..];
    var b := TrailingCount(rest, p);
    assert rest[..|rest| - b] == s[a..|s| - b];
    rest[..|rest| - b]
  }

  /** `trim($s)`. */
  function Trim(s: string): (r: string)
    ensures TrimmedBy(r, IsTrimChar)
    ensures TrimmedBy(s, IsTrimChar) ==> r == s
    ensures forall c :: c in r ==> c in s
  {
    TrimBy(s, IsTrimChar)
  }

  predicate IsDash(c: char)
  {
    c == '-'
  }

  /** `trim($s, '-')`. */
  function TrimDashes(s: string): (r: string)
    ensures TrimmedBy(r, IsDash)
    ensures TrimmedBy(s, IsDash) ==> r == s
    ensures forall c :: c in r ==> c in s
  {
    TrimBy(s, IsDash)
  }

  /** `trim($s, $chars)` removes exactly the runs of `$chars` around a value that has none at either end. */
  lemma TrimByAround(lead: string, v: string, trail: string, p: char -> bool)
    requires forall i :: 0 <= i < |lead| ==> p(lead[i])
    requires forall i :: 0 <= i < |trail| ==> p(trail[i])
    requires TrimmedBy(v, p)
    ensures TrimBy(lead + v + trail, p) == v
  {
    var s := lead + v + trail;
    if v == [] {
      assert s == lead + trail;
      LeadingCountAll(s, p);
      assert s[|s|..] == [];
    } else {
      LeadingCountPrefix(lead, v + trail, p);
      assert s == lead + (v + trail);
      assert s[|lead|..] == v + trail;
      TrailingCountSuffix(v, trail, p);
      assert (v + trail)[..|v + trail| - |trail|] == v;
    }
  }

  /** `trim($s, '-')` removes exactly the dashes around a value with no dash at either end. */
  lemma TrimDashesAround(lead: string, v: string, trail: string)
    requires forall i :: 0 <= i < |lead| ==> lead[i] == '-'
    requires forall i :: 0 <= i < |trail| ==> trail[i] == '-'
    requires TrimmedBy(v, IsDash)
    ensures TrimDashes(lead + v + trail) == v
  {
    TrimByAround(lead, v, trail, IsDash);
  }

  /** `str_starts_with($s, $prefix)` (and `strpos($s, $prefix) === 0`). */
  predicate StartsWith(s: string, prefix: string)
  {
    |prefix| <= |s| && s[..|prefix|] == prefix
  }

  /** `$pattern` occurs in `$text` at position `i`. */
  predicate OccursAt(text: string, pattern: string, i: nat)
  {
    i + |pattern| <= |text| && text[i..i + |pattern|] == pattern
  }

  /** `strpos($text, $pattern)`: the first position, or `false` as `None`. */
  function Strpos(text: string, pattern: string, from: nat := 0): (r: Option<nat>)
    requires from <= |text|
    ensures r.Some? ==> from <= r.value && OccursAt(text, pattern, r.value)
    ensures r.Some? ==> forall j :: from <= j < r.value ==> !OccursAt(text, pattern, j)
    ensures r.None? ==> forall j :: from <= j <= |text| ==> !OccursAt(text, pattern, j)
    decreases |text| - from
  {
    if OccursAt(text, pattern, from) then Some(from)
    else if from == |text| then None
    else Strpos(text, pattern, from + 1)
  }

  /** `str_contains($text, $pattern)`, i.e. `strpos(...) !== false`. */
  predicate Contains(text: string, pattern: string)
  {
    Strpos(text, pattern).Some?
  }

  /** `empty($s)` for a string: `""` and `"0"` are empty. */
  predicate EmptyString(s: string)
  {
    s == "" || s == "0"
  }

  /** `explode($sep, $s)` for a one-character separator: every piece, in order. */
  function Explode(sep: char, s: string): (parts: seq<string>)
    ensures |parts| >= 1
    ensures forall i :: 0 <= i < |parts| ==> sep !in parts[i]
  {
    if s == [] then [""]
    else
      var rest := Explode(sep, s[1..]);
      if s[0] == sep then [""] + rest
      else [[s[0]] + rest[0]] + rest[1..]
  }

  /** `implode($sep, $parts)`. */
  function Implode(sep: string, parts: seq<string>): string
  {
    if |parts| == 0 then ""
    else if |parts| == 1 then parts[0]
    else parts[0] + sep + Implode(sep, parts[1..])
  }

  /** Splitting what `implode` joined with a separator nobody contains gives the pieces back. */
  lemma {:induction false} ExplodeImplode(sep: char, parts: seq<string>)
    requires |parts| >= 1
    requires forall i :: 0 <= i < |parts| ==> sep !in parts[i]
    ensures Explode(sep, Implode([sep], parts)) == parts
    decreases |parts|
  {
    if |parts| == 1 {
      ExplodeNoSeparator(sep, parts[0]);
    } else {
      ExplodeImplode(sep, parts[1..]);
      ExplodeAppend(sep, parts[0], Implode([sep], parts[1..]));
      assert parts[0] + [sep] + Implode([sep], parts[1..]) == parts[0] + ([sep] + Implode([sep], parts[1..]));
    }
  }

  lemma {:induction false} ExplodeNoSeparator(sep: char, s: string)
    requires sep !in s
    ensures Explode(sep, s) == [s]
    decreases |s|
  {
    if s != [] {
      ExplodeNoSeparator(sep, s[1..]);
      assert [s[0]] + s[1..] == s;
    }
  }

  /** A separator-free head followed by a separator starts a new piece. */
  lemma {:induction false} ExplodeAppend(sep: char, head: string, tail: string)
    requires sep !in head
    ensures Explode(sep, head + ([sep] + tail)) == [head] + Explode(sep, tail)
    decreases |head|
  {
    if head == [] {
      assert head + ([sep] + tail) == [sep] + tail;
      assert ([sep] + tail)[1..] == tail;
    } else {
      var s := head + ([sep] + tail);
      assert s[0] == head[0];
      assert s[1..] == head[1..] + ([sep] + tail);
      ExplodeAppend(sep, head[1..], tail);
      assert [head[0]] + head[1..] == head;
    }
  }

  /** `explode($sep, $s, 2)` padded to two pieces with `''` (array_pad). */
  function SplitFirst(sep: char, s: string): (r: (string, string))
    ensures sep !in r.0
    ensures sep in s ==> s == r.0 + [sep] + r.1
    ensures sep !in s ==> r == (s, "")
  {
    if s == [] then ("", "")
    else if s[0] == sep then ("", s[1..])
    else
      var rest := SplitFirst(sep, s[1..]);
      assert s == [s[0]] + s[1..];
      assert sep !in s ==> sep !in s[1..];
      ([s[0]] + rest.0, rest.1)
  }

  /** The decimal digits of a natural number, as `(string) $n` prints them. */
  function NatToString(n: nat): (r: string)
    ensures |r| >= 1
    ensures forall i :: 0 <= i < |r| ==> '0' <= r[i] <= '9'
    decreases n
  {
    if n < 10 then [DigitChar(n)] else NatToString(n / 10) + [DigitChar(n % 10)]
  }

  function DigitChar(d: nat): (c: char)
    requires d < 10
    ensures '0' <= c <= '9'
  {
    ('0' as int + d) as char
  }

  predicate IsDigit(c: char)
  {
    '0' <= c <= '9'
  }

  /** The characters that PHP's numeric-string parsing skips in front. */
  predicate IsNumericSpace(c: char)
  {
    c == ' ' || c == '\t' || c == '\n' || c == '\r' || c == '\U{B}' || c == '\U{C}'
  }

  /** The value of a run of decimal digits. */
  function DigitsValue(digits: string): nat
    requires forall i :: 0 <= i < |digits| ==> IsDigit(digits[i])
  {
    if digits == [] then 0
    else
      var last := digits[|digits| - 1];
      assert IsDigit(last);
      10 * DigitsValue(digits[..|digits| - 1]) + (last as int - '0' as int)
  }

  /**
   * `(int) $s` for a string: leading white space, an optional sign and the
   * longest run of digits; no digits give 0.  PHP 8 also reads a numeric
   * string's fraction and exponent (`(int)"1e3"` is 1000); that case is not
   * modelled.
   */
  function IntCast(s: string): int
  {
    var body := s[LeadingCount(s, IsNumericSpace)..];
    var negative := |body| > 0 && body[0] == '-';
    var unsigned := if |body| > 0 && (body[0] == '-' || body[0] == '+') then body[1..] else body;
    var digits := unsigned[..LeadingCount(unsigned, IsDigit)];
    var magnitude: int := DigitsValue(digits);
    if negative then -magnitude else magnitude
  }

  lemma IntCastOfDigits(s: string)
    requires |s| > 0 && forall i :: 0 <= i < |s| ==> IsDigit(s[i])
    ensures IntCast(s) == DigitsValue(s)
  {
    assert LeadingCount(s, IsNumericSpace) == 0;
    assert s[0..] == s;
    assert LeadingCount(s, IsDigit) == |s| by {
      LeadingCountAll(s, IsDigit);
    }
    assert s[..|s|] == s;
  }

  lemma {:induction false} LeadingCountAll(s: string, p: char -> bool)
    requires forall i :: 0 <= i < |s| ==> p(s[i])
    ensures LeadingCount(s, p) == |s|
    decreases |s|
  {
    if s != [] {
      LeadingCountAll(s[1..], p);
    }
  }

  lemma {:induction false} LeadingCountPrefix(x: string, y: string, p: char -> bool)
    requires forall i :: 0 <= i < |x| ==> p(x[i])
    requires y != [] && !p(y[0])
    ensures LeadingCount(x + y, p) == |x|
    decreases |x|
  {
    if x == [] {
      assert x + y == y;
    } else {
      assert (x + y)[1..] == x[1..] + y;
      LeadingCountPrefix(x[1..], y, p);
    }
  }

  lemma {:induction false} TrailingCountSuffix(x: string, y: string, p: char -> bool)
    requires forall i :: 0 <= i < |y| ==> p(y[i])
    requires x != [] && !p(x[|x| - 1])
    ensures TrailingCount(x + y, p) == |y|
    decreases |y|
  {
    if y == [] {
      assert x + y == x;
    } else {
      assert (x + y)[..|x + y| - 1] == x + y[..|y| - 1];
      TrailingCountSuffix(x, y[..|y| - 1], p);
    }
  }
}
