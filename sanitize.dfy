/**
 * The WordPress/WooCommerce sanitisers the engine compares and stores by,
 * as the plugin's test bootstrap defines them: `sanitize_title`,
 * `sanitize_key`, `sanitize_text_field`, `wc_clean` and
 * `wc_get_text_attributes`.
 */
module Sanitize {
  import opened PhpString

  /** The characters `sanitize_title` keeps: `[a-z0-9_-]`. */
  predicate IsTitleChar(c: char)
  {
    'a' <= c <= 'z' || '0' <= c <= '9' || c == '_' || c == '-'
  }

  predicate IsNotTitleChar(c: char)
  {
    !IsTitleChar(c)
  }

  predicate AllTitleChars(s: string)
  {
    forall i :: 0 <= i < |s| ==> IsTitleChar(s[i])
  }

  /** `preg_replace('/[^a-z0-9_\-]+/u', '-', $s)`: each maximal run of other characters becomes one `-`. */
  function ReplaceDisallowedRuns(s: string): (r: string)
    ensures AllTitleChars(r)
    ensures AllTitleChars(s) ==> r == s
    decreases |s|
  {
    if s == [] then []
    else if IsTitleChar(s[0]) then [s[0]] + ReplaceDisallowedRuns(s[1..])
    else
      var run := LeadingCount(s[1..], IsNotTitleChar);
      "-" + ReplaceDisallowedRuns(s[1 + run..])
  }

  /** Characters of `[a-z0-9_-]` in front pass through the replacement unchanged. */
  lemma {:induction false} ReplaceDisallowedRunsKeepsPrefix(x: string, y: string)
    requires AllTitleChars(x)
    ensures ReplaceDisallowedRuns(x + y) == x + ReplaceDisallowedRuns(y)
    decreases |x|
  {
    if x == [] {
      assert x + y == y;
    } else {
      assert (x + y)[0] == x[0] && (x + y)[1..] == x[1..] + y;
      assert AllTitleChars(x[1..]) by {
        assert forall i :: 0 <= i < |x[1..]| ==> x[1..][i] == x[i + 1];
      }
      ReplaceDisallowedRunsKeepsPrefix(x[1..], y);
    }
  }

  /** A maximal run of characters outside `[a-z0-9_-]` becomes exactly one `-`. */
  lemma ReplaceDisallowedRunsOfRun(run: string, y: string)
    requires run != [] && forall i :: 0 <= i < |run| ==> IsNotTitleChar(run[i])
    requires y == [] || IsTitleChar(y[0])
    ensures ReplaceDisallowedRuns(run + y) == "-" + ReplaceDisallowedRuns(y)
  {
    var s := run + y;
    var tail := run[1..];
    assert s[1..] == tail + y;
    assert forall i :: 0 <= i < |tail| ==> IsNotTitleChar(tail[i]) by {
      assert forall i :: 0 <= i < |tail| ==> tail[i] == run[i + 1];
    }
    if y == [] {
      assert tail + y == tail;
      LeadingCountAll(tail, IsNotTitleChar);
    } else {
      LeadingCountPrefix(tail, y, IsNotTitleChar);
    }
    assert s[1 + |tail|..] == y;
  }

  /**
   * The replacement on any string cut at its first run of other characters:
   * the clean part is kept, the run becomes one `-`, and the rest is replaced
   * the same way.
   */
  lemma ReplaceDisallowedRunsSplit(x: string, run: string, y: string)
    requires AllTitleChars(x)
    requires run != [] && forall i :: 0 <= i < |run| ==> IsNotTitleChar(run[i])
    requires y == [] || IsTitleChar(y[0])
    ensures ReplaceDisallowedRuns(x + run + y) == x + "-" + ReplaceDisallowedRuns(y)
  {
    assert x + run + y == x + (run + y);
    ReplaceDisallowedRunsKeepsPrefix(x, run + y);
    ReplaceDisallowedRunsOfRun(run, y);
  }

  /**
   * `sanitize_title`: ASCII-lowercase, collapse every run of characters
   * outside `[a-z0-9_-]` into `-`, then trim dashes from both ends.
   */
  function SanitizeTitle(title: string): string
  {
    TrimDashes(ReplaceDisallowedRuns(Lower(title)))
  }

  /** What `sanitize_title` produces: only `[a-z0-9_-]`, and no dash at either end. */
  lemma SanitizeTitleShape(title: string)
    ensures AllTitleChars(SanitizeTitle(title))
    ensures var r := SanitizeTitle(title); r == [] || (r[0] != '-' && r[|r| - 1] != '-')
  {
    var collapsed := ReplaceDisallowedRuns(Lower(title));
    var r := TrimDashes(collapsed);
    assert forall c :: c in r ==> IsTitleChar(c);
  }

  /**
   * Two lower-case words around a run of white space or punctuation become
   * one dashed title, as `sanitize_title('Cor Azul')` gives `cor-azul` once
   * lowered.
   */
  lemma SanitizeTitleOfWords(x: string, run: string, y: string)
    requires x != [] && y != []
    requires forall i :: 0 <= i < |x| ==> IsKeyChar(x[i])
    requires forall i :: 0 <= i < |y| ==> IsKeyChar(y[i])
    requires run != [] && forall i :: 0 <= i < |run| ==> IsNotTitleChar(run[i]) && !IsAsciiUpper(run[i])
    ensures SanitizeTitle(x + run + y) == x + "-" + y
  {
    var s := x + run + y;
    assert IsLower(s) by {
      forall i | 0 <= i < |s| ensures !IsAsciiUpper(s[i]) {
        if i < |x| {
          assert s[i] == x[i];
        } else if i < |x| + |run| {
          assert s[i] == run[i - |x|];
        } else {
          assert s[i] == y[i - |x| - |run|];
        }
      }
    }
    LowerIsLower(s);
    assert AllTitleChars(x) && AllTitleChars(y);
    ReplaceDisallowedRunsSplit(x, run, y);
    var t := x + "-" + y;
    assert TrimmedBy(t, IsDash) by {
      assert t[0] == x[0] && t[|t| - 1] == y[|y| - 1];
    }
  }

  /** `sanitize_title` is idempotent. */
  lemma SanitizeTitleIdempotent(title: string)
    ensures SanitizeTitle(SanitizeTitle(title)) == SanitizeTitle(title)
  {
    var u := SanitizeTitle(title);
    SanitizeTitleShape(title);
    assert IsLower(u);
    LowerIsLower(u);
    assert ReplaceDisallowedRuns(Lower(u)) == u;
    assert TrimmedBy(u, IsDash);
  }

  /** The characters `sanitize_key` keeps: `[a-z0-9_]`. */
  predicate IsKeyChar(c: char)
  {
    'a' <= c <= 'z' || '0' <= c <= '9' || c == '_'
  }

  /** The characters of `s` that satisfy `p`, in order. */
  function Filter(s: string, p: char -> bool): (r: string)
    ensures forall i :: 0 <= i < |r| ==> p(r[i])
    ensures (forall i :: 0 <= i < |s| ==> p(s[i])) ==> r == s
    ensures |r| <= |s|
  {
    if s == [] then [] else (if p(s[0]) then [s[0]] else []) + Filter(s[1..], p)
  }

  /** `Filter` distributes over concatenation. */
  lemma {:induction false} FilterAppend(a: string, b: string, p: char -> bool)
    ensures Filter(a + b, p) == Filter(a, p) + Filter(b, p)
    decreases |a|
  {
    if a == [] {
      assert a + b == b;
    } else {
      var head := if p(a[0]) then [a[0]] else [];
      assert (a + b)[0] == a[0] && (a + b)[1..] == a[1..] + b;
      FilterAppend(a[1..], b, p);
      assert Filter(a + b, p) == head + (Filter(a[1..], p) + Filter(b, p));
      assert Filter(a, p) == head + Filter(a[1..], p);
    }
  }

  /** `sanitize_key`: ASCII-lowercase, then delete every character outside `[a-z0-9_]`. */
  function SanitizeKey(key: string): (r: string)
    ensures forall i :: 0 <= i < |r| ==> IsKeyChar(r[i])
  {
    Filter(Lower(key), IsKeyChar)
  }

  /** `sanitize_key` is idempotent. */
  lemma SanitizeKeyIdempotent(key: string)
    ensures SanitizeKey(SanitizeKey(key)) == SanitizeKey(key)
  {
    var u := SanitizeKey(key);
    assert IsLower(u);
    LowerIsLower(u);
  }

  /** `sanitize_key` leaves keys already made of `[a-z0-9_]` alone. */
  lemma SanitizeKeyOfKeyChars(key: string)
    requires forall i :: 0 <= i < |key| ==> IsKeyChar(key[i])
    ensures SanitizeKey(key) == key
  {
    assert IsLower(key);
    LowerIsLower(key);
  }

  predicate IsNotLow(c: char)
  {
    c as int >= 32
  }

  /** `sanitize_text_field`: strip characters below U+0020, then trim. */
  function SanitizeTextField(value: string): (r: string)
    ensures forall c :: c in r ==> IsNotLow(c) && c in value
    ensures TrimmedBy(r, IsTrimChar)
  {
    var f := Filter(value, IsNotLow);
    assert forall c :: c in f ==> c in value by {
      FilterSubset(value, IsNotLow);
    }
    Trim(f)
  }

  lemma {:induction false} FilterSubset(s: string, p: char -> bool)
    ensures forall c :: c in Filter(s, p) ==> c in s
    decreases |s|
  {
    if s != [] {
      FilterSubset(s[1..], p);
    }
  }

  /** `wc_clean` on a string: `trim`. */
  function WcClean(value: string): (r: string)
    ensures TrimmedBy(r, IsTrimChar)
    ensures TrimmedBy(value, IsTrimChar) ==> r == value
  {
    Trim(value)
  }

  /** `array_map('trim', ...)`. */
  function TrimAll(parts: seq<string>): (r: seq<string>)
    ensures |r| == |parts|
    ensures forall i :: 0 <= i < |parts| ==> r[i] == Trim(parts[i])
  {
    seq(|parts|, i requires 0 <= i < |parts| => Trim(parts[i]))
  }

  lemma TrimAllCons(first: string, rest: seq<string>)
    ensures TrimAll([first] + rest) == [Trim(first)] + TrimAll(rest)
  {
    var parts := [first] + rest;
    var l := [Trim(first)] + TrimAll(rest);
    forall i | 0 <= i < |parts| ensures TrimAll(parts)[i] == l[i] {
      if i > 0 {
        assert parts[i] == rest[i - 1];
      }
    }
  }

  /** `array_values(array_filter(..., fn($item) => '' !== $item))`. */
  function NonEmptyParts(parts: seq<string>): (r: seq<string>)
    ensures forall i :: 0 <= i < |r| ==> r[i] != "" && r[i] in parts
    ensures (forall i :: 0 <= i < |parts| ==> parts[i] != "") ==> r == parts
    ensures |parts| == 1 ==> r == (if parts[0] == "" then [] else parts)
  {
    if parts == [] then []
    else (if parts[0] != "" then [parts[0]] else []) + NonEmptyParts(parts[1..])
  }

  /** The filter distributes over concatenation: every non-empty part is kept, in order. */
  lemma {:induction false} NonEmptyPartsAppend(a: seq<string>, b: seq<string>)
    ensures NonEmptyParts(a + b) == NonEmptyParts(a) + NonEmptyParts(b)
    decreases |a|
  {
    if a == [] {
      assert a + b == b;
    } else {
      assert (a + b)[0] == a[0] && (a + b)[1..] == a[1..] + b;
      NonEmptyPartsAppend(a[1..], b);
    }
  }

  /**
   * `wc_get_text_attributes`: split a `|`-separated value, trim each piece
   * and drop the empty ones; `""` gives no pieces.
   */
  function WcGetTextAttributes(value: string): (r: seq<string>)
    ensures value == "" ==> r == []
    ensures forall i :: 0 <= i < |r| ==> r[i] != "" && '|' !in r[i] && TrimmedBy(r[i], IsTrimChar)
  {
    if value == "" then []
    else
      var pieces := Explode('|', value);
      var trimmed := TrimAll(pieces);
      assert forall i :: 0 <= i < |trimmed| ==> '|' !in trimmed[i];
      NonEmptyParts(trimmed)
  }

  /**
   * `wc_get_text_attributes` of pieces joined by `|`: each piece trimmed, and
   * the empty ones dropped, in order.
   */
  lemma WcGetTextAttributesOfPieces(pieces: seq<string>)
    requires |pieces| >= 1
    requires forall i :: 0 <= i < |pieces| ==> '|' !in pieces[i]
    ensures WcGetTextAttributes(Implode("|", pieces)) == NonEmptyParts(TrimAll(pieces))
  {
    var value := Implode("|", pieces);
    assert ['|'] == "|";
    if |pieces| == 1 && pieces[0] == "" {
      assert TrimAll(pieces) == [Trim("")];
    } else {
      if |pieces| > 1 {
        assert value == pieces[0] + "|" + Implode("|", pieces[1..]);
      }
      assert value != "";
      ExplodeImplode('|', pieces);
    }
  }

  /** A value usable as one `|`-separated option: non-empty, trimmed and free of `|`. */
  predicate IsOptionText(v: string)
  {
    v != "" && TrimmedBy(v, IsTrimChar) && '|' !in v
  }

  /**
   * The round trip the CLI simulator relies on: options joined with
   * `implode(' | ', ...)` are read back by `wc_get_text_attributes` unchanged.
   */
  lemma TextAttributesRoundTrip(values: seq<string>)
    requires |values| >= 1
    requires forall i :: 0 <= i < |values| ==> IsOptionText(values[i])
    ensures WcGetTextAttributes(Implode(" | ", values)) == values
  {
    var joined := Implode(" | ", values);
    assert joined != "" by {
      ImplodeStartsWithFirst(values);
    }
    SplitPadded(values, "");
    assert "" + joined == joined;
  }

  lemma {:induction false} ImplodeStartsWithFirst(values: seq<string>)
    requires |values| >= 1
    ensures StartsWith(Implode(" | ", values), values[0])
  {
    if |values| > 1 {
      assert Implode(" | ", values) == values[0] + (" | " + Implode(" | ", values[1..]));
    }
  }

  /** Splitting `lead + implode(' | ', values)` and trimming gives `values` when `lead` is white space. */
  lemma {:induction false} SplitPadded(values: seq<string>, lead: string)
    requires |values| >= 1
    requires forall i :: 0 <= i < |values| ==> IsOptionText(values[i])
    requires forall i :: 0 <= i < |lead| ==> IsTrimChar(lead[i]) && lead[i] != '|'
    ensures TrimAll(Explode('|', lead + Implode(" | ", values))) == values
    decreases |values|
  {
    var v := values[0];
    if |values| == 1 {
      assert '|' !in lead + v;
      ExplodeNoSeparator('|', lead + v);
      TrimAround(lead, v, "");
      assert lead + v + "" == lead + v;
    } else {
      var rest := values[1..];
      var whole := lead + Implode(" | ", values);
      assert whole == (lead + v + " ") + (['|'] + (" " + Implode(" | ", rest)));
      assert '|' !in lead + v + " ";
      ExplodeAppend('|', lead + v + " ", " " + Implode(" | ", rest));
      SplitPadded(rest, " ");
      TrimAround(lead, v, " ");
      var pieces := Explode('|', whole);
      assert pieces == [lead + v + " "] + Explode('|', " " + Implode(" | ", rest));
      TrimAllCons(lead + v + " ", Explode('|', " " + Implode(" | ", rest)));
    }
  }

  /** `trim` removes exactly the white space around a trimmed value. */
  lemma TrimAround(lead: string, v: string, trail: string)
    requires forall i :: 0 <= i < |lead| ==> IsTrimChar(lead[i])
    requires forall i :: 0 <= i < |trail| ==> IsTrimChar(trail[i])
    requires TrimmedBy(v, IsTrimChar)
    ensures Trim(lead + v + trail) == v
  {
    TrimByAround(lead, v, trail, IsTrimChar);
  }
}
