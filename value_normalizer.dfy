/**
 * `Value_Normalizer::normalize`, the key every variation lookup compares
 * by: trim, ASCII-lowercase, decompose and strip combining marks when the
 * intl extension is loaded, then replace the accented Portuguese letters of
 * a fixed table.
 */
module ValueNormalizer {
  import opened PhpString
  import opened Sanitize

  /**
   * Whether `\Normalizer` exists.  With it, `nfd` is
   * `Normalizer::normalize($s, FORM_D)` and `isMark` is membership in the
   * Unicode category Mn; both belong to ICU and are left uninterpreted.
   */
  datatype Intl = NoIntl | WithIntl(nfd: string -> string, isMark: char -> bool)

  /** The thirteen characters of the substitution table. */
  predicate InFallbackTable(c: char)
  {
    c in "áàãâéêíóôõúüç"
  }

  /** The table itself: á à ã â → a, é ê → e, í → i, ó ô õ → o, ú ü → u, ç → c. */
  function FallbackChar(c: char): (r: char)
    ensures !InFallbackTable(r)
    ensures !InFallbackTable(c) ==> r == c
    ensures IsAscii(c) ==> r == c
  {
    if c in "áàãâ" then 'a'
    else if c in "éê" then 'e'
    else if c == 'í' then 'i'
    else if c in "óôõ" then 'o'
    else if c in "úü" then 'u'
    else if c == 'ç' then 'c'
    else c
  }

  /** `strtr($s, $map)` with single-character keys: every character is replaced independently. */
  function Strtr(s: string): (r: string)
    ensures |r| == |s|
    ensures forall i :: 0 <= i < |s| ==> r[i] == FallbackChar(s[i])
  {
    seq(|s|, i requires 0 <= i < |s| => FallbackChar(s[i]))
  }

  /** `preg_replace('/\p{Mn}+/u', '', $s)`: every mark is dropped. */
  function StripMarks(s: string, isMark: char -> bool): (r: string)
    ensures forall i :: 0 <= i < |r| ==> !isMark(r[i])
  {
    Filter(s, c => !isMark(c))
  }

  function Normalize(value: string, intl: Intl): (r: string)
    ensures forall i :: 0 <= i < |r| ==> !InFallbackTable(r[i])
  {
    var clean := Lower(Trim(WcClean(value)));
    var decomposed := if intl.WithIntl? then StripMarks(intl.nfd(clean), intl.isMark) else clean;
    Strtr(decomposed)
  }

  /** The intl extension leaves plain ASCII alone: NFD fixes it and no ASCII character is a mark. */
  ghost predicate FixesAscii(intl: Intl)
  {
    intl.WithIntl? ==>
      (forall s :: IsAsciiString(s) ==> intl.nfd(s) == s) &&
      (forall c :: IsAscii(c) ==> !intl.isMark(c))
  }

  /** On ASCII input `normalize` is `strtolower(trim($value))`, with or without intl. */
  lemma NormalizeAscii(value: string, intl: Intl)
    requires IsAsciiString(value)
    requires FixesAscii(intl)
    ensures Normalize(value, intl) == Lower(Trim(value))
  {
    var clean := Lower(Trim(WcClean(value)));
    assert Trim(WcClean(value)) == Trim(value);
    assert IsAsciiString(Trim(value)) by {
      forall i | 0 <= i < |Trim(value)| ensures IsAscii(Trim(value)[i]) {
        assert Trim(value)[i] in value;
      }
    }
    assert IsAsciiString(clean);
    if intl.WithIntl? {
      assert intl.nfd(clean) == clean;
      assert StripMarks(clean, intl.isMark) == clean;
    }
  }

  /** The value the seeded test maps: `normalize("Azul")` is `"azul"`. */
  lemma NormalizeAzul(intl: Intl)
    requires FixesAscii(intl)
    ensures Normalize("Azul", intl) == "azul"
  {
    NormalizeAscii("Azul", intl);
    AzulPieces();
  }

  lemma AzulPieces()
    ensures Trim("Azul") == "Azul"
    ensures Lower("Azul") == "azul"
  {
    assert TrimmedBy("Azul", IsTrimChar);
    var lowered := Lower("Azul");
    assert lowered[0] == 'a' && lowered[1] == 'z' && lowered[2] == 'u' && lowered[3] == 'l';
  }

  /** Without intl, `normalize` is idempotent. */
  lemma NormalizeIdempotentWithoutIntl(value: string)
    ensures Normalize(Normalize(value, NoIntl), NoIntl) == Normalize(value, NoIntl)
  {
    var t := Trim(value);
    assert Trim(WcClean(value)) == t;
    var r := Strtr(Lower(t));
    assert r == Normalize(value, NoIntl);
    assert TrimmedBy(r, IsTrimChar) by {
      if r != [] {
        KeepsNonTrim(t[0]);
        KeepsNonTrim(t[|t| - 1]);
      }
    }
    assert IsLower(r) by {
      forall i | 0 <= i < |r| ensures !IsAsciiUpper(r[i]) {
        KeepsNonTrim(t[i]);
      }
    }
    LowerIsLower(r);
    assert WcClean(r) == r && Trim(r) == r;
    assert Strtr(r) == r;
  }

  /** Lower-casing and the table never turn a character into one `trim` strips, nor into a capital. */
  lemma KeepsNonTrim(c: char)
    ensures !IsTrimChar(c) ==> !IsTrimChar(FallbackChar(LowerChar(c)))
    ensures !IsAsciiUpper(FallbackChar(LowerChar(c)))
  {
  }

  /**
   * With intl, `strtolower` runs before decomposition, so a capital
   * accented letter loses its accent but keeps its case: `"É"` becomes
   * `"E"`, and normalising again gives `"e"`.
   */
  lemma NormalizeNotIdempotentWithIntl(intl: Intl)
    requires intl.WithIntl?
    requires intl.nfd("É") == "E\U{301}" && intl.isMark('\U{301}') && !intl.isMark('E')
    requires intl.nfd("e") == "e" && !intl.isMark('e')
    ensures Normalize("É", intl) == "E"
    ensures Normalize("E", intl) == "e"
    ensures Normalize(Normalize("É", intl), intl) != Normalize("É", intl)
  {
    AccentPieces();
    assert StripMarks("E\U{301}", intl.isMark) == "E";
    assert StripMarks("e", intl.isMark) == "e";
  }

  lemma AccentPieces()
    ensures Trim("É") == "É" && Lower("É") == "É"
    ensures Trim("E") == "E" && Lower("E") == "e"
  {
    assert TrimmedBy("É", IsTrimChar);
    assert TrimmedBy("E", IsTrimChar);
    assert Lower("E")[0] == 'e';
  }
}
