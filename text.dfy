/**
 * The string operations the pipeline applies to headers, currency labels
 * and row labels: accent stripping (Unicode NFKD followed by dropping the
 * combining marks), Python's `str.lower`, `str.strip`, `str.replace(" ", "_")`,
 * substring and prefix tests, and Python's code-point order on strings.
 *
 * Character tables cover ASCII and Latin-1 (U+0000..U+00FF) exactly; the
 * combining marks recognised are those of the Combining Diacritical Marks
 * block (U+0300..U+036F).
 */
module Text {
  import Sorting

  /** The characters Python's `str.isspace` accepts, which `str.strip()` removes. */
  predicate IsSpace(c: char) {
    || c == ' ' || ('\t' <= c <= '\r') || ('\U{1C}' <= c <= '\U{1F}')
    || c == '\U{85}' || c == '\U{A0}' || c == '\U{1680}'
    || ('\U{2000}' <= c <= '\U{200A}') || c == '\U{2028}' || c == '\U{2029}'
    || c == '\U{202F}' || c == '\U{205F}' || c == '\U{3000}'
  }

  /** A nonzero combining class in U+0300..U+036F (U+034F has class 0). */
  predicate IsCombining(c: char) {
    '\U{300}' <= c <= '\U{36F}' && c != '\U{34F}'
  }

  /** The base letter of a Latin-1 letter whose NFKD form is letter + accent. */
  function BaseLetter(c: char): char {
    if '\U{C0}' <= c <= '\U{C5}' then 'A'
    else if c == '\U{C7}' then 'C'
    else if '\U{C8}' <= c <= '\U{CB}' then 'E'
    else if '\U{CC}' <= c <= '\U{CF}' then 'I'
    else if c == '\U{D1}' then 'N'
    else if '\U{D2}' <= c <= '\U{D6}' then 'O'
    else if '\U{D9}' <= c <= '\U{DC}' then 'U'
    else if c == '\U{DD}' then 'Y'
    else if '\U{E0}' <= c <= '\U{E5}' then 'a'
    else if c == '\U{E7}' then 'c'
    else if '\U{E8}' <= c <= '\U{EB}' then 'e'
    else if '\U{EC}' <= c <= '\U{EF}' then 'i'
    else if c == '\U{F1}' then 'n'
    else if '\U{F2}' <= c <= '\U{F6}' then 'o'
    else if '\U{F9}' <= c <= '\U{FC}' then 'u'
    else if c == '\U{FD}' || c == '\U{FF}' then 'y'
    else c
  }

  /** The Latin-1 characters whose NFKD form is a compatibility replacement. */
  predicate IsCompatibility(c: char) {
    || c == '\U{A0}' || c == '\U{A8}' || c == '\U{AA}' || c == '\U{AF}'
    || ('\U{B2}' <= c <= '\U{B5}') || c == '\U{B8}' || c == '\U{B9}'
    || ('\U{BA}' <= c <= '\U{BE}' && c != '\U{BB}')
  }

  /**
   * The NFKD replacement of a compatibility character with its combining
   * marks dropped: a space for the no-break space and the spacing accents,
   * plain letters and digits for the ordinal indicators and superscripts,
   * Greek mu for the micro sign, and digit-slash-digit for the fractions.
   */
  function CompatibilityForm(c: char): seq<char>
    requires IsCompatibility(c)
  {
    if c == '\U{AA}' then ['a']
    else if c == '\U{BA}' then ['o']
    else if c == '\U{B2}' then ['2']
    else if c == '\U{B3}' then ['3']
    else if c == '\U{B9}' then ['1']
    else if c == '\U{B5}' then ['\U{3BC}']
    else if c == '\U{BC}' then ['1', '\U{2044}', '4']
    else if c == '\U{BD}' then ['1', '\U{2044}', '2']
    else if c == '\U{BE}' then ['3', '\U{2044}', '4']
    else [' ']
  }

  /**
   * What one character becomes under NFKD once the combining marks are
   * dropped: nothing for a combining mark, its compatibility form, or its
   * base letter.
   */
  function FoldChar(c: char): seq<char> {
    if IsCombining(c) then []
    else if IsCompatibility(c) then CompatibilityForm(c)
    else [BaseLetter(c)]
  }

  /** `"".join(ch for ch in normalize("NFKD", s) if not combining(ch))` */
  function StripAccents(s: string): (r: string)
    ensures forall k :: 0 <= k < |r| ==> !IsCombining(r[k])
  {
    if s == [] then [] else FoldChar(s[0]) + StripAccents(s[1..])
  }

  /** Python's lower-case mapping on ASCII and Latin-1 capitals. */
  function LowerChar(c: char): char {
    if 'A' <= c <= 'Z' || ('\U{C0}' <= c <= '\U{DE}' && c != '\U{D7}') then
      (c as int + 32) as char
    else c
  }

  function Lower(s: string): (r: string)
    ensures |r| == |s|
  {
    seq(|s|, k requires 0 <= k < |s| => LowerChar(s[k]))
  }

  function TrimStart(s: string): string {
    if s != [] && IsSpace(s[0]) then TrimStart(s[1..]) else s
  }

  function TrimEnd(s: string): string {
    if s != [] && IsSpace(s[|s| - 1]) then TrimEnd(s[..|s| - 1]) else s
  }

  lemma {:induction false} TrimStartFacts(s: string)
    ensures |TrimStart(s)| <= |s| && TrimStart(s) == s[|s| - |TrimStart(s)|..]
    ensures TrimStart(s) == [] || !IsSpace(TrimStart(s)[0])
    decreases |s|
  {
    if s != [] && IsSpace(s[0]) {
      TrimStartFacts(s[1..]);
    }
  }

  lemma {:induction false} TrimEndFacts(s: string)
    ensures |TrimEnd(s)| <= |s| && TrimEnd(s) == s[..|TrimEnd(s)|]
    ensures TrimEnd(s) == [] || !IsSpace(TrimEnd(s)[|TrimEnd(s)| - 1])
    decreases |s|
  {
    if s != [] && IsSpace(s[|s| - 1]) {
      TrimEndFacts(s[..|s| - 1]);
    }
  }

  /** Python's `str.strip()`: whitespace removed at both ends, the middle kept. */
  function Strip(s: string): (r: string)
    ensures r == [] || (!IsSpace(r[0]) && !IsSpace(r[|r| - 1]))
  {
    TrimStartFacts(s);
    TrimEndFacts(TrimStart(s));
    var r := TrimEnd(TrimStart(s));
    assert r != [] ==> r[0] == TrimStart(s)[0];
    r
  }

  /** What `Strip` keeps is one contiguous slice of its input. */
  lemma StripIsSlice(s: string) returns (i: nat)
    ensures i + |Strip(s)| <= |s| && Strip(s) == s[i..i + |Strip(s)|]
  {
    var a := TrimStart(s);
    TrimStartFacts(s);
    TrimEndFacts(a);
    var r := TrimEnd(a);
    i := |s| - |a|;
    assert r == s[i..][..|r|];
  }

  /** Python's `str.replace(" ", "_")`. */
  function ReplaceSpaces(s: string): (r: string)
    ensures |r| == |s| && ' ' !in r
    ensures forall k :: 0 <= k < |s| ==> r[k] == (if s[k] == ' ' then '_' else s[k])
  {
    seq(|s|, k requires 0 <= k < |s| => if s[k] == ' ' then '_' else s[k])
  }

  predicate StartsWith(s: string, prefix: string) {
    |prefix| <= |s| && s[..|prefix|] == prefix
  }

  /** Python's `sub in s`. */
  predicate Contains(s: string, sub: string)
    decreases |s|
  {
    StartsWith(s, sub) || (s != [] && Contains(s[1..], sub))
  }

  /** `sub` occurs in `s` at position `i`. */
  predicate OccursAt(s: string, sub: string, i: int) {
    0 <= i <= |s| - |sub| && s[i..i + |sub|] == sub
  }

  lemma {:induction false} ContainsIffOccurs(s: string, sub: string)
    ensures Contains(s, sub) <==> exists i :: OccursAt(s, sub, i)
    decreases |s|
  {
    if s != [] {
      ContainsIffOccurs(s[1..], sub);
      if exists i :: OccursAt(s, sub, i) {
        var i :| OccursAt(s, sub, i);
        if i > 0 {
          assert s[1..][i - 1..i - 1 + |sub|] == sub;
          assert OccursAt(s[1..], sub, i - 1);
        }
      }
      if Contains(s[1..], sub) {
        var i :| OccursAt(s[1..], sub, i);
        assert s[i + 1..i + 1 + |sub|] == sub;
        assert OccursAt(s, sub, i + 1);
      }
    } else {
      if exists i :: OccursAt(s, sub, i) {
        assert StartsWith(s, sub);
      }
    }
    if StartsWith(s, sub) {
      assert OccursAt(s, sub, 0);
    }
  }

  /** Python's `<` on `str`: lexicographic by code point. */
  predicate StrLess(a: string, b: string)
    decreases |a|
  {
    if a == [] then b != []
    else if b == [] then false
    else if a[0] < b[0] then true
    else if a[0] == b[0] then StrLess(a[1..], b[1..])
    else false
  }

  lemma {:induction false} StrLessIrreflexive(a: string)
    ensures !StrLess(a, a)
    decreases |a|
  {
    if a != [] {
      StrLessIrreflexive(a[1..]);
    }
  }

  lemma {:induction false} StrLessTransitive(a: string, b: string, c: string)
    requires StrLess(a, b) && StrLess(b, c)
    ensures StrLess(a, c)
    decreases |a|
  {
    if a != [] && b != [] && c != [] && a[0] == b[0] == c[0] {
      StrLessTransitive(a[1..], b[1..], c[1..]);
    }
  }

  lemma {:induction false} StrLessTotal(a: string, b: string)
    requires a != b
    ensures StrLess(a, b) || StrLess(b, a)
    decreases |a|
  {
    if a != [] && b != [] && a[0] == b[0] {
      assert a == [a[0]] + a[1..] && b == [b[0]] + b[1..];
      StrLessTotal(a[1..], b[1..]);
    }
  }

  lemma StrLessIsStrictOrder()
    ensures Sorting.IsStrictOrder(StrLess)
  {
    forall a ensures !StrLess(a, a) {
      StrLessIrreflexive(a);
    }
    forall a, b, c | StrLess(a, b) && StrLess(b, c) ensures StrLess(a, c) {
      StrLessTransitive(a, b, c);
    }
    forall a, b | a != b ensures StrLess(a, b) || StrLess(b, a) {
      StrLessTotal(a, b);
    }
  }

  /** Two strings with different first characters compare as those characters do. */
  lemma StrLessByFirst(a: string, b: string)
    requires a != [] && b != [] && a[0] < b[0]
    ensures StrLess(a, b) && !StrLess(b, a)
  {
  }
}
