/**
 * The two string normalisations the tracker applies to user and file input:
 * `str.upper()` on a typed symbol and `str.strip()` on the stored file's
 * content. Both are modelled on the ASCII range (plus the Latin-1 spaces that
 * Python counts as whitespace).
 */
module Text {

  /** Upper-case of one character: a-z map to A-Z, everything else is kept. */
  function UpperChar(c: char): char
  {
    if 'a' <= c <= 'z' then (c as int - 32) as char else c
  }

  /** `s.upper()`, character by character. */
  function Upper(s: string): string
  {
    if s == [] then [] else [UpperChar(s[0])] + Upper(s[1..])
  }

  /** Upper-casing keeps the length, so a symbol is blank after upper-casing exactly when it was typed blank. */
  lemma {:induction false} UpperLength(s: string)
    ensures |Upper(s)| == |s|
    ensures Upper(s) == [] <==> s == []
  {
    if s != [] {
      UpperLength(s[1..]);
    }
  }

  /** Upper-casing leaves no lower-case letter behind. */
  lemma {:induction false} UpperHasNoLowerCase(s: string)
    ensures forall i :: 0 <= i < |Upper(s)| ==> !('a' <= Upper(s)[i] <= 'z')
  {
    if s != [] {
      UpperHasNoLowerCase(s[1..]);
      assert Upper(s) == [UpperChar(s[0])] + Upper(s[1..]);
    }
  }

  /** Upper-casing an already upper-cased symbol changes nothing. */
  lemma {:induction false} UpperIdempotent(s: string)
    ensures Upper(Upper(s)) == Upper(s)
  {
    if s != [] {
      var u := Upper(s);
      assert u == [UpperChar(s[0])] + Upper(s[1..]);
      assert u[1..] == Upper(s[1..]);
      UpperIdempotent(s[1..]);
    }
  }

  /** The characters `str.isspace()` accepts in the ASCII and Latin-1 range. */
  predicate IsSpace(c: char)
  {
    c == ' ' || 9 <= c as int <= 13 || 28 <= c as int <= 31 || c as int == 0x85 || c as int == 0xA0
  }

  predicate AllSpace(s: string)
  {
    forall i :: 0 <= i < |s| ==> IsSpace(s[i])
  }

  /** `s.lstrip()`: the suffix of `s` left after dropping its leading whitespace. */
  function TrimLeft(s: string): (r: string)
    ensures |r| <= |s| && r == s[|s| - |r|..]
    ensures AllSpace(s[..|s| - |r|])
    ensures r == [] || !IsSpace(r[0])
  {
    if s != [] && IsSpace(s[0]) then TrimLeft(s[1..]) else s
  }

  /** `s.rstrip()`: the prefix of `s` left after dropping its trailing whitespace. */
  function TrimRight(s: string): (r: string)
    ensures |r| <= |s| && r == s[..|r|]
    ensures AllSpace(s[|r|..])
    ensures r == [] || !IsSpace(r[|r| - 1])
  {
    if s != [] && IsSpace(s[|s| - 1]) then TrimRight(s[..|s| - 1]) else s
  }

  /** `s.strip()`. */
  function Strip(s: string): string
  {
    TrimRight(TrimLeft(s))
  }

  /** Stripping leaves nothing exactly when the content was all whitespace. */
  lemma StripEmptyIffBlank(s: string)
    ensures Strip(s) == [] <==> AllSpace(s)
  {
    // A non-empty TrimLeft(s) starts with a character of s that is not whitespace.
    var t := TrimLeft(s);
    if t != [] {
      assert t[0] == s[|s| - |t|];
    }
  }
}
