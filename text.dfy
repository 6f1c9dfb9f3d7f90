/** String primitives the backend (Python) and the pages (JavaScript) use:
    trimming whitespace, ASCII upper-casing and single-character replacement. */
module Text {

  /** Python's and JavaScript's whitespace sets differ, so a trim says which one it uses. */
  datatype Flavour = Python | JavaScript

  /** Whitespace above Latin-1 that both languages treat as such:
      the Unicode space separators and the line and paragraph separators. */
  predicate IsWideSpace(c: char) {
    c == '\U{1680}' || ('\U{2000}' <= c <= '\U{200A}') || c == '\U{2028}' || c == '\U{2029}'
    || c == '\U{202F}' || c == '\U{205F}' || c == '\U{3000}'
  }

  /** Python's `str.isspace()`, the set `str.strip()` removes. */
  predicate IsPySpace(c: char) {
    ('\t' <= c <= '\r') || ('\U{1C}' <= c <= '\U{1F}') || c == ' ' || c == '\U{85}' || c == '\U{A0}'
    || IsWideSpace(c)
  }

  /** ECMAScript WhiteSpace and LineTerminator, the set `String.prototype.trim()` removes. */
  predicate IsJsSpace(c: char) {
    ('\t' <= c <= '\r') || c == ' ' || c == '\U{A0}' || c == '\U{FEFF}' || IsWideSpace(c)
  }

  predicate IsSpace(f: Flavour, c: char) {
    match f
    case Python => IsPySpace(c)
    case JavaScript => IsJsSpace(c)
  }

  /** Every character is whitespace (the empty string included). */
  predicate Blank(f: Flavour, s: string) {
    forall i :: 0 <= i < |s| ==> IsSpace(f, s[i])
  }

  /** Neither end is whitespace. */
  predicate Bare(f: Flavour, s: string) {
    s == [] || (!IsSpace(f, s[0]) && !IsSpace(f, s[|s| - 1]))
  }

  function TrimStart(f: Flavour, s: string): (r: string)
    ensures |r| <= |s| && r == s[|s| - |r|..]
    ensures Blank(f, s[..|s| - |r|])
    ensures r == [] || !IsSpace(f, r[0])
  {
    if s != [] && IsSpace(f, s[0]) then TrimStart(f, s[1..]) else s
  }

  function TrimEnd(f: Flavour, s: string): (r: string)
    ensures |r| <= |s| && r == s[..|r|]
    ensures forall i :: |r| <= i < |s| ==> IsSpace(f, s[i])
    ensures r == [] || !IsSpace(f, r[|r| - 1])
  {
    if s != [] && IsSpace(f, s[|s| - 1]) then TrimEnd(f, s[..|s| - 1]) else s
  }

  /** Python's `s.strip()` or JavaScript's `s.trim()`: whitespace removed from both ends. */
  function Strip(f: Flavour, s: string): (r: string)
    ensures Bare(f, r)
    ensures r == [] <==> Blank(f, s)
  {
    TrimEnd(f, TrimStart(f, s))
  }

  /** Stripping a string that has no whitespace at either end gives it back. */
  lemma StripBare(f: Flavour, s: string)
    requires Bare(f, s)
    ensures Strip(f, s) == s
  {
    assert TrimStart(f, s) == s;
    assert TrimEnd(f, s) == s;
  }

  /** Upper-casing of one character: ASCII letters only. */
  function UpperChar(c: char): char {
    if 'a' <= c <= 'z' then (c as int - 32) as char else c
  }

  /** Python's `str.upper()` and JavaScript's `toUpperCase()` on ASCII letters. */
  function Upper(s: string): (r: string)
    ensures |r| == |s|
    ensures forall i :: 0 <= i < |s| ==> r[i] == UpperChar(s[i])
  {
    seq(|s|, i requires 0 <= i < |s| => UpperChar(s[i]))
  }

  /** Upper-casing never turns whitespace into non-whitespace or back. */
  lemma UpperCharKeepsSpace(f: Flavour, c: char)
    ensures IsSpace(f, UpperChar(c)) == IsSpace(f, c)
  {
  }

  lemma UpperIdempotent(s: string)
    ensures Upper(Upper(s)) == Upper(s)
  {
  }

  /** Upper-casing keeps a string free of whitespace at its ends. */
  lemma UpperBare(f: Flavour, s: string)
    requires Bare(f, s)
    ensures Bare(f, Upper(s))
  {
    if s != [] {
      UpperCharKeepsSpace(f, s[0]);
      UpperCharKeepsSpace(f, s[|s| - 1]);
    }
  }

  /** Replacing every occurrence of one character by another: Python's
      `s.replace(a, b)` and JavaScript's `s.replace(/a/g, b)` for a single
      character `a`. */
  function ReplaceChar(s: string, from: char, to: char): (r: string)
    ensures |r| == |s|
    ensures forall i :: 0 <= i < |s| ==> r[i] == (if s[i] == from then to else s[i])
  {
    if s == [] then [] else [if s[0] == from then to else s[0]] + ReplaceChar(s[1..], from, to)
  }
}
