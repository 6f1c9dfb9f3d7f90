/** The filename sanitiser of the research backend: every character that is
    not allowed in a file name becomes an underscore. */
module AuxScientific {
  import opened Text

  /** The characters the loop replaces after the two path separators. */
  const InvalidChars: string := "<>:\"|?*"

  /** Every character `sanitize_filename` replaces, in the order it replaces them. */
  const Replaced: string := "/\\" + InvalidChars

  /** `s` with every character that occurs in `cs` replaced by '_'. */
  function Mask(s: string, cs: string): string {
    if s == [] then [] else [if s[0] in cs then '_' else s[0]] + Mask(s[1..], cs)
  }

  /** The name `sanitize_filename` returns for `s`. */
  function Sanitized(s: string): string {
    Mask(s, Replaced)
  }

  lemma {:induction false} MaskLength(s: string, cs: string)
    ensures |Mask(s, cs)| == |s|
  {
    if s != [] {
      MaskLength(s[1..], cs);
    }
  }

  lemma {:induction false} MaskAt(s: string, cs: string, i: int)
    requires 0 <= i < |s|
    ensures |Mask(s, cs)| == |s|
    ensures Mask(s, cs)[i] == if s[i] in cs then '_' else s[i]
  {
    MaskLength(s, cs);
    if i > 0 {
      MaskAt(s[1..], cs, i - 1);
    }
  }

  /** Masking with no characters changes nothing. */
  lemma MaskNone(s: string)
    ensures Mask(s, []) == s
  {
    MaskLength(s, []);
    forall i | 0 <= i < |s| ensures Mask(s, [])[i] == s[i] {
      MaskAt(s, [], i);
    }
  }

  /** One more `str.replace(c, '_')` on a masked string masks one more character. */
  lemma MaskStep(s: string, cs: string, c: char)
    requires c != '_'
    ensures ReplaceChar(Mask(s, cs), c, '_') == Mask(s, cs + [c])
  {
    MaskLength(s, cs);
    MaskLength(s, cs + [c]);
    forall i | 0 <= i < |s| ensures ReplaceChar(Mask(s, cs), c, '_')[i] == Mask(s, cs + [c])[i] {
      MaskAt(s, cs, i);
      MaskAt(s, cs + [c], i);
    }
  }

  /** `sanitize_filename`: the two separators first, then one `replace` per
      character of `invalid_chars`. */
  method SanitizeFilename(filename: string) returns (r: string)
    ensures r == Sanitized(filename)
  {
    MaskNone(filename);
    MaskStep(filename, [], '/');
    assert [] + ['/'] == ['/'];
    MaskStep(filename, ['/'], '\\');
    r := ReplaceChar(ReplaceChar(filename, '/', '_'), '\\', '_');
    assert Replaced[..2] == ['/'] + ['\\'] by {
      assert Replaced[0] == '/' && Replaced[1] == '\\';
    }
    for i := 0 to |InvalidChars|
      invariant r == Mask(filename, Replaced[..i + 2])
    {
      MaskStep(filename, Replaced[..i + 2], InvalidChars[i]);
      assert Replaced[..i + 3] == Replaced[..i + 2] + [InvalidChars[i]];
      r := ReplaceChar(r, InvalidChars[i], '_');
    }
    assert Replaced[..|InvalidChars| + 2] == Replaced;
  }

  /** Each offending character becomes exactly one '_', so the length is kept. */
  lemma SanitizedLength(s: string)
    ensures |Sanitized(s)| == |s|
  {
    MaskLength(s, Replaced);
  }

  /** Position by position: an offending character becomes '_', any other is kept. */
  lemma SanitizedAt(s: string, i: int)
    requires 0 <= i < |s|
    ensures |Sanitized(s)| == |s|
    ensures s[i] in Replaced ==> Sanitized(s)[i] == '_'
    ensures s[i] !in Replaced ==> Sanitized(s)[i] == s[i]
  {
    MaskAt(s, Replaced, i);
  }

  /** No offending character survives, the path separators included. */
  lemma SanitizedIsClean(s: string)
    ensures forall i :: 0 <= i < |Sanitized(s)| ==> Sanitized(s)[i] !in Replaced
    ensures '/' !in Sanitized(s) && '\\' !in Sanitized(s)
  {
    SanitizedLength(s);
    forall i | 0 <= i < |s| ensures Sanitized(s)[i] !in Replaced {
      SanitizedAt(s, i);
    }
  }

  /** A name is returned unchanged exactly when it holds no offending character. */
  lemma SanitizedFixedPoint(s: string)
    ensures Sanitized(s) == s <==> forall i :: 0 <= i < |s| ==> s[i] !in Replaced
  {
    SanitizedLength(s);
    if forall i :: 0 <= i < |s| ==> s[i] !in Replaced {
      forall i | 0 <= i < |s| ensures Sanitized(s)[i] == s[i] {
        SanitizedAt(s, i);
      }
    } else {
      var i :| 0 <= i < |s| && s[i] in Replaced;
      SanitizedIsClean(s);
    }
  }

  /** Sanitizing twice is sanitizing once. */
  lemma SanitizedIdempotent(s: string)
    ensures Sanitized(Sanitized(s)) == Sanitized(s)
  {
    SanitizedIsClean(s);
    SanitizedFixedPoint(Sanitized(s));
  }
}
