/** The removal of line breaks from the exported base64 certificate, `replace(/[\r\n]/g, '')`. */
module LineBreaks {

  predicate IsLineBreak(c: char) {
    c == '\r' || c == '\n'
  }

  /** `s` without its carriage returns and line feeds. */
  function StripLineBreaks(s: string): (r: string)
    ensures forall k :: 0 <= k < |r| ==> !IsLineBreak(r[k])
    ensures |r| <= |s|
  {
    if s == [] then []
    else if IsLineBreak(s[0]) then StripLineBreaks(s[1..])
    else [s[0]] + StripLineBreaks(s[1..])
  }

  /** Stripping distributes over concatenation, so every other character keeps its place
      relative to the others. */
  lemma {:induction false} StripConcat(a: string, b: string)
    ensures StripLineBreaks(a + b) == StripLineBreaks(a) + StripLineBreaks(b)
  {
    if a == [] {
      assert a + b == b;
    } else {
      assert (a + b)[0] == a[0];
      assert (a + b)[1..] == a[1..] + b;
      StripConcat(a[1..], b);
    }
  }

  /** The strip, character by character: a line break vanishes, any other character stays. */
  lemma StripChar(c: char)
    ensures StripLineBreaks([c]) == if IsLineBreak(c) then [] else [c]
  {
    assert [c][1..] == [];
  }

  /** A string without line breaks is left unchanged; in particular stripping twice is
      the same as stripping once. */
  lemma {:induction false} StripWithoutLineBreaks(s: string)
    requires forall k :: 0 <= k < |s| ==> !IsLineBreak(s[k])
    ensures StripLineBreaks(s) == s
  {
    if s != [] {
      StripWithoutLineBreaks(s[1..]);
    }
  }

  lemma StripIdempotent(s: string)
    ensures StripLineBreaks(StripLineBreaks(s)) == StripLineBreaks(s)
  {
    StripWithoutLineBreaks(StripLineBreaks(s));
  }

  /** Only line breaks are removed: every other character occurs in the result exactly as
      often as in the input. */
  lemma {:induction false} StripKeepsCounts(s: string, c: char)
    requires !IsLineBreak(c)
    ensures multiset(StripLineBreaks(s))[c] == multiset(s)[c]
  {
    if s != [] {
      assert s == [s[0]] + s[1..];
      StripKeepsCounts(s[1..], c);
    }
  }
}
