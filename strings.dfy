/** Prefix, occurrence and search on strings, shared by the models of the regular expression
    match in the certificate mapper and of the envelope's fixed layout. */
module Strings {

  import opened Wrappers

  /** `s` begins with `p`. */
  predicate StartsWith(s: string, p: string) {
    |p| <= |s| && s[..|p|] == p
  }

  /** `s` ends with `p`. */
  predicate EndsWith(s: string, p: string) {
    |p| <= |s| && s[|s| - |p|..] == p
  }

  /** `p` occurs somewhere in `s`. */
  ghost predicate Occurs(s: string, p: string) {
    exists i :: 0 <= i <= |s| && StartsWith(s[i..], p)
  }

  /** Index of the first occurrence of `pat` in `s`, if any. */
  function IndexOf(s: string, pat: string): (r: Option<nat>)
    ensures r.Some? ==> r.value <= |s| && StartsWith(s[r.value..], pat)
    ensures r.Some? ==> forall j :: 0 <= j < r.value ==> !StartsWith(s[j..], pat)
    ensures r.None? ==> forall j :: 0 <= j <= |s| ==> !StartsWith(s[j..], pat)
    decreases |s|
  {
    if StartsWith(s, pat) then Some(0)
    else if s == [] then None
    else
      match IndexOf(s[1..], pat)
      case Some(k) =>
        assert forall j :: 1 <= j <= |s| ==> s[j..] == s[1..][j - 1..];
        Some(k + 1)
      case None =>
        assert forall j :: 1 <= j <= |s| ==> s[j..] == s[1..][j - 1..];
        None
  }

  /** When the first character of `pat` does not occur in `a`, the first occurrence of `pat`
      in `a + pat + b` is right after `a`. */
  lemma {:induction false} IndexOfAfter(a: string, pat: string, b: string)
    requires |pat| > 0 && pat[0] !in a
    ensures IndexOf(a + pat + b, pat) == Some(|a|)
  {
    var s := a + pat + b;
    assert s[|a|..] == pat + b;
    if a != [] {
      assert s[0] == a[0] != pat[0];
      assert !StartsWith(s, pat);
      assert s[1..] == a[1..] + pat + b;
      IndexOfAfter(a[1..], pat, b);
    } else {
      assert s[..|pat|] == pat;
    }
  }

  /** An occurrence of `p` in `s` is also one in any string that contains `s`. */
  lemma OccursWithin(a: string, s: string, b: string, p: string)
    requires Occurs(s, p)
    ensures Occurs(a + s + b, p)
  {
    var i :| 0 <= i <= |s| && StartsWith(s[i..], p);
    var t := a + s + b;
    assert t[|a| + i..][..|p|] == s[i..][..|p|];
    assert StartsWith(t[|a| + i..], p);
  }

  /** An occurrence of `p` in `s` is also one in any string that begins with `s`. */
  lemma OccursInPrefix(s: string, rest: string, p: string)
    requires Occurs(s, p)
    ensures Occurs(s + rest, p)
  {
    var i :| 0 <= i <= |s| && StartsWith(s[i..], p);
    assert (s + rest)[i..][..|p|] == s[i..][..|p|];
    assert StartsWith((s + rest)[i..], p);
  }

  /** An occurrence of `p` in `s` is also one in any string that ends with `s`. */
  lemma OccursInSuffix(a: string, s: string, p: string)
    requires Occurs(s, p)
    ensures Occurs(a + s, p)
  {
    var i :| 0 <= i <= |s| && StartsWith(s[i..], p);
    assert (a + s)[|a| + i..] == s[i..];
  }

  /** A prefix of a prefix is a prefix. */
  lemma StartsWithTransitive(s: string, p: string, q: string)
    requires StartsWith(s, p) && StartsWith(p, q)
    ensures StartsWith(s, q)
  {
    assert s[..|q|] == s[..|p|][..|q|];
  }

  /** Every string occurs in itself. */
  lemma OccursSelf(p: string)
    ensures Occurs(p, p)
  {
    assert p[0..] == p;
    assert StartsWith(p[0..], p);
  }
}
