/** The certificate records of the signing library and the mapper that normalises a
    provider's certificate into the library's own record. */
module Certificates {

  import opened Wrappers
  import opened Strings

  /** A certificate as the provider library enumerates it (only the fields the mapper reads). */
  datatype RawCertificate = RawCertificate(
    issuerName: string,
    name: string,
    thumbprint: string,
    validFrom: string,
    validTo: string)

  /** The library's certificate record; `cssClass` (the source's `class`) is the optional CSS class a failed signing sets. */
  datatype CertificateModel = CertificateModel(
    issuerName: string,
    isValid: bool,
    name: string,
    thumbprint: string,
    validFrom: string,
    validTo: string,
    cssClass: Option<string>)

  /** The regular expression `CN=([^,+]*)` can start matching at index `i` of `s`. */
  predicate CnAt(s: string, i: nat) {
    i + 3 <= |s| && s[i..i + 3] == "CN="
  }

  /** The leftmost index at or after `from` where `CN=` starts, which is where the
      regular expression matches (its starred group also matches the empty string). */
  function FindCn(s: string, from: nat): (r: Option<nat>)
    requires from <= |s|
    ensures r.Some? ==> from <= r.value && CnAt(s, r.value)
    ensures r.Some? ==> forall j: nat :: from <= j < r.value ==> !CnAt(s, j)
    ensures r.None? ==> forall j: nat :: from <= j ==> !CnAt(s, j)
    decreases |s| - from
  {
    if from + 3 > |s| then None
    else if s[from..from + 3] == "CN=" then Some(from)
    else FindCn(s, from + 1)
  }

  predicate IsSeparator(c: char) {
    c == ',' || c == '+'
  }

  /** What the greedy group `[^,+]*` captures at the start of `s`: the longest prefix of `s`
      without a comma or a plus sign. */
  function LabelRun(s: string): (r: string)
    ensures StartsWith(s, r)
    ensures forall k :: 0 <= k < |r| ==> !IsSeparator(r[k])
    ensures |r| == |s| || IsSeparator(s[|r|])
  {
    if s == [] || IsSeparator(s[0]) then []
    else
      var rest := LabelRun(s[1..]);
      assert s[..|rest| + 1] == [s[0]] + s[1..][..|rest|];
      [s[0]] + rest
  }

  /** The issuer label: the match's capture group when the issuer contains `CN=`,
      otherwise the issuer string itself. */
  function IssuerLabel(issuer: string): (r: string)
    ensures FindCn(issuer, 0).None? ==> r == issuer
    ensures FindCn(issuer, 0).Some? ==> StartsWith(issuer[FindCn(issuer, 0).value + 3..], r)
    ensures FindCn(issuer, 0).Some? ==> forall k :: 0 <= k < |r| ==> !IsSeparator(r[k])
    ensures FindCn(issuer, 0).Some? ==>
      var rest := issuer[FindCn(issuer, 0).value + 3..]; |r| == |rest| || IsSeparator(rest[|r|])
  {
    match FindCn(issuer, 0)
    case Some(i) => LabelRun(issuer[i + 3..])
    case None => issuer
  }

  /** Normalise one provider certificate (the non-null path of the mapper). */
  function Normalize(src: RawCertificate): (r: CertificateModel)
    ensures r.issuerName == IssuerLabel(src.issuerName)
    ensures r.isValid
    ensures r.name == src.name && r.thumbprint == src.thumbprint
    ensures r.validFrom == src.validFrom && r.validTo == src.validTo
    ensures r.cssClass.None?
  {
    CertificateModel(
      issuerName := IssuerLabel(src.issuerName),
      isValid := true,
      name := src.name,
      thumbprint := src.thumbprint,
      validFrom := src.validFrom,
      validTo := src.validTo,
      cssClass := None)
  }

  /** The mapper: null in, null out; otherwise the normalised record. */
  function Map(src: Option<RawCertificate>): (r: Option<CertificateModel>)
    ensures r.None? <==> src.None?
    ensures src.Some? ==> r.value.isValid && r.value.cssClass.None?
    ensures src.Some? ==> r.value.issuerName == IssuerLabel(src.value.issuerName)
    ensures src.Some? ==> r.value.name == src.value.name && r.value.thumbprint == src.value.thumbprint
    ensures src.Some? ==> r.value.validFrom == src.value.validFrom && r.value.validTo == src.value.validTo
  {
    match src
    case None => None
    case Some(c) => Some(Normalize(c))
  }

  /** `FindCn` returns the first start of `CN=` at or after `from`. */
  lemma {:induction false} FindCnFirst(s: string, from: nat, m: nat)
    requires from <= m && CnAt(s, m)
    requires forall j: nat :: from <= j < m ==> !CnAt(s, j)
    ensures FindCn(s, from) == Some(m)
    decreases m - from
  {
    if from < m {
      assert !CnAt(s, from);
      FindCnFirst(s, from + 1, m);
    }
  }

  /** With `CN=` first occurring right after `pre`, the label is the text after it up to,
      and excluding, the next comma or plus sign, or up to the end of the issuer. */
  lemma IssuerLabelMatched(issuer: string, pre: string, cn: string, post: string)
    requires issuer == pre + "CN=" + cn + post
    requires forall j: nat :: j < |pre| ==> !CnAt(issuer, j)
    requires forall k :: 0 <= k < |cn| ==> !IsSeparator(cn[k])
    requires post == [] || IsSeparator(post[0])
    ensures IssuerLabel(issuer) == cn
  {
    assert issuer[|pre|..|pre| + 3] == "CN=";
    FindCnFirst(issuer, 0, |pre|);
    assert issuer[|pre| + 3..] == cn + post;
    LabelRunMaximal(cn, post);
  }

  /** `LabelRun` stops exactly at the first separator. */
  lemma {:induction false} LabelRunMaximal(cn: string, post: string)
    requires forall k :: 0 <= k < |cn| ==> !IsSeparator(cn[k])
    requires post == [] || IsSeparator(post[0])
    ensures LabelRun(cn + post) == cn
  {
    if cn == [] {
      assert cn + post == post;
    } else {
      assert (cn + post)[1..] == cn[1..] + post;
      LabelRunMaximal(cn[1..], post);
    }
  }

  /** Without any `CN=` the issuer is kept unchanged. */
  lemma IssuerLabelUnmatched(issuer: string)
    requires forall j: nat :: !CnAt(issuer, j)
    ensures IssuerLabel(issuer) == issuer
  {
  }

  /** When `CN=` occurs, the label has no comma or plus sign, directly follows the first
      `CN=` of the issuer, and is shorter than the issuer by at least those three letters. */
  lemma IssuerLabelOfMatch(issuer: string, i: nat)
    requires CnAt(issuer, i)
    ensures exists m: nat :: m <= i && CnAt(issuer, m) && StartsWith(issuer[m + 3..], IssuerLabel(issuer))
    ensures forall k :: 0 <= k < |IssuerLabel(issuer)| ==> !IsSeparator(IssuerLabel(issuer)[k])
    ensures |IssuerLabel(issuer)| <= |issuer| - 3
  {
    var m := FindCn(issuer, 0);
    assert m.Some?;
  }

  /** An issuer whose first component is the common name. */
  lemma IssuerLabelLeadingCn()
    ensures IssuerLabel("CN=Ivanov Ivan,O=Acme,C=RU") == "Ivanov Ivan"
  {
    IssuerLabelMatched("CN=Ivanov Ivan,O=Acme,C=RU", "", "Ivanov Ivan", ",O=Acme,C=RU");
  }

  /** An issuer without a common name. */
  lemma IssuerLabelNoCn()
    ensures IssuerLabel("O=Acme") == "O=Acme"
  {
    var issuer := "O=Acme";
    forall j: nat ensures !CnAt(issuer, j) {
      if j + 3 <= |issuer| {
        assert issuer[j..j + 3][0] == issuer[j];
      }
    }
    IssuerLabelUnmatched(issuer);
  }

  /** An issuer whose common name follows a plus sign and ends the string. */
  lemma IssuerLabelTrailingCn()
    ensures IssuerLabel("C=RU+CN=Test CA") == "Test CA"
  {
    var issuer := "C=RU+CN=Test CA";
    forall j: nat | j < 5 ensures !CnAt(issuer, j) {
      assert issuer[j..j + 3][0] == issuer[j] && issuer[j..j + 3][1] == issuer[j + 1];
    }
    IssuerLabelMatched(issuer, "C=RU+", "Test CA", "");
  }
}
