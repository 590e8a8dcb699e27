/** The unsigned SOAP envelope handed to the signing provider: a WS-Security header with the
    certificate as a binary security token (section 6.3 of OASIS Web Services Security: SOAP
    Message Security 1.0), an XML signature whose SignedInfo references the body (section 4.3
    of W3C XML Signature Syntax and Processing, Second Edition) with empty DigestValue and
    SignatureValue, a security token reference to the certificate (section 7.1 of the OASIS
    standard), and the body. */
module Envelope {

  import opened Wrappers
  import opened Strings

  /** The lines of the template are concatenated without separators. */
  function Join(parts: seq<string>): string
    decreases |parts|
  {
    if parts == [] then "" else Join(parts[..|parts| - 1]) + parts[|parts| - 1]
  }

  /** The fixed identifier of the binary security token. */
  const TokenId: string := "uuid-ee82d445-758b-42cb-996c-666b74b60022-2"
  /** The fixed identifier of the body, which the signature's reference points at. */
  const BodyId: string := "_1"

  const X509v3TokenType: string :=
    "http://docs.oasis-open.org/wss/2004/01/oasis-200401-wss-x509-token-profile-1.0#X509v3"
  const ExclusiveC14n: string := "http://www.w3.org/2001/10/xml-exc-c14n#"

  /** A `u:Id` attribute naming an element. */
  function IdAttribute(id: string): string {
    "u:Id=\"" + id + "\""
  }

  /** A `URI` attribute referring to an element. */
  function UriAttribute(ref: string): string {
    "URI=\"" + ref + "\""
  }

  const XmlDeclaration: string := "<?xml version=\"1.0\" encoding=\"UTF-8\"?>"
  const EnvelopeOpen: string :=
    "<s:Envelope xmlns:s=\"http://schemas.xmlsoap.org/soap/envelope/\" xmlns:u=\"http://docs.oasis-open.org/wss/2004/01/oasis-200401-wss-wssecurity-utility-1.0.xsd\">"
  const HeaderOpen: string := "    <s:Header>"
  const SecurityOpen: string :=
    "        <o:Security s:mustUnderstand=\"1\" xmlns:o=\"http://docs.oasis-open.org/wss/2004/01/oasis-200401-wss-wssecurity-secext-1.0.xsd\" s:actor=\"http://smev.gosuslugi.ru/actors/smev\">"
  const TokenElement: string := "<o:BinarySecurityToken " + IdAttribute(TokenId)
  const TokenOpen: string :=
    "            " + TokenElement + " ValueType=\"" + X509v3TokenType
    + "\" EncodingType=\"http://docs.oasis-open.org/wss/2004/01/oasis-200401-wss-soap-message-security-1.0#Base64Binary\">"
  const TokenClose: string := "            </o:BinarySecurityToken>"
  const SignatureOpen: string := "            <Signature xmlns=\"http://www.w3.org/2000/09/xmldsig#\">"
  const SignedInfoOpen: string := "                <SignedInfo>"
  const CanonicalizationMethod: string :=
    "                    <CanonicalizationMethod Algorithm=\"" + ExclusiveC14n + "\" />"
  const SignatureMethodOpen: string := "                    <SignatureMethod Algorithm=\""
  const AttributeClose: string := "\"/>"
  const BodyReferenceElement: string := "<Reference " + UriAttribute("#" + BodyId)
  const ReferenceOpen: string := "                    " + BodyReferenceElement + ">"
  const TransformsOpen: string := "                        <Transforms>"
  const Transform: string := "                            <Transform Algorithm=\"" + ExclusiveC14n + "\" />"
  const TransformsClose: string := "                        </Transforms>"
  const DigestMethodOpen: string := "                        <DigestMethod Algorithm=\""
  const EmptyDigestValue: string := "<DigestValue></DigestValue>"
  const DigestValueLine: string := "                        " + EmptyDigestValue
  const ReferenceClose: string := "                    </Reference>"
  const SignedInfoClose: string := "                </SignedInfo>"
  const EmptySignatureValue: string := "<SignatureValue></SignatureValue>"
  const SignatureValueLine: string := "                " + EmptySignatureValue
  const KeyInfoOpen: string := "                <KeyInfo>"
  const TokenReferenceOpen: string := "                    <o:SecurityTokenReference>"
  const TokenReferenceElement: string :=
    "<o:Reference ValueType=\"" + X509v3TokenType + "\" " + UriAttribute("#" + TokenId)
  const TokenReference: string := "                    " + TokenReferenceElement + " />"
  const TokenReferenceClose: string := "                    </o:SecurityTokenReference>"
  const KeyInfoClose: string := "                </KeyInfo>"
  const SignatureClose: string := "            </Signature>"
  const SecurityClose: string := "        </o:Security>"
  const HeaderClose: string := "    </s:Header>"
  const BodyElement: string := "<s:Body " + IdAttribute(BodyId)
  const BodyOpen: string :=
    "    " + BodyElement
    + " xmlns:xsi=\"http://www.w3.org/2001/XMLSchema-instance\" xmlns:xsd=\"http://www.w3.org/2001/XMLSchema\">"
  const BodyClose: string := "    </s:Body>"
  const EnvelopeClose: string := "</s:Envelope>"

  /** The fixed text up to the certificate. */
  const BeforeCertificate: string :=
    Join([XmlDeclaration, EnvelopeOpen, HeaderOpen, SecurityOpen, TokenOpen])
  /** The fixed text between the certificate and the signature method. */
  const BeforeSignatureMethod: string :=
    Join([TokenClose, SignatureOpen, SignedInfoOpen, CanonicalizationMethod, SignatureMethodOpen])
  /** The fixed text between the signature method and the digest method. */
  const BeforeDigestMethod: string :=
    Join([AttributeClose, ReferenceOpen, TransformsOpen, Transform, TransformsClose, DigestMethodOpen])
  /** The fixed text between the digest method and the body. */
  const BeforeBody: string :=
    Join([AttributeClose, DigestValueLine, ReferenceClose, SignedInfoClose, SignatureValueLine,
          KeyInfoOpen, TokenReferenceOpen, TokenReference, TokenReferenceClose, KeyInfoClose,
          SignatureClose, SecurityClose, HeaderClose, BodyOpen])
  /** The fixed text after the body. */
  const AfterBody: string := Join([BodyClose, EnvelopeClose])

  /** The envelope of `getXMLTemplate`: the fixed text with the four inputs inserted
      (the concatenation is written grouped from the right). */
  function Template(body: string, b64cert: string, signMethod: string, digestMethod: string): string {
    BeforeCertificate + (b64cert + (BeforeSignatureMethod + (signMethod + (BeforeDigestMethod
      + (digestMethod + (BeforeBody + (body + AfterBody)))))))
  }

  /** Every envelope opens with the fixed text before the certificate, followed by the
      certificate, closes with the body, followed by the fixed closing tags, and is as long
      as its fixed text and its four inputs together. */
  lemma TemplateFrame(body: string, b64cert: string, signMethod: string, digestMethod: string)
    ensures var r := Template(body, b64cert, signMethod, digestMethod);
      StartsWith(r, BeforeCertificate) && StartsWith(r[|BeforeCertificate|..], b64cert)
      && EndsWith(r, AfterBody) && EndsWith(r[..|r| - |AfterBody|], body)
      && |r| == |BeforeCertificate| + |BeforeSignatureMethod| + |BeforeDigestMethod| + |BeforeBody| + |AfterBody|
                + |b64cert| + |signMethod| + |digestMethod| + |body|
  {
    Framed(BeforeCertificate, b64cert, BeforeSignatureMethod, signMethod, BeforeDigestMethod, digestMethod,
           BeforeBody, body, AfterBody);
  }

  /** A text laid out as `h + x1 + d1 + x2 + d2 + x3 + d3 + x4 + f` opens with `h` and then
      `x1`, closes with `x4` and then `f`, and is as long as its parts together. */
  lemma Framed(h: string, x1: string, d1: string, x2: string, d2: string, x3: string, d3: string,
               x4: string, f: string)
    ensures var r := h + (x1 + (d1 + (x2 + (d2 + (x3 + (d3 + (x4 + f)))))));
      StartsWith(r, h) && StartsWith(r[|h|..], x1)
      && EndsWith(r, f) && EndsWith(r[..|r| - |f|], x4)
      && |r| == |h| + |d1| + |d2| + |d3| + |f| + |x1| + |x2| + |x3| + |x4|
  {
    var front := h + x1 + d1 + x2 + d2 + x3 + d3;
    var r := h + (x1 + (d1 + (x2 + (d2 + (x3 + (d3 + (x4 + f)))))));
    assert r == front + x4 + f;
    assert r[..|h|] == h;
    assert r[|h|..][..|x1|] == x1;
    assert r[|r| - |f|..] == f;
    assert r[..|r| - |f|] == front + x4;
    assert (front + x4)[|front|..] == x4;
  }

  /** The four inputs as a parser recovers them from an envelope. */
  datatype EnvelopeFields = EnvelopeFields(body: string, b64cert: string, signMethod: string, digestMethod: string)

  /** Cuts `s` at the first occurrence of `d`: the text before it and the text after it. */
  function SplitAt(s: string, d: string): (r: Option<(string, string)>)
    ensures r.Some? ==> s == r.value.0 + d + r.value.1
  {
    match IndexOf(s, d)
    case None => None
    case Some(i) =>
      assert s == s[..i] + d + s[i + |d|..] by {
        assert s[i..][..|d|] == d;
      }
      Some((s[..i], s[i + |d|..]))
  }

  /** Reads back a text laid out as `head + x1 + d1 + x2 + d2 + x3 + d3 + x4 + foot`: each
      of `x1`, `x2`, `x3` is the text up to the first occurrence of the delimiter after it,
      and `x4` whatever stands between the last delimiter and `foot`. */
  function Split4(doc: string, head: string, d1: string, d2: string, d3: string, foot: string)
    : (r: Option<(string, string, string, string)>)
  {
    if !StartsWith(doc, head) then None
    else
      match SplitAt(doc[|head|..], d1)
      case None => None
      case Some((x1, r2)) =>
        match SplitAt(r2, d2)
        case None => None
        case Some((x2, r3)) =>
          match SplitAt(r3, d3)
          case None => None
          case Some((x3, r4)) =>
            if !EndsWith(r4, foot) then None
            else Some((x1, x2, x3, r4[..|r4| - |foot|]))
  }

  /** Reads an envelope back: the certificate is the text up to the first closing token tag,
      each method the text up to the first closing quote of its `Algorithm` attribute, and
      the body whatever stands between the opening and the closing body tags. */
  function ParseEnvelope(doc: string): Option<EnvelopeFields> {
    match Split4(doc, BeforeCertificate, BeforeSignatureMethod, BeforeDigestMethod, BeforeBody, AfterBody)
    case None => None
    case Some((b64cert, signMethod, digestMethod, body)) => Some(EnvelopeFields(body, b64cert, signMethod, digestMethod))
  }

  /** A concatenation begins with its first part. */
  lemma {:induction false} JoinStartsWith(parts: seq<string>)
    requires |parts| > 0
    ensures StartsWith(Join(parts), parts[0])
    decreases |parts|
  {
    var init := parts[..|parts| - 1];
    if |parts| > 1 {
      assert init[0] == parts[0];
      JoinStartsWith(init);
      assert Join(parts)[..|parts[0]|] == Join(init)[..|parts[0]|];
    } else {
      assert init == [];
      assert Join(parts) == parts[0];
    }
  }

  /** Whatever occurs in one part occurs in the concatenation. */
  lemma {:induction false} OccursInJoin(parts: seq<string>, k: nat, p: string)
    requires k < |parts| && Occurs(parts[k], p)
    ensures Occurs(Join(parts), p)
    decreases |parts|
  {
    var init := parts[..|parts| - 1];
    if k == |parts| - 1 {
      OccursWithin(Join(init), parts[k], "", p);
      assert Join(init) + parts[k] + "" == Join(parts);
    } else {
      assert init[k] == parts[k];
      OccursInJoin(init, k, p);
      OccursWithin("", Join(init), parts[|parts| - 1], p);
      assert "" + Join(init) + parts[|parts| - 1] == Join(parts);
    }
  }

  /** The characters that end a certificate and a method inside the envelope. */
  lemma Delimiters()
    ensures |BeforeSignatureMethod| > 0 && BeforeSignatureMethod[0] == ' '
    ensures |BeforeDigestMethod| > 0 && BeforeDigestMethod[0] == '"'
    ensures |BeforeBody| > 0 && BeforeBody[0] == '"'
  {
    JoinStartsWith([TokenClose, SignatureOpen, SignedInfoOpen, CanonicalizationMethod, SignatureMethodOpen]);
    assert BeforeSignatureMethod[0] == BeforeSignatureMethod[..|TokenClose|][0];
    JoinStartsWith([AttributeClose, ReferenceOpen, TransformsOpen, Transform, TransformsClose, DigestMethodOpen]);
    assert BeforeDigestMethod[0] == BeforeDigestMethod[..|AttributeClose|][0];
    JoinStartsWith([AttributeClose, DigestValueLine, ReferenceClose, SignedInfoClose, SignatureValueLine,
               KeyInfoOpen, TokenReferenceOpen, TokenReference, TokenReferenceClose, KeyInfoClose,
               SignatureClose, SecurityClose, HeaderClose, BodyOpen]);
    assert BeforeBody[0] == BeforeBody[..|AttributeClose|][0];
  }

  /** Cutting `a + (d + b)` at the first occurrence of `d` gives back `a` and `b`. */
  lemma SplitAtFirst(a: string, d: string, b: string)
    requires |d| > 0 && d[0] !in a
    ensures SplitAt(a + (d + b), d) == Some((a, b))
  {
    var s := a + (d + b);
    assert s == a + d + b;
    IndexOfAfter(a, d, b);
    assert s[..|a|] == a;
    assert s[|a| + |d|..] == b;
  }

  /** `Split4` undoes the layout when no delimiter's first character occurs in the text
      before it. */
  lemma Split4Layout(head: string, x1: string, d1: string, x2: string, d2: string, x3: string, d3: string,
                     x4: string, foot: string)
    requires |d1| > 0 && d1[0] !in x1
    requires |d2| > 0 && d2[0] !in x2
    requires |d3| > 0 && d3[0] !in x3
    ensures Split4(head + (x1 + (d1 + (x2 + (d2 + (x3 + (d3 + (x4 + foot))))))), head, d1, d2, d3, foot)
         == Some((x1, x2, x3, x4))
  {
    var r4 := x4 + foot;
    var r3 := x3 + (d3 + r4);
    var r2 := x2 + (d2 + r3);
    var r1 := x1 + (d1 + r2);
    var doc := head + r1;
    assert doc[..|head|] == head;
    assert doc[|head|..] == r1;
    SplitAtFirst(x1, d1, r2);
    SplitAtFirst(x2, d2, r3);
    SplitAtFirst(x3, d3, r4);
    assert r4[|r4| - |foot|..] == foot;
    assert r4[..|r4| - |foot|] == x4;
  }

  /** The round trip: parsing an envelope yields the four inputs it was built from, provided
      the certificate has no space (a base64 text has none) and neither method URI has a
      double quote (it could not stand in an attribute otherwise); the body is arbitrary. */
  lemma ParseTemplate(body: string, b64cert: string, signMethod: string, digestMethod: string)
    requires ' ' !in b64cert && '"' !in signMethod && '"' !in digestMethod
    ensures ParseEnvelope(Template(body, b64cert, signMethod, digestMethod))
         == Some(EnvelopeFields(body, b64cert, signMethod, digestMethod))
  {
    Delimiters();
    Split4Layout(BeforeCertificate, b64cert, BeforeSignatureMethod, signMethod, BeforeDigestMethod,
                 digestMethod, BeforeBody, body, AfterBody);
  }

  /** So the envelope determines its inputs: two envelopes are equal only when they were
      built from the same body, certificate and methods. */
  lemma TemplateInjective(body: string, b64cert: string, signMethod: string, digestMethod: string,
                          body': string, b64cert': string, signMethod': string, digestMethod': string)
    requires ' ' !in b64cert && '"' !in signMethod && '"' !in digestMethod
    requires ' ' !in b64cert' && '"' !in signMethod' && '"' !in digestMethod'
    requires Template(body, b64cert, signMethod, digestMethod) == Template(body', b64cert', signMethod', digestMethod')
    ensures body == body' && b64cert == b64cert' && signMethod == signMethod' && digestMethod == digestMethod'
  {
    ParseTemplate(body, b64cert, signMethod, digestMethod);
    ParseTemplate(body', b64cert', signMethod', digestMethod');
  }

  /** Whatever occurs in a fixed part of a four-hole layout occurs in the layout. */
  lemma OccursInLayout(h: string, x1: string, d1: string, x2: string, d2: string, x3: string, d3: string,
                       x4: string, f: string, p: string)
    requires Occurs(h, p) || Occurs(d1, p) || Occurs(d2, p) || Occurs(d3, p)
    ensures Occurs(h + (x1 + (d1 + (x2 + (d2 + (x3 + (d3 + (x4 + f))))))), p)
  {
    var t3 := d3 + (x4 + f);
    var t2 := d2 + (x3 + t3);
    var t1 := d1 + (x2 + t2);
    if Occurs(h, p) {
      OccursInPrefix(h, x1 + t1, p);
    } else {
      if Occurs(d3, p) {
        OccursInPrefix(d3, x4 + f, p);
        OccursInSuffix(d2 + x3, t3, p);
        assert d2 + x3 + t3 == t2;
      } else if Occurs(d2, p) {
        OccursInPrefix(d2, x3 + t3, p);
      }
      if !Occurs(d1, p) {
        OccursInSuffix(d1 + x2, t2, p);
        assert d1 + x2 + t2 == t1;
      } else {
        OccursInPrefix(d1, x2 + t2, p);
      }
      OccursInSuffix(h + x1, t1, p);
      assert h + x1 + t1 == h + (x1 + t1);
    }
  }

  /** The fixed text before the certificate begins with the XML declaration and holds the
      opening tag of the binary security token with its identifier. */
  lemma BeforeCertificateContents()
    ensures StartsWith(BeforeCertificate, XmlDeclaration)
    ensures Occurs(BeforeCertificate, TokenElement)
  {
    var parts := [XmlDeclaration, EnvelopeOpen, HeaderOpen, SecurityOpen, TokenOpen];
    JoinStartsWith(parts);
    OccursInLine("            ", TokenElement, TokenOpen[12 + |TokenElement|..]);
    assert "            " + TokenElement + TokenOpen[12 + |TokenElement|..] == TokenOpen;
    OccursInJoin(parts, 4, TokenElement);
  }

  /** The fixed text between the two methods holds the signed-info reference to the body. */
  lemma BeforeDigestMethodContents()
    ensures Occurs(BeforeDigestMethod, BodyReferenceElement)
  {
    OccursInLine("                    ", BodyReferenceElement, ">");
    OccursInJoin([AttributeClose, ReferenceOpen, TransformsOpen, Transform, TransformsClose, DigestMethodOpen],
                 1, BodyReferenceElement);
  }

  /** The fixed text between the digest method and the body holds the two empty values, the
      key-info reference to the token and the opening body tag with its identifier. */
  lemma BeforeBodyContents()
    ensures Occurs(BeforeBody, EmptyDigestValue) && Occurs(BeforeBody, EmptySignatureValue)
    ensures Occurs(BeforeBody, TokenReferenceElement) && Occurs(BeforeBody, BodyElement)
  {
    var parts := [AttributeClose, DigestValueLine, ReferenceClose, SignedInfoClose, SignatureValueLine,
                  KeyInfoOpen, TokenReferenceOpen, TokenReference, TokenReferenceClose, KeyInfoClose,
                  SignatureClose, SecurityClose, HeaderClose, BodyOpen];
    OccursInLine("                        ", EmptyDigestValue, "");
    assert "                        " + EmptyDigestValue + "" == parts[1];
    OccursInJoin(parts, 1, EmptyDigestValue);
    OccursInLine("                ", EmptySignatureValue, "");
    assert "                " + EmptySignatureValue + "" == parts[4];
    OccursInJoin(parts, 4, EmptySignatureValue);
    OccursInLine("                    ", TokenReferenceElement, " />");
    OccursInJoin(parts, 7, TokenReferenceElement);
    OccursInLine("    ", BodyElement, BodyOpen[4 + |BodyElement|..]);
    assert "    " + BodyElement + BodyOpen[4 + |BodyElement|..] == BodyOpen;
    OccursInJoin(parts, 13, BodyElement);
  }

  /** Every envelope begins with the XML declaration. */
  lemma TemplateDeclaration(body: string, b64cert: string, signMethod: string, digestMethod: string)
    ensures StartsWith(Template(body, b64cert, signMethod, digestMethod), XmlDeclaration)
  {
    BeforeCertificateContents();
    TemplateFrame(body, b64cert, signMethod, digestMethod);
    StartsWithTransitive(Template(body, b64cert, signMethod, digestMethod), BeforeCertificate, XmlDeclaration);
  }

  /** Whatever occurs in the fixed text of the envelope occurs in every envelope. */
  lemma OccursInTemplate(body: string, b64cert: string, signMethod: string, digestMethod: string, p: string)
    requires Occurs(BeforeCertificate, p) || Occurs(BeforeSignatureMethod, p)
          || Occurs(BeforeDigestMethod, p) || Occurs(BeforeBody, p)
    ensures Occurs(Template(body, b64cert, signMethod, digestMethod), p)
  {
    OccursInLayout(BeforeCertificate, b64cert, BeforeSignatureMethod, signMethod, BeforeDigestMethod,
                   digestMethod, BeforeBody, body, AfterBody, p);
  }

  /** A string occurs in a line that starts with some indentation and continues with it. */
  lemma OccursInLine(indent: string, p: string, rest: string)
    ensures Occurs(indent + p + rest, p)
  {
    OccursSelf(p);
    OccursWithin(indent, p, rest, p);
  }

  /** In every envelope the DigestValue and SignatureValue elements are empty: the signing
      provider fills them in. */
  lemma TemplateEmptyValues(body: string, b64cert: string, signMethod: string, digestMethod: string)
    ensures Occurs(Template(body, b64cert, signMethod, digestMethod), EmptyDigestValue)
    ensures Occurs(Template(body, b64cert, signMethod, digestMethod), EmptySignatureValue)
  {
    BeforeBodyContents();
    OccursInTemplate(body, b64cert, signMethod, digestMethod, EmptyDigestValue);
    OccursInTemplate(body, b64cert, signMethod, digestMethod, EmptySignatureValue);
  }

  /** In every envelope the binary security token carries the identifier that the security
      token reference points at with a `#` in front of it. */
  lemma TemplateTokenReference(body: string, b64cert: string, signMethod: string, digestMethod: string)
    ensures Occurs(Template(body, b64cert, signMethod, digestMethod), TokenElement)
    ensures Occurs(Template(body, b64cert, signMethod, digestMethod), TokenReferenceElement)
  {
    BeforeCertificateContents();
    BeforeBodyContents();
    OccursInTemplate(body, b64cert, signMethod, digestMethod, TokenElement);
    OccursInTemplate(body, b64cert, signMethod, digestMethod, TokenReferenceElement);
  }

  /** In every envelope the body carries the identifier that the signature's reference
      points at with a `#` in front of it. */
  lemma TemplateBodyReference(body: string, b64cert: string, signMethod: string, digestMethod: string)
    ensures Occurs(Template(body, b64cert, signMethod, digestMethod), BodyElement)
    ensures Occurs(Template(body, b64cert, signMethod, digestMethod), BodyReferenceElement)
  {
    BeforeBodyContents();
    BeforeDigestMethodContents();
    OccursInTemplate(body, b64cert, signMethod, digestMethod, BodyElement);
    OccursInTemplate(body, b64cert, signMethod, digestMethod, BodyReferenceElement);
  }
}
