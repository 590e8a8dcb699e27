# XML e-signature directive, modelled in Dafny

This project models the core of an Angular library for signing XML with the CryptoPro browser
plug-in. The core has two parts.

The first is the **`xmlESign` directive**:
- the Alt+S test-mode toggle;
- the plug-in check and the certificate list;
- the `sign` decision between a test-mode answer, "plugin not found" and the plug-in-driven
  signing steps;
- the SOAP envelope template;
- the choice of the GOST signature and digest method URIs from the certificate's public-key
  algorithm OID;
- the removal of line breaks from the exported base64 certificate;
- the handler that reacts to the outcomes pushed onto the directive's event subject.

The second is the **certificate mapper**. It turns a provider certificate into the library's
`CertificateModel`, replacing the issuer by the common name that `CN=([^,+]*)` captures.

Modules, one per concern:
- **`Wrappers`**: `Option`.
- **`Strings`**: prefix, occurrence and first-index search on strings.
- **`Certificates`**: the raw and the normalised certificate records and the mapper. The
  regular expression is modelled as "leftmost `CN=`, then the longest run without `,` or `+`".
- **`Algorithms`**: the OID registry as a `map`, and the source's if-chain as a method proved
  to agree with it.
- **`LineBreaks`**: `replace(/[\r\n]/g, '')`.
- **`Envelope`**: the template as fixed text with four holes, and a parser. Parsing an envelope
  recovers its inputs (its inverse).
- **`SignEvents`**: the outcome records and the handler. The handler works on a value state,
  over a single outcome or a run of outcomes.
- **`XmlESign`**: the directive as a class whose methods update its fields. The event subject is
  a `seq` field, the log of everything pushed, starting with the initial null. Every push runs
  the handler at once, as the synchronous subscription does. Next to the class are the
  functions giving the outcomes a `sign` call pushes, with lemmas about them.

The plug-in's calls are a `Provider` value:
- the number of store certificates with the thumbprint;
- the algorithm OID of the first one;
- its base64 export;
- the signing call, a function from the prepared document to "signed message" or "thrown, with
  this error text".

The JSON-to-XML conversion is a string parameter of `Sign`. The placeholder certificate
`EMPTY_CERTIFICATE` is a constructor parameter, because `default-data/certificates` is not
part of this model. The status enum `ErrorCryptoPro` is not part of this model either. Its
five members are the names the directive uses.

Three behaviours of the code worth knowing:
- **Unsupported algorithm.** The signing steps do not stop when they report one. They go on
  and sign an envelope with empty method URIs, so two outcomes are pushed
  (`XmlESign.SignXmlUnsupported`, `XmlESign.SignXmlEventCount`).
- **One prefix for every algorithm.** All three rows use the prefix
  `urn:ietf:params:xml:ns:cpxmlsec:algorithms:` (`Algorithms.RegistryUnderPrefix`).
- **Empty thumbprint.** The steps push nothing, so the signing stays "in progress"
  (`XmlESign.SignSettles`).

## Model

| member | source | states |
|---|---|---|
| Certificates.Map | projects/e-sign-lib/src/lib/mapper/certificates.mapper.ts:6-29 | null maps to null and only null does; otherwise the record is valid, has no CSS class, copies name, thumbprint and validity dates, and its issuer is the issuer label |
| Certificates.Normalize | projects/e-sign-lib/src/lib/mapper/certificates.mapper.ts:8-28 | the non-null path: issuer label, `isValid` true, the other four fields copied, no class |
| Certificates.FindCn | projects/e-sign-lib/src/lib/mapper/certificates.mapper.ts:16 | the index where the regular expression starts matching is the first `CN=` at or after the start position, or there is none |
| Certificates.LabelRun | projects/e-sign-lib/src/lib/mapper/certificates.mapper.ts:16 | the greedy group `[^,+]*` captures a prefix free of `,` and `+` that ends at the end of the text or right before a separator |
| Certificates.FindCnFirst | projects/e-sign-lib/src/lib/mapper/certificates.mapper.ts:16 | any `CN=` with none before it is the one found |
| Certificates.IssuerLabelMatched | projects/e-sign-lib/src/lib/mapper/certificates.mapper.ts:16-19 | for an issuer `pre + "CN=" + cn + post` whose first `CN=` follows `pre`, the label is exactly `cn` when `post` starts with a separator or is empty |
| Certificates.LabelRunMaximal | projects/e-sign-lib/src/lib/mapper/certificates.mapper.ts:16 | the capture stops exactly at the first separator |
| Certificates.IssuerLabelUnmatched | projects/e-sign-lib/src/lib/mapper/certificates.mapper.ts:17-19 | without `CN=` the issuer is kept as it is |
| Certificates.IssuerLabelOfMatch | projects/e-sign-lib/src/lib/mapper/certificates.mapper.ts:16-19 | with a `CN=`, the label follows the first one, holds no separator and is at least three characters shorter than the issuer |
| Certificates.IssuerLabelLeadingCn | projects/e-sign-lib/src/lib/mapper/certificates.mapper.ts:16-19 | `CN=Ivanov Ivan,O=Acme,C=RU` gives `Ivanov Ivan` |
| Certificates.IssuerLabelNoCn | projects/e-sign-lib/src/lib/mapper/certificates.mapper.ts:17-19 | `O=Acme` gives `O=Acme` |
| Certificates.IssuerLabelTrailingCn | projects/e-sign-lib/src/lib/mapper/certificates.mapper.ts:16-19 | `C=RU+CN=Test CA` gives `Test CA` (the match need not be at the start; it may run to the end) |
| Certificates.IssuerLabel | projects/e-sign-lib/src/lib/mapper/certificates.mapper.ts:16-19 | without `CN=` the issuer itself; otherwise the run that follows the first `CN=`, without separators and ending at the end of the issuer or right before a separator |
| Algorithms.SelectMethods | projects/e-sign-lib/src/lib/xml-e-sign.directive.ts:323-338 | the if-chain reports support exactly for the registry's OIDs, assigns the registry's two URIs for them, and leaves both empty otherwise |
| Algorithms.RegistryKeys | projects/e-sign-lib/src/lib/xml-e-sign.directive.ts:325-333 | exactly the three GOST OIDs are supported |
| Algorithms.RegistryUnderPrefix | projects/e-sign-lib/src/lib/xml-e-sign.directive.ts:325-333 | every method URI is published under the common cpxmlsec prefix and is longer than it |
| Algorithms.Gost2001Methods | projects/e-sign-lib/src/lib/xml-e-sign.directive.ts:331-333 | OID 1.2.643.2.2.19 signs with `gostr34102001-gostr3411` and digests with `gostr3411` |
| Algorithms.RegistryUnquoted | projects/e-sign-lib/src/lib/xml-e-sign.directive.ts:325-333 | no method URI contains a double quote, so each fits the template's quoted attribute |
| LineBreaks.StripLineBreaks | projects/e-sign-lib/src/lib/xml-e-sign.directive.ts:341 | the result holds no carriage return or line feed and is no longer than the input |
| LineBreaks.StripConcat | projects/e-sign-lib/src/lib/xml-e-sign.directive.ts:341 | stripping distributes over concatenation (the other characters keep their order) |
| LineBreaks.StripChar | projects/e-sign-lib/src/lib/xml-e-sign.directive.ts:341 | a line break is dropped, any other character kept |
| LineBreaks.StripWithoutLineBreaks | projects/e-sign-lib/src/lib/xml-e-sign.directive.ts:341 | a text without line breaks is unchanged |
| LineBreaks.StripIdempotent | projects/e-sign-lib/src/lib/xml-e-sign.directive.ts:341 | stripping twice is stripping once |
| LineBreaks.StripKeepsCounts | projects/e-sign-lib/src/lib/xml-e-sign.directive.ts:341 | every character other than a line break occurs as often after stripping as before |
| Envelope.ParseTemplate | projects/e-sign-lib/src/lib/xml-e-sign.directive.ts:240-273 | parsing an envelope gives back body, certificate, signature and digest method, when the certificate has no space and the methods no double quote |
| Envelope.TemplateInjective | projects/e-sign-lib/src/lib/xml-e-sign.directive.ts:240-273 | under the same side conditions, equal envelopes come from equal inputs |
| Envelope.TemplateDeclaration | projects/e-sign-lib/src/lib/xml-e-sign.directive.ts:241 | every envelope starts with the XML declaration |
| Envelope.TemplateEmptyValues | projects/e-sign-lib/src/lib/xml-e-sign.directive.ts:257-260 | every envelope holds an empty `DigestValue` and an empty `SignatureValue` for the plug-in to fill |
| Envelope.TemplateTokenReference | projects/e-sign-lib/src/lib/xml-e-sign.directive.ts:245-263 | the binary security token carries the id the key-info reference points to |
| Envelope.TemplateBodyReference | projects/e-sign-lib/src/lib/xml-e-sign.directive.ts:252-269 | the body carries the id `_1` the signed-info reference points to |
| Envelope.OccursInTemplate | projects/e-sign-lib/src/lib/xml-e-sign.directive.ts:240-273 | whatever occurs in any fixed part of the template occurs in every envelope |
| Envelope.OccursInLayout | projects/e-sign-lib/src/lib/xml-e-sign.directive.ts:240-273 | whatever occurs in a fixed part of a four-hole layout occurs in the layout |
| Envelope.BeforeCertificateContents | projects/e-sign-lib/src/lib/xml-e-sign.directive.ts:241-245 | the text before the certificate starts with the XML declaration and holds the token's opening tag with its `u:Id` |
| Envelope.BeforeDigestMethodContents | projects/e-sign-lib/src/lib/xml-e-sign.directive.ts:252 | the text between the two methods holds `<Reference URI="#_1"` |
| Envelope.BeforeBodyContents | projects/e-sign-lib/src/lib/xml-e-sign.directive.ts:257-269 | the text between the digest method and the body holds both empty values, the key-info token reference and the body's opening tag with `u:Id="_1"` |
| Envelope.TemplateFrame | projects/e-sign-lib/src/lib/xml-e-sign.directive.ts:240-273 | `Template` (the template itself): every envelope opens with the fixed head and then the certificate, closes with the body and then the closing body and envelope tags, and is exactly as long as the fixed text plus its four inputs |
| Envelope.Framed | projects/e-sign-lib/src/lib/xml-e-sign.directive.ts:240-273 | the same opening, closing and length facts for any four-hole layout |
| Envelope.Delimiters | projects/e-sign-lib/src/lib/xml-e-sign.directive.ts:245-256 | the certificate is followed by a space and each method by a double quote |
| Envelope.SplitAt | projects/e-sign-lib/src/lib/xml-e-sign.directive.ts:240-273 | a cut at a delimiter reassembles to the text |
| Envelope.SplitAtFirst | projects/e-sign-lib/src/lib/xml-e-sign.directive.ts:240-273 | cutting at the first delimiter recovers both sides when the left one lacks the delimiter's first character |
| Envelope.Split4Layout | projects/e-sign-lib/src/lib/xml-e-sign.directive.ts:240-273 | the four-hole reader undoes the four-hole layout |
| SignEvents.Disable | projects/e-sign-lib/src/lib/xml-e-sign.directive.ts:115-118 | a failed certificate becomes invalid with class `disabled`, all else kept |
| SignEvents.DisableIdempotent | projects/e-sign-lib/src/lib/xml-e-sign.directive.ts:115-118 | marking twice is marking once |
| SignEvents.Handle | projects/e-sign-lib/src/lib/xml-e-sign.directive.ts:99-124 | null is ignored; any outcome ends signing; success clears the selection and is appended to the success listener's log only; anything else disables the selected certificate (if any) and is appended to the failure listener's log only |
| SignEvents.HandleAll | projects/e-sign-lib/src/lib/xml-e-sign.directive.ts:99-124 | the subscription over a run of subject values: a run of nulls changes nothing, and any outcome in the run ends the signing in progress |
| SignEvents.HandleAllEmits | projects/e-sign-lib/src/lib/xml-e-sign.directive.ts:99-124 | over a run, the success listener gets exactly the successes and the failure listener exactly the rest, in order |
| SignEvents.HandleAllProgress | projects/e-sign-lib/src/lib/xml-e-sign.directive.ts:105 | signing stays in progress only if no outcome arrived |
| SignEvents.HandleAllSelection | projects/e-sign-lib/src/lib/xml-e-sign.directive.ts:106-118 | after a run the selection is cleared if any outcome succeeded, disabled if all failed, and unchanged if there was none |
| SignEvents.HandleAllConcat | projects/e-sign-lib/src/lib/xml-e-sign.directive.ts:99-124 | handling two runs in turn is handling their concatenation |
| SignEvents.PushedOutcomes | projects/e-sign-lib/src/lib/xml-e-sign.directive.ts:99-124 | each pushed outcome is counted once as a success or a failure, and there is one only if something was pushed |
| XmlESign.MethodsFor | projects/e-sign-lib/src/lib/xml-e-sign.directive.ts:323-338 | the registry's methods for a supported OID; both empty for an unsupported one |
| XmlESign.PreparedContentMethods | projects/e-sign-lib/src/lib/xml-e-sign.directive.ts:323-368 | `PreparedContent` (the document the plug-in signs): the template around the export without line breaks, with the registry's methods for a supported OID and empty ones otherwise |
| XmlESign.AlgorithmEvents | projects/e-sign-lib/src/lib/xml-e-sign.directive.ts:334-337 | no report exactly for a supported OID; otherwise one "unsupported algorithm" outcome |
| XmlESign.FoundEvents | projects/e-sign-lib/src/lib/xml-e-sign.directive.ts:323-393 | once the certificate is found: one outcome for a supported OID and two otherwise, the first being "unsupported algorithm", the last always the outcome of signing the prepared envelope |
| XmlESign.SignXmlEvents | projects/e-sign-lib/src/lib/xml-e-sign.directive.ts:297-393 | nothing exactly for an empty thumbprint, at most two outcomes, "certificate not found" with the thumbprint when no certificate matches, and otherwise ending with the outcome of signing the prepared envelope |
| XmlESign.SignCallEvents | projects/e-sign-lib/src/lib/xml-e-sign.directive.ts:216-231 | at most two outcomes; exactly one without a real certificate selected; with one, the outcomes of the signing steps for its thumbprint |
| XmlESign.ToggledTestingMode | projects/e-sign-lib/src/lib/xml-e-sign.directive.ts:81-87 | the flag changes exactly on Alt+S |
| XmlESign.SignCallEvent | projects/e-sign-lib/src/lib/xml-e-sign.directive.ts:384-393 | a returned message becomes a success carrying it; a throw becomes a signing error carrying the plug-in's error text |
| XmlESign.ToggleTwice | projects/e-sign-lib/src/lib/xml-e-sign.directive.ts:81-87 | pressing Alt+S twice restores test mode |
| XmlESign.SignWithoutCertificate | projects/e-sign-lib/src/lib/xml-e-sign.directive.ts:216-227 | with no real certificate selected, one outcome: the unsigned envelope with empty certificate and methods in test mode, "plugin not found" otherwise |
| XmlESign.TestModePayload | projects/e-sign-lib/src/lib/xml-e-sign.directive.ts:219-221 | the test-mode payload parses back to the XML data with empty certificate and methods |
| XmlESign.SignXmlEventCount | projects/e-sign-lib/src/lib/xml-e-sign.directive.ts:297-393 | the signing steps push nothing exactly for an empty thumbprint, two outcomes exactly for a found certificate with an unsupported algorithm, and never more than two |
| XmlESign.SignXmlCertificateNotFound | projects/e-sign-lib/src/lib/xml-e-sign.directive.ts:311-316 | no matching certificate gives one "certificate not found" outcome carrying the thumbprint |
| XmlESign.SignXmlSupported | projects/e-sign-lib/src/lib/xml-e-sign.directive.ts:323-393 | with a supported algorithm, one outcome: the signed message, or the plug-in's error if the call throws |
| XmlESign.SignXmlUnsupported | projects/e-sign-lib/src/lib/xml-e-sign.directive.ts:334-393 | with an unsupported algorithm, "unsupported algorithm" first, then the outcome of signing an envelope with empty methods |
| XmlESign.StripKeepsNoSpace | projects/e-sign-lib/src/lib/xml-e-sign.directive.ts:341 | stripping adds no space to the certificate |
| XmlESign.PreparedContentFields | projects/e-sign-lib/src/lib/xml-e-sign.directive.ts:323-368 | the document handed to the plug-in parses back to the body, the export without line breaks, and the registry's methods for the OID (empty ones for an unsupported OID) |
| XmlESign.Gost2001Envelope | projects/e-sign-lib/src/lib/xml-e-sign.directive.ts:331-368 | a GOST R 34.10-2001 certificate's envelope uses `gostr34102001-gostr3411` and `gostr3411` |
| XmlESign.SignSettles | projects/e-sign-lib/src/lib/xml-e-sign.directive.ts:99-124 | after a `sign` call, signing is in progress exactly when nothing was pushed; each outcome reached one listener; any success cleared the selection |
| XmlESign.SuccessListed | projects/e-sign-lib/src/lib/xml-e-sign.directive.ts:106-108 | a pushed success is among the successes the handler sees |
| XmlESign.NotFoundDisablesSelection | projects/e-sign-lib/src/lib/xml-e-sign.directive.ts:113-118 | a "certificate not found" run disables the selected certificate |
| XmlESign.XmlESignDirective.constructor | projects/e-sign-lib/src/lib/xml-e-sign.directive.ts:18-55 | the initial state: no certificates or selection, plugin not valid, not signing, persisted test mode, subject holding only its initial null |
| XmlESign.XmlESignDirective.Next | projects/e-sign-lib/src/lib/xml-e-sign.directive.ts:99-124 | a push appends to the subject's log and applies the handler to the state |
| XmlESign.XmlESignDirective.Push | projects/e-sign-lib/src/lib/xml-e-sign.directive.ts:99-124 | pushing one more outcome keeps the log and the state equal to the handler run over all outcomes so far |
| XmlESign.XmlESignDirective.KeyEvent | projects/e-sign-lib/src/lib/xml-e-sign.directive.ts:81-87 | Alt+S negates test mode; any other key changes nothing |
| XmlESign.XmlESignDirective.OnCertificateSelected | projects/e-sign-lib/src/lib/xml-e-sign.directive.ts:144-146 | the selection becomes the given certificate; nothing else changes |
| XmlESign.XmlESignDirective.CheckPlugin | projects/e-sign-lib/src/lib/xml-e-sign.directive.ts:129-138 | records whether the plug-in is present, and pushes "plugin not found" exactly when it is missing outside test mode |
| XmlESign.XmlESignDirective.GetCertificates | projects/e-sign-lib/src/lib/xml-e-sign.directive.ts:151-182 | null without a JSON object; otherwise the plug-in check, then the mapped enumeration, the mapped placeholder alone in test mode, or nothing; a failed enumeration empties the list and pushes "plugin not found" |
| XmlESign.XmlESignDirective.SignXml | projects/e-sign-lib/src/lib/xml-e-sign.directive.ts:281-416 | the subject receives exactly the outcomes of the signing steps, and the state is the handler run over them |
| XmlESign.XmlESignDirective.SignWithCertificate | projects/e-sign-lib/src/lib/xml-e-sign.directive.ts:317-393 | once the certificate is found, the subject receives exactly the found-certificate outcomes, and the state is the handler run over them |
| XmlESign.XmlESignDirective.ReportAlgorithm | projects/e-sign-lib/src/lib/xml-e-sign.directive.ts:320-338 | the methods the registry gives (empty for an unsupported OID), and the subject receives the algorithm's report |
| XmlESign.XmlESignDirective.BuildContent | projects/e-sign-lib/src/lib/xml-e-sign.directive.ts:340-368 | the envelope built from the export and the chosen methods is the prepared document |
| XmlESign.XmlESignDirective.Sign | projects/e-sign-lib/src/lib/xml-e-sign.directive.ts:216-231 | signing is set in progress, then the subject receives exactly the outcomes of the `sign` decision and the state is the handler run over them |

## Left out

- Aliasing: `CertificateModel` is a value. The handler disables the selected certificate, but
  in the source that object is also an element of `certificates`, so the list entry changes
  too. The model does not capture that update of the list entry.
- Asynchrony: the plug-in's `async_spawn` generator and its `yield`s are not modelled. The
  signing steps run to completion at once. The order of pushes within one run is kept.
- Plug-in objects: store opening and closing, signer creation and the properties set on it are
  not modelled. They only feed the `Provider` values. Exceptions from any call other than the
  final signing are not modelled.
- `alert` on an empty thumbprint: left out as UI output. The model pushes nothing there, as the
  source does.
- `downloadFile`: left out as browser I/O.
- `console.log` and the `localStorage` write: left out as I/O; the constructor takes the
  persisted test mode as a parameter.
- `jsonToXml` from `js2xmlparser`: left out as a foreign library; its output is a parameter of
  `Sign`.
- `Observable` plumbing of `getCertificates`: not modelled. `GetCertificates` performs what one
  subscription does, and the enumeration's outcome is a parameter.
- The crypto-pro service (`isPlugin`, `getUserCertificates`): its answers are parameters.
- `certificates`: starts as `undefined` in the source and as the empty list in the model.
- `Certificates.Map`: does not model the exception the source throws when a non-null
  certificate has an undefined `issuerName`; issuers are always strings here.
- Inputs `rootField` and `isNeedDownloadFile`: serve only the conversion and the download left
  out above.
- `class`: this field of `CertificateModel` is the Dafny field `cssClass`, and it stays absent
  (`None`) until a signing fails.
