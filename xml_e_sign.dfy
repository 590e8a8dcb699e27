/** The XML signing directive: test mode, the plugin check, the certificate list, the sign
    decision and the plugin-driven signing steps, all reporting through one event subject
    whose handler runs synchronously on every push. */
module XmlESign {

  import opened Wrappers
  import opened Certificates
  import opened Algorithms
  import opened LineBreaks
  import opened Envelope
  import opened SignEvents

  /** The payload of every "plugin not found" outcome (two spaces after the first word). */
  const PluginNotFoundMessage: string := "Требуется  КриптоПро ЭЦП Browser plug-in и установленная ЭЦП"
  /** The payload of the "unsupported algorithm" outcome. */
  const NotInGostMessage: string :=
    "Поддерживается XML подпись сертификатами только с алгоритмом ГОСТ Р 34.10-2012, ГОСТ Р 34.10-2001"

  /** What the plugin's XML signing call does with a prepared document: return the signed
      message, or throw (with the error text the plugin reports for it). */
  datatype SignOutcome = Signed(message: string) | Thrown(lastError: string)

  /** The plugin as the signing steps see it: how many certificates of the store match the
      thumbprint, the public-key algorithm OID of the first one, its base64 export as the
      plugin returns it, and the signing call on a prepared document. */
  datatype Provider = Provider(
    certsCount: nat,
    algoOid: string,
    exported: string,
    signer: string -> SignOutcome)

  /** What the provider library's certificate enumeration produced. */
  datatype Enumeration = Enumerated(records: seq<RawCertificate>) | EnumerationFailed

  /** What the certificate list observable delivers: null when there is no JSON object,
      the mapped certificates, or the enumeration's error. */
  datatype CertificatesResult = NoJsonObject | Listed(certificates: seq<CertificateModel>) | ListingFailed

  /** The methods the signing steps put into the envelope: the registry's, or two empty
      strings for an unsupported algorithm. */
  function MethodsFor(algoOid: string): (m: AlgorithmMapping)
    ensures algoOid in Registry ==> m == Registry[algoOid]
    ensures algoOid !in Registry ==> m == AlgorithmMapping("", "")
  {
    if algoOid in Registry then Registry[algoOid] else AlgorithmMapping("", "")
  }

  /** The unsigned envelope the signing steps hand to the plugin. */
  function PreparedContent(body: string, p: Provider): string {
    var m := MethodsFor(p.algoOid);
    Template(body, StripLineBreaks(p.exported), m.signatureMethod, m.digestMethod)
  }

  /** The outcome pushed for the plugin's signing call. */
  function SignCallEvent(o: SignOutcome): (e: SignEvent)
    ensures o.Signed? ==> e == SignEvent(Success, o.message)
    ensures o.Thrown? ==> e == SignEvent(SignError, o.lastError)
  {
    match o
    case Signed(m) => SignEvent(Success, m)
    case Thrown(err) => SignEvent(SignError, err)
  }

  /** The report the signing steps push for a certificate's algorithm: none for a supported
      one, "unsupported algorithm" otherwise. */
  function AlgorithmEvents(algoOid: string): (r: seq<SignEvent>)
    ensures r == [] <==> algoOid in Registry
    ensures r != [] ==> r == [SignEvent(SignNotInGOST, NotInGostMessage)]
  {
    if algoOid in Registry then [] else [SignEvent(SignNotInGOST, NotInGostMessage)]
  }

  /** The outcomes the signing steps push once the certificate is found: the algorithm's
      report, then in any case the outcome of the signing call on the prepared envelope. */
  function FoundEvents(body: string, p: Provider): (r: seq<SignEvent>)
    ensures |r| == (if p.algoOid in Registry then 1 else 2)
    ensures p.algoOid !in Registry ==> r[0] == SignEvent(SignNotInGOST, NotInGostMessage)
    ensures r[|r| - 1] == SignCallEvent(p.signer(PreparedContent(body, p)))
  {
    AlgorithmEvents(p.algoOid) + [SignCallEvent(p.signer(PreparedContent(body, p)))]
  }

  /** The outcomes the signing steps push, in order, for a thumbprint and a body. */
  function SignXmlEvents(sCertName: string, body: string, p: Provider): (r: seq<SignEvent>)
    ensures r == [] <==> sCertName == ""
    ensures |r| <= 2
    ensures |r| == 2 ==> r[0] == SignEvent(SignNotInGOST, NotInGostMessage)
    ensures r != [] && p.certsCount == 0 ==> r == [SignEvent(CertificateNotFound, sCertName)]
    ensures r != [] && p.certsCount > 0 ==> r[|r| - 1] == SignCallEvent(p.signer(PreparedContent(body, p)))
  {
    if sCertName == "" then []
    else if p.certsCount == 0 then [SignEvent(CertificateNotFound, sCertName)]
    else FoundEvents(body, p)
  }

  /** The outcomes one `sign` call pushes, in order. */
  function SignCallEvents(selected: Option<CertificateModel>, placeholderThumbprint: string, isTestingMode: bool,
                          xmlData: string, p: Provider): (r: seq<SignEvent>)
    ensures |r| <= 2
    ensures selected.None? || selected.value.thumbprint == placeholderThumbprint ==> |r| == 1
    ensures selected.Some? && selected.value.thumbprint != placeholderThumbprint ==>
      r == SignXmlEvents(selected.value.thumbprint, xmlData, p)
  {
    if selected.None? || selected.value.thumbprint == placeholderThumbprint then
      [if isTestingMode then SignEvent(Success, Template(xmlData, "", "", ""))
       else SignEvent(PluginNotFined, PluginNotFoundMessage)]
    else SignXmlEvents(selected.value.thumbprint, xmlData, p)
  }

  /** The test-mode toggle on a key press: Alt+S negates the flag, any other key keeps it. */
  function ToggledTestingMode(isTestingMode: bool, altKey: bool, code: string): (r: bool)
    ensures r != isTestingMode <==> altKey && code == "KeyS"
  {
    if altKey && code == "KeyS" then !isTestingMode else isTestingMode
  }

  /** The prepared envelope carries the registry's methods for a supported algorithm and
      empty ones otherwise, always around the export without its line breaks. */
  lemma PreparedContentMethods(body: string, p: Provider)
    ensures p.algoOid in Registry ==>
      PreparedContent(body, p)
      == Template(body, StripLineBreaks(p.exported), Registry[p.algoOid].signatureMethod, Registry[p.algoOid].digestMethod)
    ensures p.algoOid !in Registry ==> PreparedContent(body, p) == Template(body, StripLineBreaks(p.exported), "", "")
  {
  }

  /** Pressing Alt+S twice restores the test-mode flag. */
  lemma ToggleTwice(isTestingMode: bool)
    ensures ToggledTestingMode(ToggledTestingMode(isTestingMode, true, "KeyS"), true, "KeyS") == isTestingMode
  {
  }

  /** Without a real certificate selected a `sign` call pushes exactly one outcome and never
      reaches the signing steps: the unsigned envelope with empty certificate and methods in
      test mode, "plugin not found" otherwise. */
  lemma SignWithoutCertificate(selected: Option<CertificateModel>, placeholderThumbprint: string,
                               isTestingMode: bool, xmlData: string, p: Provider)
    requires selected.None? || selected.value.thumbprint == placeholderThumbprint
    ensures isTestingMode ==>
      SignCallEvents(selected, placeholderThumbprint, isTestingMode, xmlData, p) == [SignEvent(Success, Template(xmlData, "", "", ""))]
    ensures !isTestingMode ==>
      SignCallEvents(selected, placeholderThumbprint, isTestingMode, xmlData, p) == [SignEvent(PluginNotFined, PluginNotFoundMessage)]
  {
  }

  /** The test-mode payload is an envelope around the XML data with an empty certificate and
      empty methods: reading it back gives exactly those. */
  lemma TestModePayload(xmlData: string, p: Provider)
    ensures var es := SignCallEvents(None, "", true, xmlData, p);
      |es| == 1 && ParseEnvelope(es[0].payload) == Some(EnvelopeFields(xmlData, "", "", ""))
  {
    ParseTemplate(xmlData, "", "", "");
  }

  /** How many outcomes the signing steps push: none for an empty thumbprint, two when the
      algorithm is unsupported (the run goes on after reporting it), one otherwise. */
  lemma SignXmlEventCount(sCertName: string, body: string, p: Provider)
    ensures |SignXmlEvents(sCertName, body, p)| == 0 <==> sCertName == ""
    ensures |SignXmlEvents(sCertName, body, p)| == 2 <==> sCertName != "" && p.certsCount > 0 && p.algoOid !in Registry
    ensures |SignXmlEvents(sCertName, body, p)| <= 2
  {
  }

  /** A thumbprint that matches no certificate yields exactly one "certificate not found"
      outcome whose payload is the thumbprint. */
  lemma SignXmlCertificateNotFound(sCertName: string, body: string, p: Provider)
    requires sCertName != "" && p.certsCount == 0
    ensures SignXmlEvents(sCertName, body, p) == [SignEvent(CertificateNotFound, sCertName)]
  {
  }

  /** For a supported algorithm the run ends with one outcome: the signed message when the
      plugin signs the prepared envelope, its error when the call throws. */
  lemma SignXmlSupported(sCertName: string, body: string, p: Provider)
    requires sCertName != "" && p.certsCount > 0 && p.algoOid in Registry
    ensures p.signer(PreparedContent(body, p)).Signed? ==>
      SignXmlEvents(sCertName, body, p) == [SignEvent(Success, p.signer(PreparedContent(body, p)).message)]
    ensures p.signer(PreparedContent(body, p)).Thrown? ==>
      SignXmlEvents(sCertName, body, p) == [SignEvent(SignError, p.signer(PreparedContent(body, p)).lastError)]
  {
  }

  /** For an unsupported algorithm exactly one "unsupported algorithm" outcome comes first,
      and the run still signs an envelope whose methods are empty. */
  lemma SignXmlUnsupported(sCertName: string, body: string, p: Provider)
    requires sCertName != "" && p.certsCount > 0 && p.algoOid !in Registry
    ensures SignXmlEvents(sCertName, body, p) ==
      [SignEvent(SignNotInGOST, NotInGostMessage),
       SignCallEvent(p.signer(Template(body, StripLineBreaks(p.exported), "", "")))]
  {
  }

  /** Stripping line breaks adds no space. */
  lemma StripKeepsNoSpace(s: string)
    requires ' ' !in s
    ensures ' ' !in StripLineBreaks(s)
  {
    StripKeepsCounts(s, ' ');
    assert multiset(s)[' '] == 0;
  }

  /** The envelope handed to the plugin carries the body, the export without its line breaks
      and the methods the registry gives for the certificate's algorithm (empty ones for an
      unsupported algorithm), each where the layout puts it. */
  lemma PreparedContentFields(body: string, p: Provider)
    requires ' ' !in p.exported
    ensures ParseEnvelope(PreparedContent(body, p))
         == Some(EnvelopeFields(body, StripLineBreaks(p.exported),
                                MethodsFor(p.algoOid).signatureMethod, MethodsFor(p.algoOid).digestMethod))
  {
    if p.algoOid in Registry {
      RegistryUnquoted(p.algoOid);
    }
    StripKeepsNoSpace(p.exported);
    var m := MethodsFor(p.algoOid);
    ParseTemplate(body, StripLineBreaks(p.exported), m.signatureMethod, m.digestMethod);
  }

  /** A GOST R 34.10-2001 certificate is signed with `gostr34102001-gostr3411` and digested
      with `gostr3411`. */
  lemma Gost2001Envelope(body: string, p: Provider)
    requires p.algoOid == Gost2001
    ensures PreparedContent(body, p) == Template(body, StripLineBreaks(p.exported),
      AlgorithmsPrefix + "gostr34102001-gostr3411", AlgorithmsPrefix + "gostr3411")
  {
  }

  /** After a `sign` call has pushed its outcomes and the handler has run on each, signing is
      still in progress only if nothing was pushed (an empty thumbprint), every outcome reached
      exactly one listener, and the selection is cleared after a success and marked as failed
      after failures only. */
  lemma SignSettles(st: HandlerState, es: seq<SignEvent>)
    ensures HandleAll(st.(signInProgress := true), Pushed(es)).signInProgress <==> es == []
    ensures |HandleAll(st, Pushed(es)).successResults| + |HandleAll(st, Pushed(es)).failedResults|
         == |st.successResults| + |st.failedResults| + |es|
    ensures (exists i :: 0 <= i < |es| && es[i].status == Success) ==> HandleAll(st, Pushed(es)).selected.None?
  {
    var st' := st.(signInProgress := true);
    HandleAllProgress(st', Pushed(es));
    PushedOutcomes(es);
    HandleAllEmits(st, Pushed(es));
    HandleAllSelection(st, Pushed(es));
    if exists i :: 0 <= i < |es| && es[i].status == Success {
      var i :| 0 <= i < |es| && es[i].status == Success;
      SuccessListed(es, i);
    }
  }

  /** A pushed success is among the successes. */
  lemma {:induction false} SuccessListed(es: seq<SignEvent>, i: nat)
    requires i < |es| && es[i].status == Success
    ensures Successes(Pushed(es)) != []
    decreases i
  {
    assert Pushed(es)[1..] == Pushed(es[1..]);
    if i > 0 {
      SuccessListed(es[1..], i - 1);
    }
  }

  /** A "certificate not found" run marks the selected certificate as failed. */
  lemma NotFoundDisablesSelection(st: HandlerState, sCertName: string, body: string, p: Provider)
    requires sCertName != "" && p.certsCount == 0 && st.selected.Some?
    ensures HandleAll(st, Pushed(SignXmlEvents(sCertName, body, p))).selected == Some(Disable(st.selected.value))
  {
    var es := Pushed(SignXmlEvents(sCertName, body, p));
    HandleAllSelection(st, es);
    assert es == [Some(SignEvent(CertificateNotFound, sCertName))];
    assert es[1..] == [];
  }

  class XmlESignDirective {
    var certificates: seq<CertificateModel>
    var selectedCertificate: Option<CertificateModel>
    var isPluginValid: bool
    var signInProgress: bool
    /** Every value the event subject has carried, starting with its initial null. */
    var signEvents: seq<Option<SignEvent>>
    var isTestingMode: bool
    /** Whether the `jsonObject` input is truthy. */
    var hasJsonObject: bool
    /** What the directive has emitted to its success listeners. */
    var successResults: seq<SignEvent>
    /** What the directive has emitted to its failure listeners. */
    var failedResults: seq<SignEvent>
    /** The placeholder certificate offered in test mode. */
    const emptyCertificate: RawCertificate

    /** The state the event handler reads and writes. */
    function Observed(): HandlerState
      reads this
    {
      HandlerState(signInProgress, selectedCertificate, successResults, failedResults)
    }

    /** The directive as created: the test-mode flag as persisted, a truthy JSON object, and
        the handler subscribed to the subject, whose initial null it ignores. */
    constructor (testingMode: bool, placeholder: RawCertificate)
      ensures isTestingMode == testingMode && emptyCertificate == placeholder && hasJsonObject
      ensures certificates == [] && selectedCertificate.None? && !isPluginValid && !signInProgress
      ensures signEvents == [None] && successResults == [] && failedResults == []
    {
      certificates := [];
      selectedCertificate := None;
      isPluginValid := false;
      signInProgress := false;
      isTestingMode := testingMode;
      hasJsonObject := true;
      emptyCertificate := placeholder;
      signEvents := [None];
      successResults := [];
      failedResults := [];
    }

    /** Push a value onto the subject; the handler runs on it at once. */
    method Next(e: Option<SignEvent>)
      modifies this
      ensures signEvents == old(signEvents) + [e]
      ensures Observed() == Handle(old(Observed()), e)
      ensures certificates == old(certificates) && isPluginValid == old(isPluginValid)
      ensures isTestingMode == old(isTestingMode) && hasJsonObject == old(hasJsonObject)
    {
      signEvents := signEvents + [e];
      match e
      case None =>
      case Some(ev) =>
        signInProgress := false;
        if ev.status == Success {
          successResults := successResults + [ev];
          selectedCertificate := None;
        } else {
          if selectedCertificate.Some? {
            selectedCertificate := Some(selectedCertificate.value.(isValid := false, cssClass := Some(DisabledClass)));
          }
          failedResults := failedResults + [ev];
        }
    }

    /** Push one outcome after others, keeping `signEvents` and the handler's state in step
        with the outcomes pushed so far. */
    method Push(ghost before: seq<SignEvent>, ghost st: HandlerState, ghost log: seq<Option<SignEvent>>, ev: SignEvent)
      requires Observed() == HandleAll(st, Pushed(before)) && signEvents == log + Pushed(before)
      modifies this
      ensures Observed() == HandleAll(st, Pushed(before + [ev])) && signEvents == log + Pushed(before + [ev])
      ensures certificates == old(certificates) && isPluginValid == old(isPluginValid)
      ensures isTestingMode == old(isTestingMode) && hasJsonObject == old(hasJsonObject)
    {
      Next(Some(ev));
      assert Pushed(before + [ev]) == Pushed(before) + [Some(ev)];
      HandleAllConcat(st, Pushed(before), [Some(ev)]);
      assert HandleAll(Handle(HandleAll(st, Pushed(before)), Some(ev)), []) == Handle(HandleAll(st, Pushed(before)), Some(ev));
    }

    /** The Alt+S key handler. */
    method KeyEvent(altKey: bool, code: string)
      modifies this
      ensures isTestingMode == ToggledTestingMode(old(isTestingMode), altKey, code)
      ensures Observed() == old(Observed()) && signEvents == old(signEvents)
      ensures certificates == old(certificates) && isPluginValid == old(isPluginValid)
      ensures hasJsonObject == old(hasJsonObject)
    {
      if altKey && code == "KeyS" {
        isTestingMode := !isTestingMode;
      }
    }

    /** Select a certificate (or clear the selection). */
    method OnCertificateSelected(certificate: Option<CertificateModel>)
      modifies this
      ensures selectedCertificate == certificate
      ensures signInProgress == old(signInProgress) && signEvents == old(signEvents)
      ensures successResults == old(successResults) && failedResults == old(failedResults)
      ensures certificates == old(certificates) && isPluginValid == old(isPluginValid)
      ensures isTestingMode == old(isTestingMode) && hasJsonObject == old(hasJsonObject)
    {
      selectedCertificate := certificate;
    }

    /** Record whether the plugin is present; without it, and outside test mode, report
        that it is missing. */
    method CheckPlugin(pluginPresent: bool)
      modifies this
      ensures isPluginValid == pluginPresent
      ensures !pluginPresent && !isTestingMode ==>
        signEvents == old(signEvents) + [Some(SignEvent(PluginNotFined, PluginNotFoundMessage))]
        && Observed() == Handle(old(Observed()), Some(SignEvent(PluginNotFined, PluginNotFoundMessage)))
      ensures pluginPresent || isTestingMode ==> signEvents == old(signEvents) && Observed() == old(Observed())
      ensures certificates == old(certificates)
      ensures isTestingMode == old(isTestingMode) && hasJsonObject == old(hasJsonObject)
    {
      isPluginValid := pluginPresent;
      if !isPluginValid && !isTestingMode {
        Next(Some(SignEvent(PluginNotFined, PluginNotFoundMessage)));
      }
    }

    /** The certificate list, as its observable delivers it once subscribed: nothing without a
        JSON object; otherwise, after the plugin check, the enumerated certificates with the
        plugin, the mapped placeholder alone in test mode without it, and none without either;
        a failed enumeration empties the list and reports the plugin as missing. */
    method GetCertificates(pluginPresent: bool, enumeration: Enumeration) returns (r: CertificatesResult)
      modifies this
      ensures !old(hasJsonObject) ==> r == NoJsonObject
      ensures !old(hasJsonObject) ==> certificates == old(certificates) && isPluginValid == old(isPluginValid)
      ensures !old(hasJsonObject) ==> signEvents == old(signEvents) && Observed() == old(Observed())
      ensures old(hasJsonObject) ==> isPluginValid == pluginPresent
      ensures old(hasJsonObject) && !pluginPresent ==>
        r == Listed(if isTestingMode then [Normalize(emptyCertificate)] else []) && certificates == r.certificates
      ensures old(hasJsonObject) && pluginPresent && enumeration.Enumerated? ==>
        r == Listed(certificates) && |certificates| == |enumeration.records|
        && forall i :: 0 <= i < |certificates| ==> certificates[i] == Normalize(enumeration.records[i])
      ensures old(hasJsonObject) && pluginPresent && enumeration.EnumerationFailed? ==>
        r == ListingFailed && certificates == []
        && signEvents == old(signEvents) + [Some(SignEvent(PluginNotFined, PluginNotFoundMessage))]
        && Observed() == Handle(old(Observed()), Some(SignEvent(PluginNotFined, PluginNotFoundMessage)))
      ensures old(hasJsonObject) && pluginPresent && enumeration.Enumerated? ==>
        signEvents == old(signEvents) && Observed() == old(Observed())
      ensures old(hasJsonObject) && !pluginPresent && isTestingMode ==>
        signEvents == old(signEvents) && Observed() == old(Observed())
      ensures old(hasJsonObject) && !pluginPresent && !isTestingMode ==>
        signEvents == old(signEvents) + [Some(SignEvent(PluginNotFined, PluginNotFoundMessage))]
        && Observed() == Handle(old(Observed()), Some(SignEvent(PluginNotFined, PluginNotFoundMessage)))
      ensures isTestingMode == old(isTestingMode) && hasJsonObject == old(hasJsonObject)
    {
      if !hasJsonObject {
        return NoJsonObject;
      }
      CheckPlugin(pluginPresent);
      if isPluginValid {
        match enumeration
        case Enumerated(records) =>
          certificates := seq(|records|, i requires 0 <= i < |records| => Normalize(records[i]));
          r := Listed(certificates);
        case EnumerationFailed =>
          certificates := [];
          Next(Some(SignEvent(PluginNotFined, PluginNotFoundMessage)));
          r := ListingFailed;
      } else {
        certificates := if isTestingMode then [Normalize(emptyCertificate)] else [];
        r := Listed(certificates);
      }
    }

    /** The plugin-driven signing steps for the certificate with thumbprint `sCertName`. */
    method SignXml(sCertName: string, body: string, provider: Provider)
      modifies this
      ensures signEvents == old(signEvents) + Pushed(SignXmlEvents(sCertName, body, provider))
      ensures Observed() == HandleAll(old(Observed()), Pushed(SignXmlEvents(sCertName, body, provider)))
      ensures certificates == old(certificates) && isPluginValid == old(isPluginValid)
      ensures isTestingMode == old(isTestingMode) && hasJsonObject == old(hasJsonObject)
    {
      assert Pushed([]) == [];
      if sCertName == "" {
        assert signEvents + Pushed([]) == signEvents;
        return;
      }
      var certsCount := provider.certsCount;
      if certsCount == 0 {
        Push([], Observed(), signEvents, SignEvent(CertificateNotFound, sCertName));
        assert [] + [SignEvent(CertificateNotFound, sCertName)] == SignXmlEvents(sCertName, body, provider);
        return;
      }
      SignWithCertificate(body, provider);
    }

    /** The signing steps once the certificate is found: choose the methods for its algorithm
        (reporting an unsupported one), build the envelope around its export without line
        breaks, and push the outcome of the plugin's signing call. */
    method SignWithCertificate(body: string, provider: Provider)
      modifies this
      ensures signEvents == old(signEvents) + Pushed(FoundEvents(body, provider))
      ensures Observed() == HandleAll(old(Observed()), Pushed(FoundEvents(body, provider)))
      ensures certificates == old(certificates) && isPluginValid == old(isPluginValid)
      ensures isTestingMode == old(isTestingMode) && hasJsonObject == old(hasJsonObject)
    {
      ghost var st := Observed();
      ghost var log := signEvents;
      var signMethod, digestMethod := ReportAlgorithm(provider.algoOid);
      var sContent := BuildContent(body, provider, signMethod, digestMethod);
      var outcome := provider.signer(sContent);
      var response := match outcome
        case Signed(sSignedMessage) => SignEvent(Success, sSignedMessage)
        case Thrown(lastError) => SignEvent(SignError, lastError);
      Push(AlgorithmEvents(provider.algoOid), st, log, response);
    }

    /** Choose the methods for a certificate's algorithm and report an unsupported one. */
    method ReportAlgorithm(algoOid: string) returns (signMethod: string, digestMethod: string)
      modifies this
      ensures algoOid in Registry ==>
        signMethod == Registry[algoOid].signatureMethod && digestMethod == Registry[algoOid].digestMethod
      ensures algoOid !in Registry ==> signMethod == "" && digestMethod == ""
      ensures signEvents == old(signEvents) + Pushed(AlgorithmEvents(algoOid))
      ensures Observed() == HandleAll(old(Observed()), Pushed(AlgorithmEvents(algoOid)))
      ensures certificates == old(certificates) && isPluginValid == old(isPluginValid)
      ensures isTestingMode == old(isTestingMode) && hasJsonObject == old(hasJsonObject)
    {
      var supported;
      signMethod, digestMethod, supported := SelectMethods(algoOid);
      assert Pushed([]) == [];
      if !supported {
        Push([], Observed(), signEvents, SignEvent(SignNotInGOST, NotInGostMessage));
        assert [] + [SignEvent(SignNotInGOST, NotInGostMessage)] == AlgorithmEvents(algoOid);
      }
    }

    /** The envelope handed to the plugin: the export without its line breaks and the
        methods the if-chain chose, inserted into the template. */
    method BuildContent(body: string, provider: Provider, signMethod: string, digestMethod: string)
      returns (sContent: string)
      requires provider.algoOid in Registry ==>
        signMethod == Registry[provider.algoOid].signatureMethod && digestMethod == Registry[provider.algoOid].digestMethod
      requires provider.algoOid !in Registry ==> signMethod == "" && digestMethod == ""
      ensures sContent == PreparedContent(body, provider)
    {
      var b64cert := StripLineBreaks(provider.exported);
      sContent := Template(body, b64cert, signMethod, digestMethod);
    }

    /** Sign the XML made from the JSON object: without a real selected certificate answer at
        once (the unsigned envelope in test mode, "plugin not found" otherwise); with one, run
        the signing steps. */
    method Sign(xmlData: string, provider: Provider)
      modifies this
      ensures signEvents == old(signEvents)
        + Pushed(SignCallEvents(old(selectedCertificate), emptyCertificate.thumbprint, old(isTestingMode), xmlData, provider))
      ensures Observed() == HandleAll(old(Observed()).(signInProgress := true),
        Pushed(SignCallEvents(old(selectedCertificate), emptyCertificate.thumbprint, old(isTestingMode), xmlData, provider)))
      ensures certificates == old(certificates) && isPluginValid == old(isPluginValid)
      ensures isTestingMode == old(isTestingMode) && hasJsonObject == old(hasJsonObject)
    {
      signInProgress := true;
      if selectedCertificate.None? || selectedCertificate.value.thumbprint == emptyCertificate.thumbprint {
        var response := if isTestingMode then SignEvent(Success, Template(xmlData, "", "", ""))
                        else SignEvent(PluginNotFined, PluginNotFoundMessage);
        assert Pushed([]) == [];
        Push([], Observed(), signEvents, response);
        assert [] + [response] == [response];
        return;
      } else {
        SignXml(selectedCertificate.value.thumbprint, xmlData, provider);
      }
    }
  }
}
