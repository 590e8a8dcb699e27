/** The outcomes pushed onto the directive's event subject and the handler that reacts to
    each of them. */
module SignEvents {

  import opened Wrappers
  import opened Certificates

  /** The status of an outcome (the names are the library's own, misspelling included). */
  datatype ErrorCryptoPro = Success | PluginNotFined | CertificateNotFound | SignNotInGOST | SignError

  /** One outcome: its status and its payload (the signed document or a message). It is also
      what the directive emits to its success and failure listeners. */
  datatype SignEvent = SignEvent(status: ErrorCryptoPro, payload: string)

  /** The CSS class a certificate gets once signing with it failed. */
  const DisabledClass: string := "disabled"

  /** Mark a certificate as failed. */
  function Disable(c: CertificateModel): (r: CertificateModel)
    ensures !r.isValid && r.cssClass == Some(DisabledClass)
    ensures r.issuerName == c.issuerName && r.name == c.name && r.thumbprint == c.thumbprint
    ensures r.validFrom == c.validFrom && r.validTo == c.validTo
  {
    c.(isValid := false, cssClass := Some(DisabledClass))
  }

  /** The part of the directive's state the handler reads and writes, with what it has
      emitted to the success and the failure listeners. */
  datatype HandlerState = HandlerState(
    signInProgress: bool,
    selected: Option<CertificateModel>,
    successResults: seq<SignEvent>,
    failedResults: seq<SignEvent>)

  /** The handler run for every value the subject delivers. A null value is filtered out;
      any other ends the signing in progress and then either reports success and clears the
      selection, or marks the selected certificate (if any) as failed and reports the failure. */
  function Handle(st: HandlerState, e: Option<SignEvent>): (r: HandlerState)
    ensures e.None? ==> r == st
    ensures e.Some? ==> !r.signInProgress
    ensures e.Some? && e.value.status == Success ==> r.selected.None? && r.successResults == st.successResults + [e.value]
    ensures e.Some? && e.value.status == Success ==> r.failedResults == st.failedResults
    ensures e.Some? && e.value.status != Success ==> r.failedResults == st.failedResults + [e.value]
    ensures e.Some? && e.value.status != Success ==> r.successResults == st.successResults
    ensures e.Some? && e.value.status != Success ==>
      r.selected == (if st.selected.Some? then Some(Disable(st.selected.value)) else None)
    ensures e.Some? && r.selected.Some? ==> !r.selected.value.isValid && r.selected.value.cssClass == Some(DisabledClass)
    ensures |r.successResults| + |r.failedResults| == |st.successResults| + |st.failedResults| + (if e.Some? then 1 else 0)
  {
    match e
    case None => st
    case Some(ev) =>
      if ev.status == Success then
        st.(signInProgress := false, selected := None, successResults := st.successResults + [ev])
      else
        var selected := if st.selected.Some? then Some(Disable(st.selected.value)) else None;
        st.(signInProgress := false, selected := selected, failedResults := st.failedResults + [ev])
  }

  /** The handler run for each value of `es` in turn. */
  function HandleAll(st: HandlerState, es: seq<Option<SignEvent>>): (r: HandlerState)
    ensures (forall i :: 0 <= i < |es| ==> es[i].None?) ==> r == st
    ensures (exists i :: 0 <= i < |es| && es[i].Some?) ==> !r.signInProgress
    decreases |es|
  {
    if es == [] then st else HandleAll(Handle(st, es[0]), es[1..])
  }

  /** The successful outcomes among `es`, in order. */
  function Successes(es: seq<Option<SignEvent>>): seq<SignEvent>
    decreases |es|
  {
    if es == [] then []
    else (if es[0].Some? && es[0].value.status == Success then [es[0].value] else []) + Successes(es[1..])
  }

  /** The failed outcomes among `es`, in order. */
  function Failures(es: seq<Option<SignEvent>>): seq<SignEvent>
    decreases |es|
  {
    if es == [] then []
    else (if es[0].Some? && es[0].value.status != Success then [es[0].value] else []) + Failures(es[1..])
  }

  /** Each pushed outcome as a non-null subject value. */
  function Pushed(es: seq<SignEvent>): (r: seq<Option<SignEvent>>)
    ensures |r| == |es| && forall i :: 0 <= i < |es| ==> r[i] == Some(es[i])
  {
    seq(|es|, i requires 0 <= i < |es| => Some(es[i]))
  }

  /** Every outcome reaches exactly one listener, in the order pushed: successes the success
      listener, everything else the failure listener; null values reach neither. */
  lemma {:induction false} HandleAllEmits(st: HandlerState, es: seq<Option<SignEvent>>)
    ensures HandleAll(st, es).successResults == st.successResults + Successes(es)
    ensures HandleAll(st, es).failedResults == st.failedResults + Failures(es)
    decreases |es|
  {
    if es != [] {
      var st' := Handle(st, es[0]);
      HandleAllEmits(st', es[1..]);
      assert HandleAll(st, es) == HandleAll(st', es[1..]);
      if es[0].Some? && es[0].value.status == Success {
        assert st'.successResults == st.successResults + [es[0].value] && st'.failedResults == st.failedResults;
      } else if es[0].Some? {
        assert st'.failedResults == st.failedResults + [es[0].value] && st'.successResults == st.successResults;
      }
    }
  }

  /** Signing stays in progress only while no outcome has arrived. */
  lemma {:induction false} HandleAllProgress(st: HandlerState, es: seq<Option<SignEvent>>)
    ensures HandleAll(st, es).signInProgress == (st.signInProgress && Successes(es) == [] && Failures(es) == [])
    decreases |es|
  {
    if es != [] {
      HandleAllProgress(Handle(st, es[0]), es[1..]);
    }
  }

  /** Marking a certificate as failed twice is the same as once. */
  lemma DisableIdempotent(c: CertificateModel)
    ensures Disable(Disable(c)) == Disable(c)
  {
  }

  /** After a run of outcomes the selection is cleared if one of them succeeded, the
      originally selected certificate marked as failed if all of them failed, and unchanged
      if there was none. */
  lemma {:induction false} HandleAllSelection(st: HandlerState, es: seq<Option<SignEvent>>)
    ensures HandleAll(st, es).selected ==
      if Successes(es) != [] then None
      else if Failures(es) != [] then (if st.selected.Some? then Some(Disable(st.selected.value)) else None)
      else st.selected
    decreases |es|
  {
    if es != [] {
      var st' := Handle(st, es[0]);
      HandleAllSelection(st', es[1..]);
      if st.selected.Some? {
        DisableIdempotent(st.selected.value);
      }
    }
  }

  /** Running the handler over two runs of values is running it over their concatenation. */
  lemma {:induction false} HandleAllConcat(st: HandlerState, es: seq<Option<SignEvent>>, fs: seq<Option<SignEvent>>)
    ensures HandleAll(st, es + fs) == HandleAll(HandleAll(st, es), fs)
    decreases |es|
  {
    if es == [] {
      assert es + fs == fs;
    } else {
      assert (es + fs)[0] == es[0];
      assert (es + fs)[1..] == es[1..] + fs;
      HandleAllConcat(Handle(st, es[0]), es[1..], fs);
    }
  }

  /** Pushing outcomes never yields a null value, and every pushed outcome is counted once
      among the successes or the failures. */
  lemma {:induction false} PushedOutcomes(es: seq<SignEvent>)
    ensures |Successes(Pushed(es))| + |Failures(Pushed(es))| == |es|
    ensures (Successes(Pushed(es)) == [] && Failures(Pushed(es)) == []) <==> es == []
    decreases |es|
  {
    if es != [] {
      assert Pushed(es)[1..] == Pushed(es[1..]);
      PushedOutcomes(es[1..]);
    }
  }
}
