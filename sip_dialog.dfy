/**
 * The dialog-state and sequence-number rules of the JAIN-SIP dialog
 * (section 12 of RFC 3261): local and remote CSeq numbers, the route set
 * (sections 12.1.1 and 12.1.2), the state machine driven by responses
 * (section 12.3 for termination), the 2xx retransmission interval
 * (section 13.3.1.4), the ACK guards and the BYE rules of sendRequest.
 * The stack's answers (isDialogCreated, loose validation, RFC 2543
 * support, tag re-assignment) and the transaction kind are parameters.
 */
module DialogSpec {
  import opened Wrappers
  import opened JavaText

  /** The dialog states; `NullState` is the not-yet-initialised -1. */
  datatype DState = NullState | Early | Confirmed | Terminated

  /** The int codes: NULL_STATE is -1, below EARLY_STATE, as the server branch relies on. */
  function Value(s: DState): (v: int)
    ensures (v <= 0) <==> (s == NullState || s == Early)
  {
    match s
    case NullState => -1
    case Early => 0
    case Confirmed => 1
    case Terminated => 3
  }

  datatype Dialog = Dialog(
    creator: string,           // the method that created the dialog (getMethod())
    client: bool,              // created by a client transaction: both isClientDialog() and !isServer(),
                               // which differ only for a dialog without a first transaction
    localSeq: int,
    remoteSeq: int,
    state: DState,
    byeSent: bool,
    terminateOnBye: bool,
    lastInviteOk: bool,        // lastInviteOkReceived
    terminatedDelivered: bool, // dialogTerminatedEventDelivered
    ticksLeft: int,            // retransmissionTicksLeft
    prevTicks: int,            // prevRetransmissionTicks
    routes: seq<string>,       // the route set, as addresses
    remoteTag: Option<string>,
    localTag: Option<string>)

  /** The private constructor's defaults, for a dialog created by `method`. */
  function Initial(creator: string, client: bool): (d: Dialog)
    ensures d.state == NullState && d.localSeq == 0 && d.remoteSeq == -1 && d.terminateOnBye
    ensures d.routes == [] && !d.byeSent && !d.lastInviteOk && !d.terminatedDelivered
  {
    Dialog(creator, client, 0, -1, NullState, false, true, false, false, 0, 0, [], None, None)
  }

  /** What the SIP stack answers, taken as given. */
  datatype Stack = Stack(
    dialogCreated: bool,       // isDialogCreated(cseqMethod)
    rfc2543: bool,             // rfc2543Supported
    reassignAllowed: bool,     // isRemoteTagReassignmentAllowed()
    reInvite: bool)            // the dialog's isReInvite()

  /** The transaction a response arrives on: none (a forked response), a client one, or a server one. */
  datatype Tx = NoTx | ClientTx | ServerTx

  datatype Response = Response(
    code: int,
    cseqMethod: string,
    toTag: Option<string>,
    recordRoutes: Option<seq<string>>)

  /** Java's `statusCode / 100`, truncating toward zero. */
  function Class(code: int): int
  {
    if code >= 0 then code / 100 else -((-code) / 100)
  }

  // ---------------------------------------------------------------------
  // Sequence numbers
  // ---------------------------------------------------------------------

  /** setLocalSequenceNumber: `None` (a RuntimeException) unless the number grows. */
  function SetLocalSequenceNumber(d: Dialog, n: int): (r: Option<Dialog>)
    ensures r.Some? <==> n > d.localSeq
    ensures r.Some? ==> r.value == d.(localSeq := n)
  {
    if n <= d.localSeq then None else Some(d.(localSeq := n))
  }

  /** isRequestConsumable: `None` (a RuntimeException) for ACK; loose validation accepts all. */
  function IsRequestConsumable(d: Dialog, verb: string, cseq: int, loose: bool): Option<bool>
  {
    if verb == "ACK" then None
    else if loose then Some(true)
    else Some(d.remoteSeq < cseq)
  }

  // ---------------------------------------------------------------------
  // The 2xx retransmission interval
  // ---------------------------------------------------------------------

  function SetRetransmissionTicks(d: Dialog): Dialog
  {
    d.(ticksLeft := 1, prevTicks := 1)
  }

  /** toRetransmitFinalResponse(T2) on Java ints: the new dialog and whether to retransmit now. */
  function ToRetransmit(d: Dialog, t2: int): (Dialog, bool)
  {
    var left := Wrap32(d.ticksLeft - 1);
    if left != 0 then (d.(ticksLeft := left), false)
    else
      var doubled := Wrap32(2 * d.prevTicks);
      var next := if doubled <= t2 then doubled else d.prevTicks;
      (d.(ticksLeft := next, prevTicks := next), true)
  }

  predicate IsPowerOfTwo(n: int)
    decreases if n < 0 then 0 else n
  {
    n == 1 || (n > 1 && n % 2 == 0 && IsPowerOfTwo(n / 2))
  }

  /** The countdown between two retransmissions, an interval that doubles up to T2. */
  predicate Retransmitting(d: Dialog, t2: int)
  {
    && 1 <= d.ticksLeft <= d.prevTicks
    && IsPowerOfTwo(d.prevTicks)
    && (d.prevTicks == 1 || d.prevTicks <= t2)
  }

  /** The number of ticks `ToRetransmit` takes from `d` to its next retransmission. */
  function TicksUntil(d: Dialog, t2: int, k: nat): (Dialog, nat)
    decreases k
  {
    if k == 0 then (d, 0)
    else
      var step := ToRetransmit(d, t2);
      if step.1 then (step.0, 1) else TicksUntil(step.0, t2, k - 1)
  }

  // ---------------------------------------------------------------------
  // ACK, the terminated event, sending requests
  // ---------------------------------------------------------------------

  datatype AckError = NotInviteDialog | BadCSeq | NoRemoteTarget | NotEstablished

  /** createAck's guards, in order; success consumes the recorded 2xx to the INVITE. */
  function CreateAck(d: Dialog, cseq: int, hasRemoteTarget: bool): (r: (Dialog, Option<AckError>))
  {
    if d.creator != "INVITE" then (d, Some(NotInviteDialog))
    else if cseq <= 0 || cseq > 0x1_0000_0000 - 1 then (d, Some(BadCSeq))
    else if !hasRemoteTarget then (d, Some(NoRemoteTarget))
    else if !d.lastInviteOk then (d, Some(NotEstablished))
    else (d.(lastInviteOk := false), None)
  }

  function TestAndSetTerminatedDelivered(d: Dialog): (Dialog, bool)
  {
    (d.(terminatedDelivered := true), d.terminatedDelivered)
  }

  datatype SendError =
    | BadMethod               // ACK or CANCEL
    | ByeAlreadySent
    | BadCallId               // the request's Call-ID is not the dialog's
    | FromTagMismatch         // the caller's From tag is not the local tag
    | NotifyWithoutSubscribe  // a NOTIFY before the local tag, on a dialog not made by SUBSCRIBE
    | SendFailed              // the IOException of sending

  /** What sendRequest reads of the request: its method, whether its Call-ID is the dialog's, its From tag. */
  datatype OutRequest = OutRequest(verb: string, sameCallId: bool, fromTag: Option<string>)

  /**
   * sendRequest's checks and CSeq and BYE rules: ACK and CANCEL refused;
   * after a BYE on a terminate-on-BYE dialog only BYE; the Call-ID and the
   * From tag checked; a NOTIFY before the local tag only on a SUBSCRIBE
   * dialog, which then takes the From tag as its local tag; the local CSeq
   * incremented before it is stamped (and kept even when sending then
   * fails); a BYE sent ends such a dialog. Returns the dialog, the CSeq
   * stamped (if any) and the error.
   */
  function SendRequest(d: Dialog, q: OutRequest, ioFails: bool): (r: (Dialog, Option<int>, Option<SendError>))
  {
    if q.verb == "ACK" || q.verb == "CANCEL" then (d, None, Some(BadMethod))
    else if d.byeSent && d.terminateOnBye && q.verb != "BYE" then (d, None, Some(ByeAlreadySent))
    else if !q.sameCallId then (d, None, Some(BadCallId))
    else if d.localTag.Some? && q.fromTag.Some? && q.fromTag != d.localTag then (d, None, Some(FromTagMismatch))
    else if d.localTag.None? && q.verb == "NOTIFY" && d.creator != "SUBSCRIBE" then
      (d, None, Some(NotifyWithoutSubscribe))
    else
      var d0 := if d.localTag.None? && q.verb == "NOTIFY" then d.(localTag := q.fromTag) else d;
      var d1 := d0.(localSeq := d0.localSeq + 1);
      if ioFails then (d1, Some(d1.localSeq), Some(SendFailed))
      else if q.verb == "BYE" then
        (d1.(byeSent := true, state := if d.terminateOnBye then Terminated else d.state), Some(d1.localSeq), None)
      else (d1, Some(d1.localSeq), None)
  }

  // ---------------------------------------------------------------------
  // The route set
  // ---------------------------------------------------------------------

  function Reverse<T>(s: seq<T>): (r: seq<T>)
    ensures |r| == |s| && forall i :: 0 <= i < |s| ==> r[i] == s[|s| - 1 - i]
  {
    if |s| == 0 then [] else [s[|s| - 1]] + Reverse(s[..|s| - 1])
  }

  /** addRoute(RecordRouteList): reversed for a client dialog, in order for a server dialog. */
  function RouteSet(recordRoutes: seq<string>, client: bool): seq<string>
  {
    if client then Reverse(recordRoutes) else recordRoutes
  }

  /** addRoute(SIPResponse): nothing once confirmed or terminated or on a server dialog. */
  function AddRouteFrom(d: Dialog, r: Response): Dialog
  {
    if r.code == 100 || d.state == Terminated || d.state == Confirmed || !d.client then d
    else d.(routes := if r.recordRoutes.Some? then RouteSet(r.recordRoutes.value, true) else [])
  }

  /** setRemoteTag: a different tag replaces the old one only in EARLY when the stack allows it. */
  function SetRemoteTag(d: Dialog, tag: Option<string>, st: Stack): Dialog
  {
    if d.remoteTag.Some? && tag.Some? && tag != d.remoteTag then
      if d.state != Early then d
      else if st.reassignAllowed then d.(remoteTag := tag)
      else d
    else if tag.Some? then d.(remoteTag := tag)
    else d
  }

  // ---------------------------------------------------------------------
  // setLastResponse
  // ---------------------------------------------------------------------

  predicate Tagged(r: Response, st: Stack)
  {
    r.toTag.Some? || st.rfc2543
  }

  /** The remote tag and the route set taken from a response. */
  function Adopt(d: Dialog, r: Response, st: Stack): Dialog
  {
    AddRouteFrom(SetRemoteTag(d, r.toTag, st), r)
  }

  /** A response on a client transaction to a dialog-creating method. */
  function ClientCreating(d: Dialog, tx: Tx, r: Response, st: Stack): Dialog
  {
    if d.state == NullState && Class(r.code) == 1 then
      var d1 := d.(state := Early);
      if Tagged(r, st) && d.remoteTag.None? then Adopt(d1, r, st) else d1
    else if d.state == Early && Class(r.code) == 1 then
      if r.cseqMethod == d.creator && tx != NoTx && Tagged(r, st) then Adopt(d, r, st) else d
    else if Class(r.code) == 2 then
      var d1 := if r.cseqMethod == d.creator && Tagged(r, st) && d.state != Confirmed
                then Adopt(d, r, st).(state := Confirmed) else d;
      if r.cseqMethod == "INVITE" then d1.(lastInviteOk := true) else d1
    else if 300 <= r.code <= 699 && (d.state == NullState || (r.cseqMethod == d.creator && d.state == Early)) then
      d.(state := Terminated)
    else d
  }

  function ClientResponse(d: Dialog, tx: Tx, r: Response, st: Stack): Dialog
  {
    if st.dialogCreated then ClientCreating(d, tx, r, st)
    else if r.cseqMethod == "NOTIFY" && (d.creator == "SUBSCRIBE" || d.creator == "REFER")
            && Class(r.code) == 2 && d.state == NullState then
      d.(state := Confirmed)
    else if r.cseqMethod == "BYE" && Class(r.code) == 2 && d.terminateOnBye then
      d.(state := Terminated)
    else d
  }

  function ServerResponse(d: Dialog, r: Response, st: Stack): Dialog
  {
    if r.cseqMethod == "BYE" && Class(r.code) == 2 && d.terminateOnBye then d.(state := Terminated)
    else
      var put := d.localTag.None? && r.toTag.Some? && st.dialogCreated && r.cseqMethod == d.creator;
      var d1 := if put then d.(localTag := r.toTag) else d;
      if Class(r.code) != 2 then
        if Class(r.code) == 1 then (if put then d1.(state := Early) else d1)
        else if r.code == 489 && (r.cseqMethod == "NOTIFY" || r.cseqMethod == "SUBSCRIBE") then d1
        else if !st.reInvite && d1.state != Confirmed then d1.(state := Terminated)
        else d1
      else if Value(d1.state) <= Value(Early) && r.cseqMethod in {"INVITE", "SUBSCRIBE", "REFER"} then
        d1.(state := Confirmed)
      else d1
  }

  /** setLastResponse: a 100 and anything reaching a terminated dialog are ignored. */
  function SetLastResponse(d: Dialog, tx: Tx, r: Response, st: Stack): Dialog
  {
    if r.code == 100 || d.state == Terminated then d
    else if tx != ServerTx then ClientResponse(d, tx, r, st)
    else ServerResponse(d, r, st)
  }

  // ---------------------------------------------------------------------
  // Properties
  // ---------------------------------------------------------------------

  /** The local CSeq never decreases: a refused number leaves it, an accepted one raises it. */
  lemma LocalSeqGrows(d: Dialog, n: int, q: OutRequest, ioFails: bool)
    ensures SetLocalSequenceNumber(d, n).Some? ==> SetLocalSequenceNumber(d, n).value.localSeq > d.localSeq
    ensures SendRequest(d, q, ioFails).0.localSeq >= d.localSeq
    ensures SendRequest(d, q, ioFails).1.Some? ==>
      SendRequest(d, q, ioFails).1.value == d.localSeq + 1 == SendRequest(d, q, ioFails).0.localSeq
    ensures SendRequest(d, q, ioFails).1.None? ==> SendRequest(d, q, ioFails).0 == d
  {
  }

  /** Requests after the last remote CSeq are consumable; a fresh dialog (-1) consumes any CSeq from 0. */
  lemma ConsumableAfterRemote(d: Dialog, verb: string, cseq: int)
    requires verb != "ACK"
    ensures IsRequestConsumable(d, verb, cseq, false) == Some(d.remoteSeq < cseq)
    ensures IsRequestConsumable(d, verb, cseq, true) == Some(true)
    ensures IsRequestConsumable(d, "ACK", cseq, true).None?
    ensures d.remoteSeq == -1 && cseq >= 0 ==> IsRequestConsumable(d, verb, cseq, false) == Some(true)
  {
  }

  lemma PowerOfTwoDoubles(n: int)
    requires IsPowerOfTwo(n)
    ensures n >= 1 && IsPowerOfTwo(2 * n)
  {
    assert (2 * n) / 2 == n;
  }

  /**
   * The countdown keeps its shape: after the reset and any tick, the
   * interval is a power of two that exceeds T2 only while it is 1, and a
   * tick retransmits exactly when the counter reaches 0.
   */
  lemma RetransmitStep(d: Dialog, t2: int)
    requires Retransmitting(d, t2) && t2 < 0x4000_0000
    ensures Retransmitting(ToRetransmit(d, t2).0, t2)
    ensures ToRetransmit(d, t2).1 <==> d.ticksLeft == 1
    ensures ToRetransmit(d, t2).1 ==>
      ToRetransmit(d, t2).0.prevTicks == (if 2 * d.prevTicks <= t2 then 2 * d.prevTicks else d.prevTicks)
  {
    PowerOfTwoDoubles(d.prevTicks);
    assert IsInt32(d.ticksLeft - 1);
    if d.ticksLeft == 1 {
      assert IsInt32(2 * d.prevTicks);
    }
  }

  /** With T2 at 2^30 ticks or more the doubled interval wraps to a negative Java int. */
  lemma IntervalWrapsAtHugeT2(d: Dialog)
    requires d.ticksLeft == 1 && d.prevTicks == 0x4000_0000
    ensures ToRetransmit(d, 0x4000_0000).0.ticksLeft == IntMin
  {
  }

  lemma ResetStartsCountdown(d: Dialog, t2: int)
    ensures Retransmitting(SetRetransmissionTicks(d), t2)
    ensures ToRetransmit(SetRetransmissionTicks(d), t2).1
  {
  }

  /** From a countdown with `ticksLeft` ticks to go, the next retransmission comes after exactly that many. */
  lemma {:induction false} RetransmitsAfterTicksLeft(d: Dialog, t2: int, k: nat)
    requires Retransmitting(d, t2) && t2 < 0x4000_0000 && k >= d.ticksLeft
    ensures TicksUntil(d, t2, k).1 == 1
    ensures Retransmitting(TicksUntil(d, t2, k).0, t2)
    decreases k
  {
    RetransmitStep(d, t2);
    var step := ToRetransmit(d, t2);
    if !step.1 {
      assert step.0.ticksLeft == d.ticksLeft - 1 by {
        assert Wrap32(d.ticksLeft - 1) == d.ticksLeft - 1;
      }
      RetransmitsAfterTicksLeft(step.0, t2, k - 1);
    }
  }

  /** createAck needs a 2xx to the INVITE since the last ACK: a second ACK without one is refused. */
  lemma AckConsumesOk(d: Dialog, c1: int, c2: int)
    requires d.creator == "INVITE" && d.lastInviteOk && 1 <= c1 < 0x1_0000_0000 && 1 <= c2 < 0x1_0000_0000
    ensures CreateAck(d, c1, true).1.None?
    ensures CreateAck(CreateAck(d, c1, true).0, c2, true).1 == Some(NotEstablished)
    ensures CreateAck(d, 0, true).1 == Some(BadCSeq) && CreateAck(d, 0x1_0000_0000, true).1 == Some(BadCSeq)
  {
  }

  /** The terminated event is reported at most once: only the first test-and-set answers false. */
  lemma TerminatedEventOnce(d: Dialog)
    ensures TestAndSetTerminatedDelivered(TestAndSetTerminatedDelivered(d).0).1
    ensures TestAndSetTerminatedDelivered(d).0.terminatedDelivered
  {
  }

  /** On a terminate-on-BYE dialog, after a BYE went out only BYE can be sent, and the dialog is ended. */
  lemma OnlyByeAfterBye(d: Dialog, q: OutRequest, f: bool)
    requires d.terminateOnBye
    ensures var d1 := SendRequest(d, OutRequest("BYE", true, None), false).0;
      && d1.byeSent && d1.state == Terminated
      && (q.verb != "BYE" ==> SendRequest(d1, q, f).2.Some? && SendRequest(d1, q, f).0 == d1)
  {
  }

  /**
   * A NOTIFY sent before the dialog has a local tag is refused, with nothing
   * changed, unless SUBSCRIBE made the dialog; then the NOTIFY's From tag
   * becomes the local tag and the request gets the next CSeq.
   */
  lemma NotifyNeedsSubscribe(d: Dialog, fromTag: Option<string>, f: bool)
    requires d.localTag.None? && !(d.byeSent && d.terminateOnBye)
    ensures var r := SendRequest(d, OutRequest("NOTIFY", true, fromTag), f);
      && (d.creator != "SUBSCRIBE" ==> r == (d, None, Some(NotifyWithoutSubscribe)))
      && (d.creator == "SUBSCRIBE" ==> r.0.localTag == fromTag && r.1 == Some(d.localSeq + 1))
  {
  }

  /** Once the dialog has a local tag, a request carrying a From tag is refused exactly when the tags differ. */
  lemma FromTagChecked(d: Dialog, q: OutRequest, f: bool)
    requires q.verb != "ACK" && q.verb != "CANCEL" && !(d.byeSent && d.terminateOnBye)
    requires q.sameCallId && d.localTag.Some? && q.fromTag.Some?
    ensures SendRequest(d, q, f).2 == Some(FromTagMismatch) <==> q.fromTag != d.localTag
    ensures SendRequest(d, q, f).1.Some? <==> q.fromTag == d.localTag
  {
  }

  /** The client dialog's route set is the Record-Route list reversed; the server's keeps its order. */
  lemma RouteSetOrder(rr: seq<string>)
    ensures RouteSet(rr, true) == Reverse(rr) && RouteSet(rr, false) == rr
    ensures Reverse(RouteSet(rr, true)) == rr
  {
    var r2 := Reverse(Reverse(rr));
    assert |r2| == |rr|;
    assert forall i :: 0 <= i < |rr| ==> r2[i] == rr[i];
  }

  /** A 100, and every response to a terminated dialog, leave the dialog as it was. */
  lemma IgnoredResponses(d: Dialog, tx: Tx, r: Response, st: Stack)
    requires r.code == 100 || d.state == Terminated
    ensures SetLastResponse(d, tx, r, st) == d
  {
  }

  /** On a client transaction for a dialog-creating method, the state moves as section 12 describes. */
  lemma ClientTransitions(d: Dialog, tx: Tx, r: Response, st: Stack)
    requires tx != ServerTx && st.dialogCreated && r.code != 100 && d.state != Terminated
    ensures d.state == NullState && Class(r.code) == 1 ==> SetLastResponse(d, tx, r, st).state == Early
    ensures Class(r.code) == 2 && r.cseqMethod == d.creator && Tagged(r, st) ==>
      SetLastResponse(d, tx, r, st).state == Confirmed
    ensures 300 <= r.code <= 699 && (d.state == NullState || (d.state == Early && r.cseqMethod == d.creator)) ==>
      SetLastResponse(d, tx, r, st).state == Terminated
    ensures Class(r.code) == 2 && r.cseqMethod == "INVITE" ==> SetLastResponse(d, tx, r, st).lastInviteOk
  {
    if d.state == NullState && Class(r.code) == 1 {
    } else if Class(r.code) == 2 {
      if r.cseqMethod == d.creator && Tagged(r, st) && d.state != Confirmed {
        AdoptKeepsState(d, r, st);
      }
    }
  }

  lemma AdoptKeepsState(d: Dialog, r: Response, st: Stack)
    ensures Adopt(d, r, st).state == d.state && Adopt(d, r, st).lastInviteOk == d.lastInviteOk
  {
  }

  /** A client dialog, once confirmed, never slips back: it stays confirmed or terminates. */
  lemma ConfirmedStaysConfirmed(d: Dialog, tx: Tx, r: Response, st: Stack)
    requires d.state == Confirmed && tx != ServerTx
    ensures SetLastResponse(d, tx, r, st).state in {Confirmed, Terminated}
  {
  }

  /** A terminated dialog is final: no sequence of responses revives it. */
  lemma {:induction false} TerminatedIsFinal(d: Dialog, rs: seq<(Tx, Response)>, st: Stack)
    requires d.state == Terminated
    ensures Replay(d, rs, st) == d
  {
    if |rs| > 0 {
      TerminatedIsFinal(d, rs[..|rs| - 1], st);
    }
  }

  function Replay(d: Dialog, rs: seq<(Tx, Response)>, st: Stack): Dialog
  {
    if |rs| == 0 then d
    else
      var (tx, r) := rs[|rs| - 1];
      SetLastResponse(Replay(d, rs[..|rs| - 1], st), tx, r, st)
  }

  /** The server side: a 2xx to INVITE confirms a null or early dialog, which -1 < 0 makes possible. */
  lemma ServerConfirmsOnInviteOk(d: Dialog, r: Response, st: Stack)
    requires d.state in {NullState, Early} && Class(r.code) == 2 && r.cseqMethod == "INVITE"
    ensures SetLastResponse(d, ServerTx, r, st).state == Confirmed
  {
  }
}

/**
 * The SIPDialog object: its counters, flags, state and route list are
 * updated in place, each method leaving it as the DialogSpec function
 * computes.
 */
module Dialogs {
  import opened Wrappers
  import opened JavaText
  import opened DialogSpec

  class SipDialog {
    const creator: string
    const client: bool
    var localSeq: int
    var remoteSeq: int
    var state: DState
    var byeSent: bool
    var terminateOnBye: bool
    var lastInviteOk: bool
    var terminatedDelivered: bool
    var ticksLeft: int
    var prevTicks: int
    var routes: seq<string>
    var remoteTag: Option<string>
    var localTag: Option<string>

    function Snap(): Dialog
      reads this
    {
      Dialog(creator, client, localSeq, remoteSeq, state, byeSent, terminateOnBye, lastInviteOk,
             terminatedDelivered, ticksLeft, prevTicks, routes, remoteTag, localTag)
    }

    constructor (m: string, isClient: bool)
      ensures Snap() == DialogSpec.Initial(m, isClient)
    {
      creator := m;
      client := isClient;
      terminateOnBye := true;
      routes := [];
      state := NullState;
      localSeq := 0;
      remoteSeq := -1;
      byeSent := false;
      lastInviteOk := false;
      terminatedDelivered := false;
      ticksLeft := 0;
      prevTicks := 0;
      remoteTag := None;
      localTag := None;
    }

    /** `ok` is false where the source throws "Sequence number should not decrease". */
    method SetLocalSequenceNumber(n: int) returns (ok: bool)
      modifies this
      ensures ok <==> DialogSpec.SetLocalSequenceNumber(old(Snap()), n).Some?
      ensures Snap() == (if ok then DialogSpec.SetLocalSequenceNumber(old(Snap()), n).value else old(Snap()))
    {
      if n <= localSeq {
        return false;
      }
      localSeq := n;
      ok := true;
    }

    method SetRemoteSequenceNumber(n: int)
      modifies this
      ensures Snap() == old(Snap()).(remoteSeq := n)
    {
      remoteSeq := n;
    }

    method IncrementLocalSequenceNumber()
      modifies this
      ensures Snap() == old(Snap()).(localSeq := old(localSeq) + 1)
    {
      localSeq := localSeq + 1;
    }

    method IsRequestConsumable(verb: string, cseq: int, loose: bool) returns (r: Option<bool>)
      ensures r == DialogSpec.IsRequestConsumable(Snap(), verb, cseq, loose)
    {
      if verb == "ACK" {
        return None;
      }
      if loose {
        return Some(true);
      }
      r := Some(remoteSeq < cseq);
    }

    method SetRetransmissionTicks()
      modifies this
      ensures Snap() == DialogSpec.SetRetransmissionTicks(old(Snap()))
    {
      ticksLeft := 1;
      prevTicks := 1;
    }

    method ToRetransmitFinalResponse(t2: int) returns (b: bool)
      modifies this
      ensures (Snap(), b) == ToRetransmit(old(Snap()), t2)
    {
      ticksLeft := Wrap32(ticksLeft - 1);
      if ticksLeft == 0 {
        if Wrap32(2 * prevTicks) <= t2 {
          ticksLeft := Wrap32(2 * prevTicks);
        } else {
          ticksLeft := prevTicks;
        }
        prevTicks := ticksLeft;
        return true;
      }
      b := false;
    }

    method CreateAck(cseq: int, hasRemoteTarget: bool) returns (err: Option<AckError>)
      modifies this
      ensures (Snap(), err) == DialogSpec.CreateAck(old(Snap()), cseq, hasRemoteTarget)
    {
      if creator != "INVITE" {
        return Some(NotInviteDialog);
      }
      if cseq <= 0 || cseq > 0x1_0000_0000 - 1 {
        return Some(BadCSeq);
      }
      if !hasRemoteTarget {
        return Some(NoRemoteTarget);
      }
      if !lastInviteOk {
        return Some(NotEstablished);
      }
      lastInviteOk := false;
      err := None;
    }

    method TestAndSetTerminatedDelivered() returns (was: bool)
      modifies this
      ensures (Snap(), was) == DialogSpec.TestAndSetTerminatedDelivered(old(Snap()))
    {
      was := terminatedDelivered;
      terminatedDelivered := true;
    }

    method SendRequest(q: OutRequest, ioFails: bool) returns (cseq: Option<int>, err: Option<SendError>)
      modifies this
      ensures (Snap(), cseq, err) == DialogSpec.SendRequest(old(Snap()), q, ioFails)
    {
      if q.verb == "ACK" || q.verb == "CANCEL" {
        return None, Some(BadMethod);
      }
      if byeSent && terminateOnBye && q.verb != "BYE" {
        return None, Some(ByeAlreadySent);
      }
      if !q.sameCallId {
        return None, Some(BadCallId);
      }
      if localTag.Some? && q.fromTag.Some? && q.fromTag != localTag {
        return None, Some(FromTagMismatch);
      }
      if localTag.None? && q.verb == "NOTIFY" {
        if creator != "SUBSCRIBE" {
          return None, Some(NotifyWithoutSubscribe);
        }
        localTag := q.fromTag;
      }
      localSeq := localSeq + 1;
      cseq := Some(localSeq);
      if ioFails {
        return cseq, Some(SendFailed);
      }
      if q.verb == "BYE" {
        byeSent := true;
        if terminateOnBye {
          state := Terminated;
        }
      }
      err := None;
    }

    /** addRoute(RecordRouteList): the route list rebuilt by walking the Record-Route list. */
    method AddRoute(recordRoutes: seq<string>)
      modifies this
      ensures Snap() == old(Snap()).(routes := RouteSet(recordRoutes, client))
    {
      var list: seq<string> := [];
      if client {
        var i := |recordRoutes|;
        while i > 0
          invariant 0 <= i <= |recordRoutes|
          invariant list == Reverse(recordRoutes[i..])
        {
          i := i - 1;
          assert recordRoutes[i..][1..] == recordRoutes[i + 1..];
          list := list + [recordRoutes[i]];
        }
        assert recordRoutes[0..] == recordRoutes;
      } else {
        var i := 0;
        while i < |recordRoutes|
          invariant 0 <= i <= |recordRoutes|
          invariant list == recordRoutes[..i]
        {
          list := list + [recordRoutes[i]];
          i := i + 1;
        }
        assert recordRoutes[..|recordRoutes|] == recordRoutes;
      }
      routes := list;
    }

    method AddRouteFrom(r: Response)
      modifies this
      ensures Snap() == DialogSpec.AddRouteFrom(old(Snap()), r)
    {
      if r.code == 100 || state == Terminated || state == Confirmed || !client {
        return;
      }
      if r.recordRoutes.Some? {
        AddRoute(r.recordRoutes.value);
      } else {
        routes := [];
      }
    }

    method SetRemoteTag(tag: Option<string>, st: Stack)
      modifies this
      ensures Snap() == DialogSpec.SetRemoteTag(old(Snap()), tag, st)
    {
      if remoteTag.Some? && tag.Some? && tag != remoteTag {
        if state == Early && st.reassignAllowed {
          remoteTag := tag;
        }
      } else if tag.Some? {
        remoteTag := tag;
      }
    }

    method Adopt(r: Response, st: Stack)
      modifies this
      ensures Snap() == DialogSpec.Adopt(old(Snap()), r, st)
    {
      SetRemoteTag(r.toTag, st);
      AddRouteFrom(r);
    }

    method ClientCreating(tx: Tx, r: Response, st: Stack)
      modifies this
      ensures Snap() == DialogSpec.ClientCreating(old(Snap()), tx, r, st)
    {
      if state == NullState && Class(r.code) == 1 {
        var untagged := remoteTag.None?;
        state := Early;
        if Tagged(r, st) && untagged {
          Adopt(r, st);
        }
      } else if state == Early && Class(r.code) == 1 {
        if r.cseqMethod == creator && tx != NoTx && Tagged(r, st) {
          Adopt(r, st);
        }
      } else if Class(r.code) == 2 {
        ConfirmOn2xx(r, st);
      } else if 300 <= r.code <= 699 && (state == NullState || (r.cseqMethod == creator && state == Early)) {
        state := Terminated;
      }
    }

    method ConfirmOn2xx(r: Response, st: Stack)
      modifies this
      ensures var d := old(Snap());
        var d1 := if r.cseqMethod == d.creator && Tagged(r, st) && d.state != Confirmed
                  then DialogSpec.Adopt(d, r, st).(state := Confirmed) else d;
        Snap() == if r.cseqMethod == "INVITE" then d1.(lastInviteOk := true) else d1
    {
      if r.cseqMethod == creator && Tagged(r, st) && state != Confirmed {
        Adopt(r, st);
        state := Confirmed;
      }
      if r.cseqMethod == "INVITE" {
        lastInviteOk := true;
      }
    }

    method ClientResponse(tx: Tx, r: Response, st: Stack)
      modifies this
      ensures Snap() == DialogSpec.ClientResponse(old(Snap()), tx, r, st)
    {
      if st.dialogCreated {
        ClientCreating(tx, r, st);
      } else if r.cseqMethod == "NOTIFY" && (creator == "SUBSCRIBE" || creator == "REFER")
                && Class(r.code) == 2 && state == NullState {
        state := Confirmed;
      } else if r.cseqMethod == "BYE" && Class(r.code) == 2 && terminateOnBye {
        state := Terminated;
      }
    }

    method ServerResponse(r: Response, st: Stack)
      modifies this
      ensures Snap() == DialogSpec.ServerResponse(old(Snap()), r, st)
    {
      if r.cseqMethod == "BYE" && Class(r.code) == 2 && terminateOnBye {
        state := Terminated;
        return;
      }
      var put := localTag.None? && r.toTag.Some? && st.dialogCreated && r.cseqMethod == creator;
      if put {
        localTag := r.toTag;
      }
      if Class(r.code) != 2 {
        if Class(r.code) == 1 {
          if put {
            state := Early;
          }
        } else if r.code == 489 && (r.cseqMethod == "NOTIFY" || r.cseqMethod == "SUBSCRIBE") {
        } else if !st.reInvite && state != Confirmed {
          state := Terminated;
        }
      } else if Value(state) <= Value(Early) && r.cseqMethod in {"INVITE", "SUBSCRIBE", "REFER"} {
        state := Confirmed;
      }
    }

    method SetLastResponse(tx: Tx, r: Response, st: Stack)
      modifies this
      ensures Snap() == DialogSpec.SetLastResponse(old(Snap()), tx, r, st)
    {
      if r.code == 100 || state == Terminated {
        return;
      }
      if tx != ServerTx {
        ClientResponse(tx, r, st);
      } else {
        ServerResponse(r, st);
      }
    }
  }
}
