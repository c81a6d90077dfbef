/**
 * The call-policy layer on top of the protocol wizard: the guard that lets
 * one call start at a time, the choice between a test call and a real call,
 * and the routing of caption-session states to the application, including
 * the SIP handler's outcomes. What it asks of the wizard (its superclass),
 * the SIP handler and the application's interface is appended to a log.
 */
module CaptionsSpec {
  import opened CaptionState

  /** The fixed text the application is shown when the SIP session fails. */
  const ErrorText := "Whoops, something went wrong. Tap \"Captions\" to resume service."

  datatype Action =
    | Recorded(state: State, msg: string)          // recordEvent(""+state, msg)
    | Forwarded(forwarded: State, msg: string)     // ci.processState(state, msg)
    | ForwardedError(code: string, msg: string)    // ci.processError(code, msg)
    | HandlerCreated                               // new SIPHandler(this)
    | HandlerProfile                               // sipHandler.initializeLocalProfile()
    | HandlerInitiate(uri: string)                 // sipHandler.initiateCall(uri)
    | HandlerEndCall                               // sipHandler.endCall()
    | WizardStartCall                              // super.startCall()
    | WizardTestCall                               // super.testCall()
    | WizardEndCall                                // super.endCall()
    | WizardEndTestCall                            // super.endTestCall()

  datatype Policy = Policy(
    test: bool,      // bTest
    started: bool,   // inCall, read through callStarted()
    failed: bool,    // callFailed
    handler: bool,   // sipHandler != null
    voip: bool,      // the static ISVOIP
    log: seq<Action>)

  function Initial(): (c: Policy)
    ensures !c.test && !c.started && !c.failed && !c.handler && c.log == []
  {
    Policy(false, false, false, false, false, [])
  }

  function Do(c: Policy, a: Action): Policy
  {
    c.(log := c.log + [a])
  }

  /** A SIP handler left from an earlier call, ended and dropped. */
  function DropHandler(c: Policy): Policy
  {
    if c.handler then Do(c, HandlerEndCall).(handler := false) else c
  }

  /** endCall(): the SIP handler ended and dropped, the wizard's call ended, the guard released. */
  function EndCall(c: Policy): Policy
  {
    Do(DropHandler(c), WizardEndCall).(started := false)
  }

  /** doCall(test): nothing while a call is started; otherwise the guard taken and the call begun. */
  function DoCall(c: Policy, test: bool): Policy
  {
    if c.started then c
    else Do(DropHandler(c.(started := true)), if test then WizardTestCall else WizardStartCall)
  }

  function StartCall(c: Policy): Policy
  {
    DoCall(c.(test := false, failed := false), false)
  }

  function TestCall(c: Policy): Policy
  {
    DoCall(c.(test := true), true)
  }

  /** SIPREMOTE: the SIP call set up on the URI `msg`, only for a started call that is not VoIP. */
  function StartSip(c: Policy, msg: string): Policy
  {
    if c.voip || !c.started then c
    else
      var c1 := if c.handler then c else Do(Do(c, Recorded(SipRemote, msg)), HandlerCreated).(handler := true);
      Do(Do(c1, HandlerProfile), HandlerInitiate(msg))
  }

  /** SESSION_SIP_ESTABLISHED: forwarded; a test call ends, a real call goes ONLINE with the operator's id. */
  function SipEstablished(c: Policy, msg: string, opID: string): Policy
  {
    var c1 := Do(Do(c, Recorded(SessionSipEstablished, msg)), Forwarded(SessionSipEstablished, msg));
    if c.test then Do(c1, WizardEndTestCall) else Do(c1, Forwarded(Online, opID))
  }

  /** SESSION_SIP_FAILED: the call marked failed, the fixed text forwarded, then the test or the call ended. */
  function SipFailed(c: Policy, msg: string): Policy
  {
    var c1 := Do(Do(c.(failed := true), Recorded(SessionSipFailed, msg)), Forwarded(SessionSipFailed, ErrorText));
    if c.test then Do(c1, WizardEndTestCall) else EndCall(c1)
  }

  /** The states that release the call guard before they are forwarded. */
  predicate Releases(s: State)
  {
    s in {CancelCall, ConnectFailed, ConnectionLost, DeviceFailed, Error, RegisterFailed}
  }

  function Release(c: Policy, s: State, msg: string): Policy
  {
    Do(c.(started := false), Forwarded(s, msg))
  }

  /** CALL_ENDED: the call ended; after a failure nothing more, otherwise released and forwarded. */
  function CallEndedState(c: Policy, msg: string): Policy
  {
    var c1 := EndCall(c);
    if c1.failed then c1 else Release(c1, CallEnded, msg)
  }

  /** processState(state, msg), with `opID` the operator id the wizard holds. */
  function ProcessState(c: Policy, s: State, msg: string, opID: string): Policy
  {
    if s == Offhook || s == SipLocal then c
    else if s == SipRemote then StartSip(c, msg)
    else if s == SessionSipEstablished then SipEstablished(c, msg, opID)
    else if s == SessionSipFailed then SipFailed(c, msg)
    else if s == CallEnded then CallEndedState(c, msg)
    else OtherState(c, s, msg)
  }

  /** Every other state: forwarded, after releasing the guard for the failure states. */
  function OtherState(c: Policy, s: State, msg: string): Policy
  {
    if Releases(s) then Release(c, s, msg) else Do(c, Forwarded(s, msg))
  }

  function ProcessError(c: Policy, code: string, msg: string): Policy
  {
    Do(c, ForwardedError(code, msg))
  }

  // ---------------------------------------------------------------------
  // Properties
  // ---------------------------------------------------------------------

  /** The states handed to the application, in order. */
  function Forwards(log: seq<Action>): seq<State>
  {
    if |log| == 0 then []
    else Forwards(log[..|log| - 1]) + (if log[|log| - 1].Forwarded? then [log[|log| - 1].forwarded] else [])
  }

  lemma {:induction false} ForwardsAppend(a: seq<Action>, b: seq<Action>)
    ensures Forwards(a + b) == Forwards(a) + Forwards(b)
    decreases |b|
  {
    if |b| == 0 {
      assert a + b == a;
    } else {
      assert (a + b)[..|a + b| - 1] == a + b[..|b| - 1];
      ForwardsAppend(a, b[..|b| - 1]);
    }
  }

  lemma {:induction false} NoForwards(t: seq<Action>)
    requires forall i :: 0 <= i < |t| ==> !t[i].Forwarded?
    ensures Forwards(t) == []
  {
    if |t| > 0 {
      NoForwards(t[..|t| - 1]);
    }
  }

  /** While a call is started, starting or testing again changes nothing at all. */
  lemma StartedCallIgnoresRestart(c: Policy)
    requires c.started
    ensures TestCall(c) == c.(test := true)
    ensures StartCall(c) == c.(test := false, failed := false)
    ensures StartCall(StartCall(c)) == StartCall(c) && TestCall(TestCall(c)) == TestCall(c)
  {
  }

  /** startCall clears the test and failure flags; testCall sets test and keeps the failure flag. */
  lemma CallFlags(c: Policy)
    ensures var c2 := StartCall(c); !c2.test && !c2.failed && c2.started && c2.voip == c.voip
    ensures var c2 := TestCall(c); c2.test && c2.failed == c.failed && c2.started && c2.voip == c.voip
  {
  }

  /** A call that starts ends any SIP handler left from the previous one, then begins in the wizard. */
  lemma FreshCallBegins(c: Policy, test: bool)
    requires !c.started
    ensures var c2 := DoCall(c, test);
      && c2.started && !c2.handler
      && c2.log == c.log + (if c.handler then [HandlerEndCall] else [])
                         + [if test then WizardTestCall else WizardStartCall]
  {
  }

  /** endCall drops the SIP handler and releases the guard, whatever the flags were. */
  lemma EndCallReleases(c: Policy)
    ensures var c2 := EndCall(c);
      && !c2.handler && !c2.started && c2.test == c.test && c2.failed == c.failed
      && c2.log == c.log + (if c.handler then [HandlerEndCall] else []) + [WizardEndCall]
  {
  }

  /** SESSION_SIP_FAILED: the application sees the fixed text, then a test ends or the call ends. */
  lemma SipFailureOutcome(c: Policy, msg: string, opID: string)
    ensures var c2 := ProcessState(c, SessionSipFailed, msg, opID);
      && c2.failed
      && c2.log[|c.log| .. |c.log| + 2] == [Recorded(SessionSipFailed, msg), Forwarded(SessionSipFailed, ErrorText)]
      && (c.test ==> c2 == Do(Do(Do(c.(failed := true), Recorded(SessionSipFailed, msg)),
                                   Forwarded(SessionSipFailed, ErrorText)), WizardEndTestCall))
      && (!c.test ==> !c2.started && !c2.handler && c2.log[|c2.log| - 1] == WizardEndCall)
  {
  }

  /** SESSION_SIP_ESTABLISHED: forwarded, then a test call ends or the call goes ONLINE with opID. */
  lemma EstablishedOutcome(c: Policy, msg: string, opID: string)
    ensures ProcessState(c, SessionSipEstablished, msg, opID).log
      == c.log + [Recorded(SessionSipEstablished, msg), Forwarded(SessionSipEstablished, msg)]
               + (if c.test then [WizardEndTestCall] else [Forwarded(Online, opID)])
    ensures ProcessState(c, SessionSipEstablished, msg, opID).started == c.started
  {
  }

  /** endCall hands nothing to the application. */
  lemma EndCallForwardsNothing(c: Policy)
    ensures Forwards(EndCall(c).log) == Forwards(c.log)
  {
    var tail := if c.handler then [HandlerEndCall, WizardEndCall] else [WizardEndCall];
    assert EndCall(c).log == c.log + tail;
    NoForwards(tail);
    ForwardsAppend(c.log, tail);
  }

  /** CALL_ENDED after a failure forwards nothing; otherwise it releases the guard and forwards. */
  lemma CallEndedOutcome(c: Policy, msg: string, opID: string)
    ensures var c2 := ProcessState(c, CallEnded, msg, opID);
      && !c2.started && !c2.handler
      && Forwards(c2.log) == Forwards(c.log) + (if c.failed then [] else [CallEnded])
  {
    assert ProcessState(c, CallEnded, msg, opID) == CallEndedState(c, msg);
    var c1 := EndCall(c);
    EndCallForwardsNothing(c);
    if !c.failed {
      ForwardsAppend(c1.log, [Forwarded(CallEnded, msg)]);
    }
  }

  /** OFFHOOK, SIPLOCAL and SIPREMOTE never reach the application. */
  lemma SilentStates(c: Policy, s: State, msg: string, opID: string)
    requires s == Offhook || s == SipLocal || s == SipRemote
    ensures Forwards(ProcessState(c, s, msg, opID).log) == Forwards(c.log)
  {
    if s == SipRemote && !c.voip && c.started {
      var c1 := if c.handler then c else Do(Do(c, Recorded(SipRemote, msg)), HandlerCreated).(handler := true);
      var tail := if c.handler then [] else [Recorded(SipRemote, msg), HandlerCreated];
      assert c1.log == c.log + tail;
      NoForwards(tail);
      ForwardsAppend(c.log, tail);
      ForwardsAppend(c1.log, [HandlerProfile, HandlerInitiate(msg)]);
      NoForwards([HandlerProfile, HandlerInitiate(msg)]);
    }
  }

  /**
   * Any state but the silent ones, the SIP outcomes and CALL_ENDED is
   * forwarded unchanged, and the six failure states release the guard.
   */
  lemma RoutingOfStates(c: Policy, s: State, msg: string, opID: string)
    requires s != Offhook && s != SipLocal && s != SipRemote
    requires s != SessionSipEstablished && s != SessionSipFailed && s != CallEnded
    ensures ProcessState(c, s, msg, opID).log == c.log + [Forwarded(s, msg)]
    ensures ProcessState(c, s, msg, opID).started <==> c.started && !Releases(s)
  {
    assert ProcessState(c, s, msg, opID) == OtherState(c, s, msg);
  }

  /** SIPREMOTE starts SIP exactly for a started call that is not VoIP, creating a handler only if none exists. */
  lemma SipRemoteStartsSip(c: Policy, uri: string, opID: string)
    ensures var c2 := ProcessState(c, SipRemote, uri, opID);
      && (c.voip || !c.started ==> c2 == c)
      && (!c.voip && c.started ==>
            && c2.handler
            && c2.log == c.log + (if c.handler then [] else [Recorded(SipRemote, uri), HandlerCreated])
                               + [HandlerProfile, HandlerInitiate(uri)])
  {
  }

  /**
   * The failure states release the call guard but keep the SIP handler; the
   * next call ends that handler before it begins.
   */
  lemma ReleasedHandlerEndedByNextCall(c: Policy, s: State, msg: string, opID: string)
    requires Releases(s) && c.handler
    ensures var c2 := ProcessState(c, s, msg, opID);
      && c2.handler && !c2.started
      && StartCall(c2).log == c2.log + [HandlerEndCall, WizardStartCall]
  {
  }
}

/**
 * The Captions object: its flags change in place as the switch in
 * processState falls through, and each method is proved to leave the object
 * as the matching CaptionsSpec function computes.
 */
module CaptionsApp {
  import opened CaptionState
  import opened CaptionsSpec

  class Captions {
    var test: bool
    var started: bool
    var failed: bool
    var handler: bool
    var voip: bool
    var log: seq<Action>

    function Snap(): Policy
      reads this
    {
      Policy(test, started, failed, handler, voip, log)
    }

    constructor ()
      ensures Snap() == CaptionsSpec.Initial()
    {
      test := false;
      started := false;
      failed := false;
      handler := false;
      voip := false;
      log := [];
    }

    method Perform(a: Action)
      modifies this
      ensures Snap() == Do(old(Snap()), a)
    {
      log := log + [a];
    }

    /** setIsVoip: the flag SIPREMOTE consults. */
    method SetIsVoip(isVoip: bool)
      modifies this
      ensures Snap() == old(Snap()).(voip := isVoip)
    {
      voip := isVoip;
    }

    method DropHandler()
      modifies this
      ensures Snap() == CaptionsSpec.DropHandler(old(Snap()))
    {
      if handler {
        Perform(HandlerEndCall);
        handler := false;
      }
    }

    method EndCall()
      modifies this
      ensures Snap() == CaptionsSpec.EndCall(old(Snap()))
    {
      DropHandler();
      Perform(WizardEndCall);
      started := false;
    }

    method DoCall(isTest: bool)
      modifies this
      ensures Snap() == CaptionsSpec.DoCall(old(Snap()), isTest)
    {
      if started {
        return;
      }
      started := true;
      DropHandler();
      Perform(if isTest then WizardTestCall else WizardStartCall);
    }

    method StartCall()
      modifies this
      ensures Snap() == CaptionsSpec.StartCall(old(Snap()))
    {
      test := false;
      failed := false;
      DoCall(false);
    }

    method TestCall()
      modifies this
      ensures Snap() == CaptionsSpec.TestCall(old(Snap()))
    {
      test := true;
      DoCall(true);
    }

    method NewHandler(msg: string)
      modifies this
      ensures Snap() == (if old(handler) then old(Snap())
                         else Do(Do(old(Snap()), Recorded(SipRemote, msg)), HandlerCreated).(handler := true))
    {
      if !handler {
        Perform(Recorded(SipRemote, msg));
        handler := true;
        Perform(HandlerCreated);
      }
    }

    method StartSip(msg: string)
      modifies this
      ensures Snap() == CaptionsSpec.StartSip(old(Snap()), msg)
    {
      if !voip && started {
        NewHandler(msg);
        Perform(HandlerProfile);
        Perform(HandlerInitiate(msg));
      }
    }

    method SipEstablished(msg: string, opID: string)
      modifies this
      ensures Snap() == CaptionsSpec.SipEstablished(old(Snap()), msg, opID)
    {
      Perform(Recorded(SessionSipEstablished, msg));
      Perform(Forwarded(SessionSipEstablished, msg));
      if test {
        Perform(WizardEndTestCall);
      } else {
        Perform(Forwarded(Online, opID));
      }
    }

    method SipFailed(msg: string)
      modifies this
      ensures Snap() == CaptionsSpec.SipFailed(old(Snap()), msg)
    {
      failed := true;
      Perform(Recorded(SessionSipFailed, msg));
      Perform(Forwarded(SessionSipFailed, ErrorText));
      if test {
        Perform(WizardEndTestCall);
      } else {
        EndCall();
      }
    }

    method Release(s: State, msg: string)
      modifies this
      ensures Snap() == CaptionsSpec.Release(old(Snap()), s, msg)
    {
      started := false;
      Perform(Forwarded(s, msg));
    }

    method CallEndedState(msg: string)
      modifies this
      ensures Snap() == CaptionsSpec.CallEndedState(old(Snap()), msg)
    {
      EndCall();
      if failed {
        return;
      }
      Release(CallEnded, msg);
    }

    /** processState(state, msg); `opID` is the operator id held by the wizard. */
    method ProcessState(s: State, msg: string, opID: string)
      modifies this
      ensures Snap() == CaptionsSpec.ProcessState(old(Snap()), s, msg, opID)
    {
      if s == Offhook || s == SipLocal {
      } else if s == SipRemote {
        StartSip(msg);
      } else if s == SessionSipEstablished {
        SipEstablished(msg, opID);
      } else if s == SessionSipFailed {
        SipFailed(msg);
      } else if s == CallEnded {
        CallEndedState(msg);
      } else {
        OtherState(s, msg);
      }
    }

    method OtherState(s: State, msg: string)
      modifies this
      ensures Snap() == CaptionsSpec.OtherState(old(Snap()), s, msg)
    {
      if Releases(s) {
        Release(s, msg);
      } else {
        Perform(Forwarded(s, msg));
      }
    }

    method ProcessError(code: string, msg: string)
      modifies this
      ensures Snap() == CaptionsSpec.ProcessError(old(Snap()), code, msg)
    {
      Perform(ForwardedError(code, msg));
    }
  }
}
