/**
 * The SIP handler: the caption client's status listener on the SIP manager.
 * It splits the SIP URI of the call, sends the INVITE at most once, turns the
 * manager's states into caption-session states for the captioner, and keeps
 * the remote RTP address and ports of the established session. What it asks
 * of the captioner, the manager and the invite timer is appended to a log.
 */
module SipHandlerSpec {
  import opened Wrappers
  import opened JavaText
  import CS = CaptionState
  import opened SipSpec

  // ---------------------------------------------------------------------
  // The SIP URI of the call
  // ---------------------------------------------------------------------

  /** `uri.split("@")[0]`; `None` when the split is empty and indexing throws. */
  function Username(uri: string): (u: Option<string>)
    ensures '@' !in uri ==> u == Some(uri)
  {
    var pieces := Split(uri, '@');
    if |pieces| > 0 then Some(pieces[0]) else None
  }

  /** `uri.split("@")[1]`; `None` when there is no second piece and indexing throws. */
  function Hostname(uri: string): (h: Option<string>)
    ensures '@' !in uri ==> h.None?
  {
    var pieces := Split(uri, '@');
    if |pieces| > 1 then Some(pieces[1]) else None
  }

  const DefaultSipPort := 5060

  /**
   * The number after the first ':', by Integer.parseInt (`None` when it
   * throws); 5060 when the split gives one piece.
   */
  function Port(uri: string): (p: Option<int>)
    ensures ':' !in uri ==> p == Some(DefaultSipPort)
  {
    var pieces := Split(uri, ':');
    if |pieces| > 1 then ParseInt(pieces[1]) else Some(DefaultSipPort)
  }

  /** The contact of `initiateCall(uri)`, or `None` when one of the three parts throws. */
  function ContactOf(uri: string): Option<Contact>
  {
    var u, h, p := Username(uri), Hostname(uri), Port(uri);
    if u.Some? && h.Some? && p.Some? then Some(Contact(u.value, h.value, p.value)) else None
  }

  // ---------------------------------------------------------------------
  // The handler's fields and what it asks of others
  // ---------------------------------------------------------------------

  datatype Action =
    | Recorded(name: string, info: string)     // captioner.recordEvent(state, info)
    | CaptionLog(text: string)                  // captioner.logEvent(text, true)
    | Caption(caption: CS.State, msg: string)      // captioner.processState(state, msg)
    | CaptionError(code: string, msg: string)   // captioner.processError(code, msg)
    | TimerStarted                              // a new 20-second invite timer
    | TimerCancelled
    | ManagerInvite(contact: Option<Contact>)   // sipManager.sendInvite(sipContact)
    | ManagerStart                              // createInstance, addStatusListener, setUserAgent, registerProfile
    | ManagerEndCall                            // sipManager.endCall()
    | ListenerRemoved                           // SipManager.removeStatusListener(this)
    | ManagerUnregister                         // sipManager.unregisterProfile()
    | ManagerTimedOut                           // sipManager.setStatusChanged(TIMEOUT)
    | ProfileCreated(rtpPort: int, rtcpPort: int)

  datatype Handler = Handler(
    state: Option<SipState>,
    timer: bool,               // the timer field is set
    orphaned: nat,             // timers still scheduled whose handle the field no longer holds
    sent: bool,                // bSent
    remoteRtcpPort: int,
    remoteRtpPort: int,
    remoteAddress: string,
    contact: Option<Contact>,
    log: seq<Action>)

  function Initial(): (h: Handler)
    ensures !h.sent && !h.timer && h.orphaned == 0 && h.state.None? && h.log == []
  {
    Handler(None, false, 0, false, 0, 0, "", None, [])
  }

  function Do(h: Handler, a: Action): Handler
  {
    h.(log := h.log + [a])
  }

  /** The seconds before the invite timer fires. */
  const InviteTimeoutSeconds := 20
  const LocalRtpPort := 5071
  const LocalRtcpPort := 5072

  const TimedOutMsg := "SIP invite response timed out"
  const CanceledMsg := "SIP invite canceled"

  // ---------------------------------------------------------------------
  // The operations
  // ---------------------------------------------------------------------

  /**
   * startTimer(): a new timer in the field; a timer the field held before
   * is not cancelled and stays scheduled.
   */
  function StartTimer(h: Handler): Handler
  {
    Do(h.(timer := true, orphaned := h.orphaned + (if h.timer then 1 else 0)), TimerStarted)
  }

  /** stopTimer(): the running timer, if any, cancelled and dropped. */
  function StopTimer(h: Handler): Handler
  {
    if h.timer then Do(h.(timer := false), TimerCancelled) else h
  }

  /** InviteTimeoutTask.run(): the timeout logged and the manager put in TIMEOUT. */
  function TimerFired(h: Handler): Handler
  {
    Do(Do(h, CaptionLog("||CODE=EP2020||MSG=" + TimedOutMsg)), ManagerTimedOut)
  }

  /** sendInvite(): once only; bSent is set when the manager's sendInvite did not throw. */
  function SendInvite(h: Handler, fails: bool): Handler
  {
    if h.sent then h else Do(h, ManagerInvite(h.contact)).(sent := !fails)
  }

  /** initiateCall(uri): the contact from the URI, then the registration; `None` if the URI throws. */
  function InitiateCall(h: Handler, uri: string): Option<Handler>
  {
    var c := ContactOf(uri);
    if c.None? then None else Some(Do(h.(contact := c), ManagerStart))
  }

  function InitializeLocalProfile(h: Handler): Handler
  {
    Do(h, ProfileCreated(LocalRtpPort, LocalRtcpPort))
  }

  /** endCall(): the timer stopped, the manager's call ended, and the listener and profile closed. */
  /**
   * sipManager is assigned only by startSipRegistration, which initiateCall
   * reaches only once the contact has been set: the manager exists exactly
   * when the handler has a contact.
   */
  predicate HasManager(h: Handler)
  {
    h.contact.Some?
  }

  /**
   * endCall(): the timer stopped, then the manager's call ended and the
   * profile closed. Without a manager, `sipManager.endCall()` throws a
   * NullPointerException that none of the catches takes, so the profile is
   * not closed and the exception escapes (`true`).
   */
  function EndCall(h: Handler): (Handler, bool)
  {
    if !HasManager(h) then (StopTimer(h), true)
    else (Do(Do(Do(StopTimer(h), ManagerEndCall), ListenerRemoved), ManagerUnregister), false)
  }

  function Failed(h: Handler, info: string): Handler
  {
    Do(Do(h, CaptionLog("||CODE=EP2020||MSG=" + info)), Caption(CS.SessionSipFailed, ""))
  }

  /** SipManagerStatusChanged: the state kept and recorded, then what the state asks for. */
  function StatusChanged(h: Handler, s: SipState, info: string, inviteFails: bool): Handler
  {
    var h1 := Do(h.(state := Some(s)), Recorded(Name(s), info));
    match s
    case Established => StopTimer(h1)
    case Error => Failed(h1, info)
    case Ready => StartTimer(SendInvite(Do(h1, Caption(CS.Offhook, "")), inviteFails))
    case Bye => Do(h1, Caption(CS.CallEnded, ""))
    case Timeout => Do(Failed(h1, info), CaptionError("EP2020", TimedOutMsg))
    case Invalid => Do(Failed(h1, info), CaptionError("EP2020", TimedOutMsg))
    case Canceled => Do(Do(h1, Caption(CS.CancelCall, "")), CaptionError("EP2020", CanceledMsg))
    case _ => h1
  }

  /** SipManagerSessionChanged: a session's address and ports kept and reported; null ignored. */
  function SessionChanged(h: Handler, session: Option<SipSession>): Handler
  {
    if session.None? then h
    else
      var s := session.value;
      Do(h.(remoteAddress := s.remoteAddress, remoteRtpPort := s.rtpPort, remoteRtcpPort := s.rtcpPort),
         Caption(CS.SessionSipEstablished, ""))
  }

  function CallStatusChanged(h: Handler, message: string): Handler
  {
    Do(h, Recorded("SipManagerCallStatusChanged", message))
  }

  /** remoteRtcpPort(): the stored port, or the RTP port + 1 (a Java int) when none was given. */
  function RemoteRtcpPort(h: Handler): (p: int)
    ensures h.remoteRtcpPort != 0 ==> p == h.remoteRtcpPort
    ensures h.remoteRtcpPort == 0 && IsInt32(h.remoteRtpPort + 1) ==> p == h.remoteRtpPort + 1
    ensures h.remoteRtcpPort == 0 ==> IsInt32(p) && (p - h.remoteRtpPort - 1) % 0x1_0000_0000 == 0
  {
    if h.remoteRtcpPort == 0 then Wrap32(h.remoteRtpPort + 1) else h.remoteRtcpPort
  }

  // ---------------------------------------------------------------------
  // Properties
  // ---------------------------------------------------------------------

  /** "user@host" splits into the user and the host, and a port in the host stays in it. */
  lemma UriParts(user: string, host: string)
    requires '@' !in user && '@' !in host && host != ""
    ensures Username(user + "@" + host) == Some(user)
    ensures Hostname(user + "@" + host) == Some(host)
  {
    SplitOfTwo(user, host, '@');
  }

  lemma HostKeepsPort(user: string, host: string, port: string)
    requires '@' !in user && '@' !in host && '@' !in port
    ensures Hostname(user + "@" + host + ":" + port) == Some(host + ":" + port)
  {
    assert user + "@" + host + ":" + port == user + ['@'] + (host + ":" + port);
    UriParts(user, host + ":" + port);
  }

  /** The port after the first ':' is read back when it is a number. */
  lemma PortAfterColon(head: string, port: int)
    requires ':' !in head && IsInt32(port)
    ensures Port(head + ":" + Decimal(port)) == Some(port)
  {
    var d := Decimal(port);
    DecimalAlphabet(port);
    assert ':' !in d;
    assert head + ":" + d == head + [':'] + d;
    SplitOfTwo(head, d, ':');
    ParseDecimal(port);
  }

  /** Without an '@' the split has one piece and asking for the host throws. */
  lemma NoAtNoContact(uri: string)
    requires '@' !in uri
    ensures ContactOf(uri).None?
  {
  }

  /** Stopping the timer twice is stopping it once, and no timer remains. */
  lemma StopTimerIdempotent(h: Handler)
    ensures !StopTimer(h).timer && StopTimer(StopTimer(h)) == StopTimer(h)
  {
  }

  /** Once an INVITE went out without throwing, sendInvite never sends again. */
  lemma InviteAtMostOnce(h: Handler, f1: bool, f2: bool)
    ensures SendInvite(h, f1).sent <==> h.sent || !f1
    ensures h.sent ==> SendInvite(h, f1) == h
    ensures !f1 ==> SendInvite(SendInvite(h, f1), f2) == SendInvite(h, f1)
  {
  }

  /** The number of INVITEs handed to the manager. */
  function Invites(log: seq<Action>): nat
  {
    if |log| == 0 then 0
    else Invites(log[..|log| - 1]) + (if log[|log| - 1].ManagerInvite? then 1 else 0)
  }

  lemma {:induction false} InvitesAppend(a: seq<Action>, b: seq<Action>)
    ensures Invites(a + b) == Invites(a) + Invites(b)
    decreases |b|
  {
    if |b| == 0 {
      assert a + b == a;
    } else {
      assert (a + b)[..|a + b| - 1] == a + b[..|b| - 1];
      InvitesAppend(a, b[..|b| - 1]);
    }
  }

  /** READY events, each with its own outcome of the manager's sendInvite. */
  function ReadyEvents(h: Handler, fails: seq<bool>): Handler
  {
    if |fails| == 0 then h
    else StatusChanged(ReadyEvents(h, fails[..|fails| - 1]), Ready, "", fails[|fails| - 1])
  }

  /** However many times READY arrives, at most one INVITE goes out after a send that did not throw. */
  lemma {:induction false} OneInviteAfterSuccess(h: Handler, fails: seq<bool>)
    requires h.sent
    ensures ReadyEvents(h, fails).sent
    ensures Invites(ReadyEvents(h, fails).log) == Invites(h.log)
  {
    if |fails| > 0 {
      var h0 := ReadyEvents(h, fails[..|fails| - 1]);
      OneInviteAfterSuccess(h, fails[..|fails| - 1]);
      var h1 := Do(h0.(state := Some(Ready)), Recorded(Name(Ready), ""));
      var h2 := Do(h1, Caption(CS.Offhook, ""));
      assert SendInvite(h2, fails[|fails| - 1]) == h2;
      assert ReadyEvents(h, fails).log == h0.log + [Recorded(Name(Ready), ""), Caption(CS.Offhook, ""), TimerStarted];
      InvitesAppend(h0.log, [Recorded(Name(Ready), ""), Caption(CS.Offhook, ""), TimerStarted]);
      assert Invites([Recorded(Name(Ready), ""), Caption(CS.Offhook, ""), TimerStarted]) == 0 by {
        var t := [Recorded(Name(Ready), ""), Caption(CS.Offhook, ""), TimerStarted];
        assert t[..2][..1] == [Recorded(Name(Ready), "")];
        assert [Recorded(Name(Ready), "")][..0] == [];
      }
    }
  }

  /** READY: OFFHOOK to the captioner, the INVITE once, and the invite timer started. */
  lemma ReadyInvites(h: Handler, info: string, fails: bool)
    requires !h.sent
    ensures var h2 := StatusChanged(h, Ready, info, fails);
      && h2.log == h.log + [Recorded("READY", info), Caption(CS.Offhook, ""), ManagerInvite(h.contact), TimerStarted]
      && h2.timer && (h2.sent <==> !fails) && h2.state == Some(Ready)
  {
  }

  /** The failures: ERROR, TIMEOUT and INVALID fail the SIP session; CANCELED cancels the call. */
  lemma FailureStates(h: Handler, info: string, f: bool)
    ensures StatusChanged(h, Error, info, f).log
      == h.log + [Recorded("ERROR", info), CaptionLog("||CODE=EP2020||MSG=" + info), Caption(CS.SessionSipFailed, "")]
    ensures StatusChanged(h, Timeout, info, f).log
      == h.log + [Recorded("TIMEOUT", info), CaptionLog("||CODE=EP2020||MSG=" + info),
                  Caption(CS.SessionSipFailed, ""), CaptionError("EP2020", TimedOutMsg)]
    ensures StatusChanged(h, Invalid, info, f).log
      == h.log + [Recorded("INVALID", info), CaptionLog("||CODE=EP2020||MSG=" + info),
                  Caption(CS.SessionSipFailed, ""), CaptionError("EP2020", TimedOutMsg)]
    ensures StatusChanged(h, Canceled, info, f).log
      == h.log + [Recorded("CANCELED", info), Caption(CS.CancelCall, ""), CaptionError("EP2020", CanceledMsg)]
    ensures StatusChanged(h, Bye, info, f).log == h.log + [Recorded("BYE", info), Caption(CS.CallEnded, "")]
  {
  }

  /**
   * A second READY replaces the timer without cancelling the first, so the
   * ESTABLISHED that follows cancels only the second: one timer stays
   * scheduled and its timeout will still fire.
   */
  lemma SecondReadyOrphansTimer(h: Handler, f1: bool, f2: bool, f3: bool)
    requires !h.timer
    ensures var h2 := StatusChanged(StatusChanged(StatusChanged(h, Ready, "", f1), Ready, "", f2), Established, "", f3);
      !h2.timer && h2.orphaned == h.orphaned + 1
  {
  }

  /** Stopping cancels the field's timer, never one it lost. */
  lemma StopTimerKeepsOrphans(h: Handler)
    ensures StopTimer(h).orphaned == h.orphaned
    ensures StopTimer(h).log == h.log + (if h.timer then [TimerCancelled] else [])
  {
  }

  /** ESTABLISHED stops the invite timer and tells the captioner nothing. */
  lemma EstablishedStopsTimer(h: Handler, info: string, f: bool)
    ensures var h2 := StatusChanged(h, Established, info, f);
      !h2.timer && h2.sent == h.sent
      && h2.log == h.log + [Recorded("ESTABLISHED", info)] + (if h.timer then [TimerCancelled] else [])
  {
  }

  /** A session event keeps the remote address and ports and reports SESSION_SIP_ESTABLISHED. */
  lemma SessionKept(h: Handler, s: SipSession)
    ensures var h2 := SessionChanged(h, Some(s));
      && h2.remoteAddress == s.remoteAddress && h2.remoteRtpPort == s.rtpPort
      && RemoteRtcpPort(h2) == (if s.rtcpPort == 0 then Wrap32(s.rtpPort + 1) else s.rtcpPort)
      && h2.log == h.log + [Caption(CS.SessionSipEstablished, "")]
  {
  }

  /**
   * endCall stops the timer, and ends the call and closes the profile exactly
   * when a manager exists; otherwise it throws with nothing else done.
   */
  lemma EndCallNeedsManager(h: Handler)
    ensures EndCall(h).1 <==> !HasManager(h)
    ensures !EndCall(h).0.timer && EndCall(h).0.contact == h.contact
    ensures EndCall(h).0.log ==
      StopTimer(h).log + (if HasManager(h) then [ManagerEndCall, ListenerRemoved, ManagerUnregister] else [])
  {
  }

  /**
   * A handler gets its manager only from an initiateCall whose URI parses:
   * a new handler, or one whose initiateCall threw, has none, and its endCall
   * throws.
   */
  lemma ManagerOnlyAfterInitiate(h: Handler, uri: string)
    requires !HasManager(h)
    ensures !HasManager(Initial()) && EndCall(Initial()).1
    ensures InitiateCall(h, uri).Some? <==> ContactOf(uri).Some?
    ensures InitiateCall(h, uri).Some? ==> HasManager(InitiateCall(h, uri).value)
    ensures InitiateCall(h, uri).None? ==> EndCall(h).1
  {
  }
}

/**
 * The SIPHandler object: its fields are updated in place, and each method is
 * proved to leave the object as the matching SipHandlerSpec function
 * computes from the fields before the call.
 */
module SipHandling {
  import opened Wrappers
  import opened JavaText
  import CS = CaptionState
  import SipSpec
  import opened SipHandlerSpec

  class SipHandler {
    var state: Option<SipSpec.SipState>
    var timer: bool
    var orphaned: nat
    var sent: bool
    var remoteRtcpPort: int
    var remoteRtpPort: int
    var remoteAddress: string
    var contact: Option<SipSpec.Contact>
    var log: seq<Action>

    function Snap(): Handler
      reads this
    {
      Handler(state, timer, orphaned, sent, remoteRtcpPort, remoteRtpPort, remoteAddress, contact, log)
    }

    constructor ()
      ensures Snap() == SipHandlerSpec.Initial()
    {
      state := None;
      timer := false;
      orphaned := 0;
      sent := false;
      remoteRtcpPort := 0;
      remoteRtpPort := 0;
      remoteAddress := "";
      contact := None;
      log := [];
    }

    method Perform(a: Action)
      modifies this
      ensures Snap() == Do(old(Snap()), a)
    {
      log := log + [a];
    }

    method StartTimer()
      modifies this
      ensures Snap() == SipHandlerSpec.StartTimer(old(Snap()))
    {
      if timer {
        orphaned := orphaned + 1;
      }
      timer := true;
      Perform(TimerStarted);
    }

    method StopTimer()
      modifies this
      ensures Snap() == SipHandlerSpec.StopTimer(old(Snap()))
    {
      if timer {
        timer := false;
        Perform(TimerCancelled);
      }
    }

    /** `fails`: whether the manager's sendInvite throws. */
    method SendInvite(fails: bool)
      modifies this
      ensures Snap() == SipHandlerSpec.SendInvite(old(Snap()), fails)
    {
      if !sent {
        Perform(ManagerInvite(contact));
        if !fails {
          sent := true;
        }
      }
    }

    /** initiateCall(uri); `ok` is false when splitting the URI throws, and then nothing changed. */
    method InitiateCall(uri: string) returns (ok: bool)
      modifies this
      ensures ok <==> SipHandlerSpec.InitiateCall(old(Snap()), uri).Some?
      ensures ok ==> Snap() == SipHandlerSpec.InitiateCall(old(Snap()), uri).value
      ensures !ok ==> Snap() == old(Snap())
    {
      var c := ContactOf(uri);
      if c.None? {
        return false;
      }
      contact := c;
      Perform(ManagerStart);
      ok := true;
    }

    method TimerFired()
      modifies this
      ensures Snap() == SipHandlerSpec.TimerFired(old(Snap()))
    {
      Perform(CaptionLog("||CODE=EP2020||MSG=" + TimedOutMsg));
      Perform(ManagerTimedOut);
    }

    method InitializeLocalProfile()
      modifies this
      ensures Snap() == SipHandlerSpec.InitializeLocalProfile(old(Snap()))
    {
      Perform(ProfileCreated(LocalRtpPort, LocalRtcpPort));
    }

    /** `threw` is true where the source's endCall throws for want of a manager. */
    method EndCall() returns (threw: bool)
      modifies this
      ensures (Snap(), threw) == SipHandlerSpec.EndCall(old(Snap()))
    {
      StopTimer();
      if contact.None? {
        return true;
      }
      Perform(ManagerEndCall);
      Perform(ListenerRemoved);
      Perform(ManagerUnregister);
      threw := false;
    }

    method Failed(info: string)
      modifies this
      ensures Snap() == SipHandlerSpec.Failed(old(Snap()), info)
    {
      Perform(CaptionLog("||CODE=EP2020||MSG=" + info));
      Perform(Caption(CS.SessionSipFailed, ""));
    }

    method OnReady(fails: bool)
      modifies this
      ensures Snap() == SipHandlerSpec.StartTimer(SipHandlerSpec.SendInvite(Do(old(Snap()), Caption(CS.Offhook, "")), fails))
    {
      Perform(Caption(CS.Offhook, ""));
      SendInvite(fails);
      StartTimer();
    }

    /** SipManagerStatusChanged, with `inviteFails` the outcome of an INVITE it sends. */
    method StatusChanged(s: SipSpec.SipState, info: string, inviteFails: bool)
      modifies this
      ensures Snap() == SipHandlerSpec.StatusChanged(old(Snap()), s, info, inviteFails)
    {
      state := Some(s);
      Perform(Recorded(SipSpec.Name(s), info));
      match s {
        case Established => StopTimer();
        case Error => Failed(info);
        case Ready => OnReady(inviteFails);
        case Bye => Perform(Caption(CS.CallEnded, ""));
        case Timeout =>
          Failed(info);
          Perform(CaptionError("EP2020", TimedOutMsg));
        case Invalid =>
          Failed(info);
          Perform(CaptionError("EP2020", TimedOutMsg));
        case Canceled =>
          Perform(Caption(CS.CancelCall, ""));
          Perform(CaptionError("EP2020", CanceledMsg));
        case _ =>
      }
    }

    method SessionChanged(session: Option<SipSpec.SipSession>)
      modifies this
      ensures Snap() == SipHandlerSpec.SessionChanged(old(Snap()), session)
    {
      if session.Some? {
        remoteAddress := session.value.remoteAddress;
        remoteRtpPort := session.value.rtpPort;
        remoteRtcpPort := session.value.rtcpPort;
        Perform(Caption(CS.SessionSipEstablished, ""));
      }
    }

    method CallStatusChanged(message: string)
      modifies this
      ensures Snap() == SipHandlerSpec.CallStatusChanged(old(Snap()), message)
    {
      Perform(Recorded("SipManagerCallStatusChanged", message));
    }

    method RemoteRtcpPort() returns (p: int)
      ensures p == SipHandlerSpec.RemoteRtcpPort(Snap())
    {
      if remoteRtcpPort == 0 {
        p := Wrap32(remoteRtpPort + 1);
      } else {
        p := remoteRtcpPort;
      }
    }
  }
}
