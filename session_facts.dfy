/**
 * What the session state machine promises: the KEEPALIVE short cut, the
 * registration outcomes, caption reassembly, the poll flags, the shutdown
 * reset, the reconnect funnel and the packet framing.
 */
module SessionFacts {
  import opened Wrappers
  import opened JavaText
  import opened CaptionState
  import opened Session
  import Commands
  import Wire

  // ---------------------------------------------------------------------
  // Every inbound packet
  // ---------------------------------------------------------------------

  /**
   * A packet mentioning KEEPALIVE, in any letter case, restarts the WAN
   * timer after the echo and changes nothing else, whatever else it holds.
   */
  lemma KeepAliveOnlyRestartsTimer(w: Wizard, packet: string)
    requires HasKeepAlive(packet)
    ensures var s := Inbound(w, packet);
      && s.flow == Returned
      && s.w == w.(events := w.events + Echo(w, packet) + [WanTimerStop, WanTimerStart])
  {
  }

  // ---------------------------------------------------------------------
  // REGRETURN=
  // ---------------------------------------------------------------------

  /** A number field that is either absent or a valid `int`. */
  predicate NumberOrAbsent(v: Option<string>)
  {
    v.None? || ParseInt(v.value).Some?
  }

  function NumberOr(v: Option<string>, fallback: int): int
  {
    if v.Some? && ParseInt(v.value).Some? then ParseInt(v.value).value else fallback
  }

  /** The registration answer carries its "||" (otherwise the block throws). */
  predicate RegAnswer(packet: string)
  {
    Contains(Upper(packet), "REGRETURN=")
    && IndexOf(packet[KeyIndex(packet, "REGRETURN=") + 10..], Sep) >= 0
  }

  /** Code 1 with a MYID= past the start of the packet: the registration is accepted. */
  predicate RegAccepted(packet: string)
    requires RegAnswer(packet)
  {
    RegCode(packet) == Some(1) && FieldPastStart(packet, "MYID=").Some?
  }

  /**
   * An accepted registration installs the session, the log level and the retry
   * interval (seconds into milliseconds, in 32-bit arithmetic), reports ONHOOK,
   * and asks for the relay with the new session: CALLING, then StartRelay
   * (whose text begins with that session, by Commands.StartRelayBegins).
   */
  lemma RegistrationAccepted(w: Wizard, packet: string)
    requires RegAnswer(packet) && RegAccepted(packet)
    requires NumberOrAbsent(FieldPastStart(packet, "LOG="))
    requires NumberOrAbsent(FieldPastStart(packet, "RETRYINTERVAL="))
    ensures var id := FieldPastStart(packet, "MYID=").value;
      var secs := FieldPastStart(packet, "RETRYINTERVAL=");
      var p := w.profile.(session := id);
      RegReturnBlock(w, packet) == Step(w.(
        profile := p, registered := true, state := Calling,
        dontPoll := w.dontPoll || KeyIndex(packet, "POLLING=0") > 0,
        logEvents := NumberOr(FieldPastStart(packet, "LOG="), w.logEvents),
        retryInterval := if secs.Some? then Wrap32(NumberOr(secs, 0) * 1000) else w.retryInterval,
        events := w.events + [Notify(Onhook, ""), Notify(Calling, "Placing Call"), Sent(Commands.StartRelay, p)]),
        Completed)
  {
    var id := FieldPastStart(packet, "MYID=").value;
    var w1 := if KeyIndex(packet, "POLLING=0") > 0 then w.(dontPoll := true) else w;
    assert RegReturnBlock(w, packet) == Registered(w1, packet, id);
    RegisteredState(w1, packet, id);
  }

  /** The accepted registration's new state, numbers read as the packet gives them. */
  lemma RegisteredState(w: Wizard, packet: string, id: string)
    requires NumberOrAbsent(FieldPastStart(packet, "LOG="))
    requires NumberOrAbsent(FieldPastStart(packet, "RETRYINTERVAL="))
    ensures var secs := FieldPastStart(packet, "RETRYINTERVAL=");
      var p := w.profile.(session := id);
      Registered(w, packet, id) == Step(w.(
        profile := p, registered := true, state := Calling,
        logEvents := NumberOr(FieldPastStart(packet, "LOG="), w.logEvents),
        retryInterval := if secs.Some? then Wrap32(NumberOr(secs, 0) * 1000) else w.retryInterval,
        events := w.events + [Notify(Onhook, ""), Notify(Calling, "Placing Call"), Sent(Commands.StartRelay, p)]),
        Completed)
  {
    var lg := FieldPastStart(packet, "LOG=");
    var secs := FieldPastStart(packet, "RETRYINTERVAL=");
    var w2 := WithSession(w, id);
    var lv := NumberOr(lg, w.logEvents);
    var ri := if secs.Some? then Wrap32(NumberOr(secs, 0) * 1000) else w.retryInterval;
    BothNumbersSet(w2, lg, secs);
    RegisteredOnceSet(w, packet, id);
    OnhookThenCalling(w2.(logEvents := lv, retryInterval := ri));
  }

  /** LOG= then RETRYINTERVAL=, both absent or valid, are stored in turn. */
  lemma BothNumbersSet(w: Wizard, lg: Option<string>, secs: Option<string>)
    requires NumberOrAbsent(lg) && NumberOrAbsent(secs)
    ensures var s2 := SetNumber(w, lg, false);
      var s3 := SetNumber(s2.w, secs, true);
      && s2.flow == Completed && s3.flow == Completed
      && s3.w == w.(logEvents := NumberOr(lg, w.logEvents),
                    retryInterval := if secs.Some? then Wrap32(NumberOr(secs, 0) * 1000) else w.retryInterval)
  {
    SetNumberDefined(w, lg, false);
    var s2 := SetNumber(w, lg, false);
    assert s2.w == w.(logEvents := NumberOr(lg, w.logEvents));
    SetNumberDefined(s2.w, secs, true);
  }

  /** ONHOOK with the registration, then initiateCall(). */
  lemma OnhookThenCalling(w: Wizard)
    ensures InitiateCall(Note(w.(state := Onhook, registered := true), Onhook, "")) ==
      w.(registered := true, state := Calling,
         events := w.events + [Notify(Onhook, ""), Notify(Calling, "Placing Call"), Sent(Commands.StartRelay, w.profile)])
  {
    var e := [Notify(Onhook, ""), Notify(Calling, "Placing Call"), Sent(Commands.StartRelay, w.profile)];
    assert w.events + [e[0]] + [e[1]] + [e[2]] == w.events + e;
  }

  /** With both numbers stored, the registration goes on to ONHOOK and initiateCall(). */
  lemma RegisteredOnceSet(w: Wizard, packet: string, id: string)
    requires SetNumber(WithSession(w, id), FieldPastStart(packet, "LOG="), false).flow == Completed
    requires var s2 := SetNumber(WithSession(w, id), FieldPastStart(packet, "LOG="), false);
      SetNumber(s2.w, FieldPastStart(packet, "RETRYINTERVAL="), true).flow == Completed
    ensures var s2 := SetNumber(WithSession(w, id), FieldPastStart(packet, "LOG="), false);
      var s3 := SetNumber(s2.w, FieldPastStart(packet, "RETRYINTERVAL="), true);
      Registered(w, packet, id) == Step(InitiateCall(Note(s3.w.(state := Onhook, registered := true), Onhook, "")), Completed)
  {
  }

  /** A number field that is absent or valid is stored, and the handler goes on. */
  lemma SetNumberDefined(w: Wizard, v: Option<string>, retry: bool)
    requires NumberOrAbsent(v)
    ensures var s := SetNumber(w, v, retry);
      && s.flow == Completed
      && s.w == (if v.None? then w
                 else if retry then w.(retryInterval := Wrap32(NumberOr(v, 0) * 1000))
                 else w.(logEvents := NumberOr(v, 0)))
  {
    if v.Some? {
      if retry {
      } else {
      }
    }
  }

  /**
   * A refused registration (any other code, or no MYID= past the start) ends
   * the call: the session is cleared, the wizard shuts down to CALL_ENDED with
   * an empty message (ERRMESSAGE= is read but never shown), and the handler returns.
   */
  lemma RegistrationRefused(w: Wizard, packet: string)
    requires RegAnswer(packet) && !RegAccepted(packet)
    ensures var s := RegReturnBlock(w, packet);
      && s.flow == Returned
      && s.w.state == CallEnded && !s.w.registered
      && s.w.profile == w.profile.(session := "", number := "")
      && s.w.firstContact == 0 && s.w.firstPoll && s.w.waitFirstTime && !s.w.dontPoll
      && s.w.events == w.events + [WanTimerStop, Notify(CallEnded, ""), CloseSocket]
  {
    var w1 := if KeyIndex(packet, "POLLING=0") > 0 then w.(dontPoll := true) else w;
    var msg := OrEmpty(FieldPastStart(packet, "ERRMESSAGE="));
    assert RegReturnBlock(w, packet) == Step(Route(w1, CallEnded, msg), Returned);
    ShutdownResets(WithSession(w1, ""), CallEnded);
  }

  /** REGRETURN= with no "||" after it: `substring(0, -1)` throws before anything changes. */
  lemma RegistrationWithoutSeparator(w: Wizard, packet: string)
    requires Contains(Upper(packet), "REGRETURN=") && !RegAnswer(packet)
    ensures RegReturnBlock(w, packet) == Step(w, Threw(OutOfBounds))
  {
  }

  /**
   * An accepted registration whose LOG= is not a number throws out of the
   * handler with the session already installed and nothing reported.
   */
  lemma RegistrationBadLogLevel(w: Wizard, packet: string)
    requires RegAnswer(packet) && RegAccepted(packet)
    requires !NumberOrAbsent(FieldPastStart(packet, "LOG="))
    ensures var s := RegReturnBlock(w, packet);
      && s.flow == Threw(BadNumber)
      && s.w.profile.session == FieldPastStart(packet, "MYID=").value
      && s.w.events == w.events && s.w.state == w.state && s.w.registered == w.registered
  {
  }

  // ---------------------------------------------------------------------
  // Handlei711State: ONLINE, captions, QUEUED
  // ---------------------------------------------------------------------

  /** What ONLINE reports: the first contact only. */
  function OnlineNotice(w: Wizard): seq<Event>
  {
    if w.firstContact == 0 then [Notify(Online, "")] else []
  }

  /** ONLINE puts the wizard in the call and reports the first contact once only. */
  lemma OnlineReportedOnce(w: Wizard)
    ensures var w1 := OnlineStep(w, true);
      && w1 == w.(inCall := true, firstContact := if w.firstContact == 0 then 1 else w.firstContact,
                  events := w.events + OnlineNotice(w))
      && OnlineStep(w1, true) == w1
  {
    if w.firstContact == 0 {
    } else {
    }
  }

  /** QUEUED shows the waiting message the first time only. */
  lemma QueuedReportedOnce(w: Wizard)
    ensures var w1 := QueuedStep(w, true);
      && w1 == w.(waitFirstTime := false,
                  events := w.events + (if w.waitFirstTime then [Notify(Queued, QueuedMsg)] else []))
      && QueuedStep(w1, true) == w1
  {
    if w.waitFirstTime {
    } else {
    }
  }

  /** Ends a text of the caption: char 13 is not part of the fragment separator. */
  lemma NlNotInMarker()
    ensures Nl !in Marker
  {
  }

  /** Reassembly leaves no fragment separator in the caption. */
  lemma CaptionHasNoMarker(text: string)
    ensures forall j :: !OccursAt(Caption(text), Marker, j)
  {
    NlNotInMarker();
    ReplaceAllRemovesMarker(text, Marker, Nl);
  }

  /**
   * ONLINE with RECEIVEDTEXT= past the start delivers the reassembled caption
   * as DATA, right after the first-contact report; the QUEUED test then looks
   * at the caption rather than the state value.
   */
  lemma CaptionDelivered(w: Wizard, packet: string, r: nat)
    requires r + 6 <= |packet|
    requires StartsWith(Upper(packet[r + 6..]), "ONLINE")
    requires KeyIndex(packet, "RECEIVEDTEXT=") > 0
    ensures var c := Caption(packet[KeyIndex(packet, "RECEIVEDTEXT=") + 13..]);
      var w2 := StateUpdate(w, packet, r);
      && Extends(w.(events := w.events + OnlineNotice(w) + [Notify(Data, c)]), w2)
      && w2.firstContact == (if w.firstContact == 0 then 1 else w.firstContact)
      && w2.waitFirstTime == (w.waitFirstTime && !StartsWith(Upper(c), "QUEUED"))
  {
    var t := KeyIndex(packet, "RECEIVEDTEXT=");
    var c := Caption(packet[t + 13..]);
    assert ReceivedText(packet) == Some(c);
    OnlineReportedOnce(w);
    var w1 := CaptionStep(OnlineStep(w, true), Some(c));
    var w0 := w.(events := w.events + OnlineNotice(w) + [Notify(Data, c)]);
    assert w1 == w0.(inCall := true, firstContact := w1.firstContact);
    var q := StartsWith(Upper(c), "QUEUED");
    var dis := StartsWith(Upper(c), "DISCONNECTED");
    assert StateUpdate(w, packet, r) == DisconnectedStep(QueuedStep(w1, q), dis);
    LaterStepsKeep(w1, q, dis);
    ExtendsTrans(w0, w1, DisconnectedStep(QueuedStep(w1, q), dis));
  }

  /** endCall() leaves the call and otherwise only adds to the log. */
  lemma EndCallKeeps(w: Wizard)
    ensures EndCall(w) == w.(inCall := false, events := EndCall(w).events)
  {
    if w.registered {
      assert EndCall(w) == Send(w.(inCall := false), Commands.Hangup);
    }
  }

  /** QUEUED and DISCONNECTED leave the first-contact count alone. */
  lemma LaterStepsKeep(w: Wizard, q: bool, dis: bool)
    ensures var w2 := DisconnectedStep(QueuedStep(w, q), dis);
      && Extends(w, w2)
      && w2.firstContact == w.firstContact
      && w2.waitFirstTime == (w.waitFirstTime && !q)
  {
    var w1 := QueuedStep(w, q);
    if q {
      QueuedReportedOnce(w);
    } else {
      assert w1 == w;
    }
    assert w1.firstContact == w.firstContact && w1.waitFirstTime == (w.waitFirstTime && !q);
    EndCallKeeps(w1);
    if dis {
      assert DisconnectedStep(w1, dis) == Note(EndCall(w1), Offline, "");
    } else {
      assert DisconnectedStep(w1, dis) == w1;
    }
  }

  /**
   * A poll packet whose STATE= sits at index 0 is not treated as a state
   * report (`r > 0`): apart from a possible ERROR report nothing changes.
   */
  lemma StateAtStartIgnored(w: Wizard, packet: string)
    requires HasPollData(packet) && KeyIndex(packet, "STATE=") == 0
    ensures PollBlock(w, packet).(events := w.events) == w
  {
  }

  // ---------------------------------------------------------------------
  // SendPoll
  // ---------------------------------------------------------------------

  /**
   * A poll carries firstPoll=1 on the first poll and firstOpContact=1 on the
   * first poll after the operator's first contact; dontPoll silences it.
   */
  lemma PollFlags(w: Wizard)
    ensures w.dontPoll ==> SendPoll(w) == w
    ensures !w.dontPoll ==>
      var w1 := SendPoll(w);
      && w1.events == w.events + [Sent(Commands.PollData(w.firstPoll, w.firstContact == 1), w.profile)]
      && !w1.firstPoll && w1.firstContact != 1
      && Commands.Text(Commands.PollData(w.firstPoll, w.firstContact == 1), w.profile) ==
         "myMethod=PollData" + ("||myID=" + (w.profile.session
           + ((if w.firstPoll then "||firstPoll=1" else "")
           + (if w.firstContact == 1 then "||firstOpContact=1" else ""))))
  {
    Commands.PollText(w.profile, w.firstPoll, w.firstContact == 1);
  }

  /** The poll after a poll carries neither flag. */
  lemma LaterPollsPlain(w: Wizard)
    requires !w.dontPoll
    ensures var w2 := SendPoll(SendPoll(w));
      w2.events == SendPoll(w).events + [Sent(Commands.PollData(false, false), w.profile)]
  {
  }

  // ---------------------------------------------------------------------
  // shutdown and handleState outside CONNECTION_LOST
  // ---------------------------------------------------------------------

  /**
   * shutdown(s) forgets the number and the registration and resets the
   * per-call flags, so that the next call's first poll is flagged again.
   */
  lemma ShutdownResets(w: Wizard, s: State)
    ensures var w2 := Shutdown(w, s);
      && w2.state == s && !w2.registered && w2.profile == w.profile.(number := "")
      && w2.firstContact == 0 && w2.firstPoll && w2.waitFirstTime && !w2.dontPoll
      && w2.events == w.events + [WanTimerStop, Notify(s, ""), CloseSocket]
      && SendPoll(w2).events == w2.events + [Sent(Commands.PollData(true, false), w2.profile)]
  {
  }

  /**
   * CALL_ENDED and CONNECT_FAILED clear the session and shut down; the
   * message handed to handleState is never reported. Every other state but
   * CONNECTION_LOST is only reported.
   */
  lemma RouteOutcomes(w: Wizard, s: State, msg: string)
    ensures (s == CallEnded || s == ConnectFailed) ==>
      Route(w, s, msg) == Shutdown(WithSession(w, ""), s) && Route(w, s, msg) == Route(w, s, "")
    ensures (s != CallEnded && s != ConnectFailed) ==>
      Route(w, s, msg) == w.(events := w.events + [Notify(s, msg)])
  {
  }

  // ---------------------------------------------------------------------
  // handleState(CONNECTION_LOST): the reconnect funnel
  // ---------------------------------------------------------------------

  /** After the call has ended a lost connection only stops the call again. */
  lemma LossAfterEnd(w: Wizard, msg: string, env: Retry)
    requires ValidRetry(env) && w.state == CallEnded
    ensures var w2 := LoseConnection(w, msg, env);
      && w2.state == CallEnded && !w2.inCall && !w2.registered
      && w2.attemptingRetry == w.attemptingRetry
      && w2.events == w.events + [Notify(CallEnded, msg), CloseSocket]
  {
  }

  /** While a retry is under way a further loss is ignored. */
  lemma LossWhileRetrying(w: Wizard, msg: string, env: Retry)
    requires ValidRetry(env) && w.state != CallEnded && w.attemptingRetry
    ensures LoseConnection(w, msg, env) == w
  {
  }

  /** Outside a call the threads quit and the loss is reported as the end of the call. */
  lemma LossOutsideCall(w: Wizard, msg: string, env: Retry)
    requires ValidRetry(env) && w.state != CallEnded && !w.attemptingRetry && !w.inCall
    ensures LoseConnection(w, msg, env) ==
      w.(events := w.events + [QuitThreads, Notify(CallEnded, LostMsg)])
  {
  }

  /** Past the attempt limit the call stops, and the retry guard is left set. */
  lemma RetryOverLimit(w: Wizard, msg: string, env: Retry)
    requires ValidRetry(env) && w.state != CallEnded && !w.attemptingRetry && w.inCall
    requires w.attempts > MaxAttempts
    ensures var w2 := LoseConnection(w, msg, env);
      && w2.state == CallEnded && !w2.inCall && w2.attemptingRetry && w2.attempts == w.attempts
      && w2.events == w.events + [Notify(CallEnded, msg), CloseSocket]
  {
  }

  /** An interrupted back-off stops the call, with the attempt counted and the guard set. */
  lemma RetryInterrupted(w: Wizard, msg: string, env: Retry)
    requires ValidRetry(env) && w.state != CallEnded && !w.attemptingRetry && w.inCall
    requires w.attempts <= MaxAttempts && env.interrupted
    ensures var w2 := LoseConnection(w, msg, env);
      && w2.state == CallEnded && !w2.inCall && w2.attemptingRetry && w2.attempts == w.attempts + 1
      && w2.events == w.events + [Sleep(GenerateInterval(w.attempts, env.rand)),
                                  Notify(CallEnded, msg), CloseSocket]
  {
  }

  /** What a reconnect that went through reports. */
  function Reported(w: Wizard): seq<Event>
  {
    if w.state == Registering then [Sent(Commands.Register, w.profile), Notify(Registering, "")]
    else [Notify(ConnectionLost, "")]
  }

  /**
   * A reconnect that goes through on the WebSocket: one back-off (shorter
   * than the attempt's cap, by GenerateInterval), the connection reopened, a repeated registration while
   * REGISTERING (otherwise CONNECTION_LOST with no message), and the guard cleared.
   */
  lemma RetrySucceeds(w: Wizard, msg: string, env: Retry)
    requires ValidRetry(env) && w.state != CallEnded && !w.attemptingRetry && w.inCall
    requires w.attempts <= MaxAttempts && !env.interrupted && !env.reopenFails && w.webSocket
    ensures var w2 := LoseConnection(w, msg, env);
      var ms := GenerateInterval(w.attempts, env.rand);
      w2 == w.(attempts := w.attempts + 1, events := w.events + [Sleep(ms), Reopen] + Reported(w))
  {
  }

  /**
   * On the plain socket the retry runs netConnect(), which already sends the
   * registration while REGISTERING, and then registers once more.
   */
  lemma SocketRetryRegistersTwice(w: Wizard, msg: string, env: Retry)
    requires ValidRetry(env) && w.state == Registering && !w.attemptingRetry && w.inCall
    requires w.attempts <= MaxAttempts && !env.interrupted && !env.reopenFails && !w.webSocket
    ensures var w2 := LoseConnection(w, msg, env);
      w2.events == w.events + [Sleep(GenerateInterval(w.attempts, env.rand)), QuitThreads, Reopen,
        Sent(Commands.Register, w.profile), Sent(Commands.Register, w.profile), Notify(Registering, "")]
  {
  }

  /** A reconnect whose reopening fails reports the failure message; the state stays. */
  lemma RetryFails(w: Wizard, msg: string, env: Retry)
    requires ValidRetry(env) && w.state != CallEnded && !w.attemptingRetry && w.inCall
    requires w.attempts <= MaxAttempts && !env.interrupted && env.reopenFails
    ensures var w2 := LoseConnection(w, msg, env);
      && w2.state == w.state && w2.inCall && !w2.attemptingRetry && w2.attempts == w.attempts + 1
      && w2.events[|w2.events| - 1] == Notify(ConnectFailed, FailureMsg)
  {
  }

  /** A good retry changes nothing but the attempt count and the log. */
  lemma GoodRetryKeepsState(w: Wizard, msg: string, env: Retry)
    requires ValidRetry(env) && w.state != CallEnded && !w.attemptingRetry && w.inCall
    requires w.attempts <= MaxAttempts && !env.interrupted && !env.reopenFails
    ensures var w2 := LoseConnection(w, msg, env);
      w2 == w.(attempts := w.attempts + 1, events := w2.events)
  {
    var w1 := Emit(w.(attemptingRetry := true, attempts := w.attempts + 1),
                   Sleep(GenerateInterval(w.attempts, env.rand)));
    ReopenedKeepsState(w1, false);
    var w3 := Reopened(w1, false);
    OutcomeKeepsState(w3, false);
    var w4 := RetryOutcome(w3, false);
    assert LoseConnection(w, msg, env) == w4.(attemptingRetry := false);
  }

  /** Reopening the connection changes nothing but the log. */
  lemma ReopenedKeepsState(w: Wizard, fails: bool)
    ensures Reopened(w, fails) == w.(events := Reopened(w, fails).events)
  {
    if w.webSocket {
      assert Reopened(w, fails) == Emit(w, Reopen);
    } else if fails {
      assert Reopened(w, fails) == Emit(Emit(w, QuitThreads), Reopen);
    } else {
      var w1 := Emit(w, QuitThreads);
      var w2 := Emit(w1, Reopen);
      var c := NetConnectCommand(w1.state);
      assert Reopened(w, fails) == NetConnect(w1);
      if c.Some? {
        assert NetConnect(w1) == Send(w2, c.value);
      } else {
        assert NetConnect(w1) == w2;
      }
    }
  }

  /** Reporting the outcome of a retry changes nothing but the log. */
  lemma OutcomeKeepsState(w: Wizard, fails: bool)
    ensures RetryOutcome(w, fails) == w.(events := RetryOutcome(w, fails).events)
  {
    if !fails && w.state == Registering {
      assert RetryOutcome(w, fails) == Note(Send(w, Commands.Register), Registering, "");
    }
  }

  /**
   * From startCall(), in a call, three losses are retried and the fourth
   * stops the call, leaving the retry guard set.
   */
  lemma {:induction false} ThreeRetriesThenStop(w: Wizard, msg: string, e1: Retry, e2: Retry, e3: Retry, e4: Retry)
    requires ValidRetry(e1) && ValidRetry(e2) && ValidRetry(e3) && ValidRetry(e4)
    requires !e1.interrupted && !e2.interrupted && !e3.interrupted
    requires !e1.reopenFails && !e2.reopenFails && !e3.reopenFails
    requires w.inCall && !w.attemptingRetry
    ensures var w1 := LoseConnection(StartCall(w), msg, e1);
      var w2 := LoseConnection(w1, msg, e2);
      var w3 := LoseConnection(w2, msg, e3);
      var w4 := LoseConnection(w3, msg, e4);
      && w3.state == Registering && w3.attempts == 4 && !w3.attemptingRetry
      && w4.state == CallEnded && w4.attemptingRetry
      && w4.events == w3.events + [Notify(CallEnded, msg), CloseSocket]
  {
    var w0 := StartCall(w);
    GoodRetryKeepsState(w0, msg, e1);
    var w1 := LoseConnection(w0, msg, e1);
    GoodRetryKeepsState(w1, msg, e2);
    var w2 := LoseConnection(w1, msg, e2);
    GoodRetryKeepsState(w2, msg, e3);
    var w3 := LoseConnection(w2, msg, e3);
    RetryOverLimit(w3, msg, e4);
  }

  /**
   * Once a call has been stopped past the attempt limit the guard is never
   * cleared: a new startCall() leaves it set, and every later loss is ignored.
   */
  lemma GuardStaysSet(w: Wizard, msg: string, env: Retry, msg2: string, env2: Retry)
    requires ValidRetry(env) && ValidRetry(env2)
    requires w.state != CallEnded && !w.attemptingRetry && w.inCall && w.attempts > MaxAttempts
    ensures var w1 := StartCall(LoseConnection(w, msg, env));
      w1.attemptingRetry && LoseConnection(w1, msg2, env2) == w1
  {
    RetryOverLimit(w, msg, env);
  }

  // ---------------------------------------------------------------------
  // Values that keep their key
  // ---------------------------------------------------------------------

  /** sendCommand reports TYPE= and the VOLUME= value with its key still in front. */
  lemma VolumeKeepsKey(w: Wizard, packet: string)
    requires StartsWith(Upper(packet), "MYMETHOD=SENDCOMMAND") && Contains(Upper(packet), "VOLUME=")
    ensures var w2 := SendCommandBlock(w, packet);
      var v := FieldWithKey(packet, "VOLUME=").value;
      && w2.events == w.events + [Notify(Command, OrEmpty(Field(packet, "TYPE=")) + Sep + v)]
      && |v| >= 7 && Upper(v[..7]) == "VOLUME="
  {
    FieldWithKeyKeepsKey(packet, "VOLUME=");
  }

  /** startSIPSession reports SIPLOCAL= and SIPREMOTE= with their keys in front. */
  lemma SipSessionKeepsKeys(w: Wizard, packet: string, name: string, s: State)
    requires Contains(Upper(packet), name)
    requires Contains(Upper(packet), "SIPLOCAL=") && Contains(Upper(packet), "SIPREMOTE=")
    ensures var l := FieldWithKey(packet, "SIPLOCAL=").value;
      var r := FieldWithKey(packet, "SIPREMOTE=").value;
      && SipSessionBlock(w, packet, name, s).events == w.events + [Notify(s, l + Sep + r)]
      && |l| >= 9 && Upper(l[..9]) == "SIPLOCAL="
      && |r| >= 10 && Upper(r[..10]) == "SIPREMOTE="
  {
    FieldWithKeyKeepsKey(packet, "SIPLOCAL=");
    FieldWithKeyKeepsKey(packet, "SIPREMOTE=");
  }

  // ---------------------------------------------------------------------
  // SendCommand framing
  // ---------------------------------------------------------------------

  /**
   * On the WebSocket an ASCII command string goes out as text ending in one
   * NUL; on the socket the queued bytes end in two zeros; with neither the
   * packet is dropped.
   */
  lemma FrameDelivery(hasOutput: bool, text: string)
    ensures Wire.IsAscii(text) ==> Frame(true, hasOutput, text) == WebSocketText(text + "\0")
    ensures hasOutput ==>
      var b := Frame(false, true, text).bytes;
      |b| == |text| + 2 && b[|text|] == 0 && b[|text| + 1] == 0
    ensures Frame(false, false, text) == Dropped
  {
    if Wire.IsAscii(text) {
      Wire.PacketText(text);
    }
    Wire.PacketShape(text);
  }
}
