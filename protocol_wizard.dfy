/**
 * ProtocolWizard as an object: the wizard's variables are fields that its
 * methods update in place, and each method is proved to leave the object in
 * the state the matching Session function computes from the state before
 * the call.
 */
module Protocol {
  import opened Wrappers
  import opened JavaText
  import opened CaptionState
  import Commands
  import opened Session

  /**
   * The reassembly loop of Handlei711State: while ":--:--:" occurs, the
   * first occurrence is replaced by char 13.
   */
  method ReassembleCaption(text: string) returns (d: string)
    ensures d == Caption(text)
    ensures forall j :: !OccursAt(d, Marker, j)
  {
    assert Nl !in Marker;
    var rest := "";
    d := text;
    var r := IndexOf(d, Marker);
    while r >= 0
      invariant r == IndexOf(d, Marker)
      invariant ReplaceAll(d, Marker, Nl) == Caption(text)
      decreases |d|
    {
      IndexOfIsFirstAt(d, Marker);
      ReplaceFirstStep(d, Marker, Nl, r);
      if |d| >= r + 7 {
        rest := d[r + 7..];
      }
      d := d[..r] + ([Nl] + rest);
      r := IndexOf(d, Marker);
    }
    IndexOfFirst(d, Marker);
    ReplaceAllWithoutMarker(d, Marker, Nl);
  }

  class ProtocolWizard {
    var profile: Commands.Profile
    var opID: string
    var state: State
    var registered: bool
    var inCall: bool
    var firstContact: int
    var firstPoll: bool
    var waitFirstTime: bool
    var dontPoll: bool
    var attempts: nat
    var attemptingRetry: bool
    var retryInterval: int
    var logEvents: int
    var webSocket: bool
    /** Callbacks, packets handed to SendCommand, timers and connections, in order. */
    var events: seq<Event>

    /** The wizard's variables as a value. */
    function Snap(): Wizard
      reads this
    {
      Wizard(profile, opID, state, registered, inCall, firstContact, firstPoll, waitFirstTime,
             dontPoll, attempts, attemptingRetry, retryInterval, logEvents, webSocket, events)
    }

    constructor ()
      ensures Snap() == Initial()
    {
      profile := Commands.Profile("", "", "", DefaultUid, "", "", "", "", "", "", "", "", "", "", "");
      opID := "";
      state := Onhook;
      registered := false;
      inCall := false;
      firstContact := 0;
      firstPoll := true;
      waitFirstTime := true;
      dontPoll := false;
      attempts := 0;
      attemptingRetry := false;
      retryInterval := 5000;
      logEvents := 0;
      webSocket := true;
      events := [];
    }

    method Record(e: Event)
      modifies this
      ensures Snap() == Emit(old(Snap()), e)
    {
      events := events + [e];
    }

    /** callback().processState(s, msg). */
    method Report(s: State, msg: string)
      modifies this
      ensures Snap() == Note(old(Snap()), s, msg)
    {
      Record(Notify(s, msg));
    }

    /** SendCommand with the packet built for `c` from the current session values. */
    method SendCommand(c: Commands.Command)
      modifies this
      ensures Snap() == Send(old(Snap()), c)
    {
      Record(Sent(c, profile));
    }

    /** logEvent(event): echoed to the server only while logEvents() > 0. */
    method LogEvent(event: string)
      modifies this
      ensures Snap() == Session.LogEvent(old(Snap()), event)
    {
      if logEvents > 0 {
        SendCommand(Commands.LogEvent(event));
      }
    }

    method EndCall()
      modifies this
      ensures Snap() == Session.EndCall(old(Snap()))
    {
      inCall := false;
      if registered {
        SendCommand(Commands.Hangup);
      }
    }

    method StopCall(msg: string)
      modifies this
      ensures Snap() == Session.StopCall(old(Snap()), msg)
    {
      inCall := false;
      registered := false;
      state := CallEnded;
      Report(CallEnded, msg);
      Record(CloseSocket);
    }

    method Shutdown(s: State)
      modifies this
      ensures Snap() == Session.Shutdown(old(Snap()), s)
    {
      Record(WanTimerStop);
      ForgetCall(s);
      Report(s, "");
      ResetPolling();
      Record(CloseSocket);
    }

    method ForgetCall(s: State)
      modifies this
      ensures Snap() == CallForgotten(old(Snap()), s)
    {
      profile := profile.(number := "");
      registered := false;
      state := s;
    }

    method ResetPolling()
      modifies this
      ensures Snap() == PollingReset(old(Snap()))
    {
      firstContact := 0;
      waitFirstTime := true;
      firstPoll := true;
      dontPoll := false;
    }

    method StartCall()
      modifies this
      ensures Snap() == Session.StartCall(old(Snap()))
    {
      attempts := 1;
      state := Registering;
      Report(Registering, "Connecting...");
      Record(Connect(Registering));
    }

    method InitiateCall()
      modifies this
      ensures Snap() == Session.InitiateCall(old(Snap()))
    {
      state := Calling;
      Report(Calling, "Placing Call");
      SendCommand(Commands.StartRelay);
    }

    method SendPoll()
      modifies this
      ensures Snap() == Session.SendPoll(old(Snap()))
    {
      if !dontPoll {
        var poll := Commands.PollData(firstPoll, firstContact == 1);
        if firstPoll {
          firstPoll := false;
        }
        if firstContact == 1 {
          firstContact := 2;
        }
        SendCommand(poll);
      }
    }

    /** netConnect() on an open connection: the request for the current state. */
    method NetConnect()
      modifies this
      ensures Snap() == Session.NetConnect(old(Snap()))
    {
      Record(Session.Reopen);
      var c := NetConnectCommand(state);
      if c.Some? {
        SendCommand(c.value);
      }
    }

    /** handleState(s, msg) with the outcome of the reconnect attempt in `env`. */
    method HandleState(s: State, msg: string, env: Retry)
      requires ValidRetry(env)
      modifies this
      ensures Snap() == Session.HandleState(old(Snap()), s, msg, env)
    {
      if s == ConnectionLost {
        LoseConnection(msg, env);
      } else {
        Route(s, msg);
      }
    }

    /** The STATE_CONNECTION_LOST case of handleState. */
    method LoseConnection(msg: string, env: Retry)
      requires ValidRetry(env)
      modifies this
      ensures Snap() == Session.LoseConnection(old(Snap()), msg, env)
    {
      ghost var w := Snap();
      if state == CallEnded {
        StopCall(msg);
        return;
      }
      if attemptingRetry {
        return;
      }
      attemptingRetry := true;
      if !inCall {
        Record(QuitThreads);
        Report(CallEnded, LostMsg);
        attemptingRetry := false;
        assert Snap() == LostOutsideCall(w);
        return;
      }
      if attempts > MaxAttempts {
        StopCall(msg);
        return;
      }
      Retry(msg, env);
    }

    /** In a call with attempts left, the guard set: back off, reconnect and report the outcome. */
    method Retry(msg: string, env: Retry)
      requires ValidRetry(env)
      modifies this
      ensures Snap() == Session.Reconnect(old(Snap()), msg, env)
    {
      BackOff(env.rand);
      AfterSleep(msg, env.interrupted, env.reopenFails);
    }

    /** An interrupted sleep stops the call; otherwise the connection is reopened. */
    method AfterSleep(msg: string, interrupted: bool, fails: bool)
      modifies this
      ensures Snap() == Woken(old(Snap()), msg, interrupted, fails)
    {
      if interrupted {
        StopCall(msg);
      } else {
        Reopen(fails);
      }
    }

    /** `attempts++` and the sleep for generateInterval(attempts). */
    method BackOff(rand: nat)
      requires rand < RandomScale
      modifies this
      ensures Snap() == Slept(old(Snap()), rand)
    {
      var time := GenerateInterval(attempts, rand);
      attempts := attempts + 1;
      Record(Sleep(time));
    }

    /** The reconnection and the state it reports; then the guard is cleared. */
    method Reopen(fails: bool)
      modifies this
      ensures Snap() == RetryOutcome(Reopened(old(Snap()), fails), fails).(attemptingRetry := false)
    {
      ReopenConnection(fails);
      ReportRetry(fails);
      attemptingRetry := false;
    }

    /** The state the retry reports, with a new registration when it was registering. */
    method ReportRetry(fails: bool)
      modifies this
      ensures Snap() == RetryOutcome(old(Snap()), fails)
    {
      if fails {
        Report(ConnectFailed, FailureMsg);
      } else if state == Registering {
        SendCommand(Commands.Register);
        Report(Registering, "");
      } else {
        Report(ConnectionLost, "");
      }
    }

    /** The retry's connect(), or the threads quitting and netConnect(). */
    method ReopenConnection(fails: bool)
      modifies this
      ensures Snap() == Reopened(old(Snap()), fails)
    {
      if webSocket {
        Record(Session.Reopen);
      } else {
        Record(QuitThreads);
        if fails {
          Record(Session.Reopen);
        } else {
          NetConnect();
        }
      }
    }

    /** The CONNECT_FAILED / CALL_ENDED cleanup, or the state passed on. */
    method Route(s: State, msg: string)
      modifies this
      ensures Snap() == Session.Route(old(Snap()), s, msg)
    {
      if s == ConnectFailed || s == CallEnded {
        profile := profile.(session := "");
        Shutdown(s);
      } else {
        Report(s, msg);
      }
    }

    /** Handlei711State(packet, r), `r` being where "STATE=" was found. */
    method HandleStateValue(packet: string, r: nat)
      requires r + 6 <= |packet|
      modifies this
      ensures Snap() == StateUpdate(old(Snap()), packet, r)
    {
      var d := packet[r + 6..];
      var caption := GoOnline(packet, StartsWith(Upper(d), "ONLINE"));
      if caption.Some? {
        d := caption.value;
      }
      Queue(StartsWith(Upper(d), "QUEUED"));
      Disconnect(StartsWith(Upper(d), "DISCONNECTED"));
    }

    /** ONLINE: in a call, the first contact reported once, and the caption delivered. */
    method GoOnline(packet: string, online: bool) returns (caption: Option<string>)
      modifies this
      ensures caption == if online then ReceivedText(packet) else None
      ensures Snap() == CaptionStep(OnlineStep(old(Snap()), online), caption)
    {
      caption := None;
      if online {
        inCall := true;
        if firstContact == 0 {
          firstContact := 1;
          Report(Online, "");
        }
        var t := KeyIndex(packet, "RECEIVEDTEXT=");
        if t > 0 {
          var text := ReassembleCaption(packet[t + 13..]);
          caption := Some(text);
          Report(Data, text);
        }
      }
    }

    /** QUEUED: the waiting message only the first time. */
    method Queue(queued: bool)
      modifies this
      ensures Snap() == QueuedStep(old(Snap()), queued)
    {
      if queued {
        if waitFirstTime {
          Report(Queued, QueuedMsg);
        }
        waitFirstTime := false;
      }
    }

    /** DISCONNECTED: endCall(), then OFFLINE. */
    method Disconnect(disconnected: bool)
      modifies this
      ensures Snap() == DisconnectedStep(old(Snap()), disconnected)
    {
      if disconnected {
        EndCall();
        Report(Offline, "");
      }
    }

    method StateIfFound(packet: string)
      modifies this
      ensures Snap() == Session.StateIfFound(old(Snap()), packet)
    {
      var r := KeyIndex(packet, "STATE=");
      if r > 0 {
        HandleStateValue(packet, r);
      }
    }

    method ErrorCode(packet: string)
      modifies this
      ensures Snap() == ErrorCodeBlock(old(Snap()), packet)
    {
      var code := Field(packet, "ERRCODE=");
      if code.Some? {
        var m := RestAfter(packet, "ERRMSG=");
        if m.Some? {
          Record(Fault(code.value, m.value));
        } else {
          m := RestAfter(packet, "ERRMESSAGE=");
          if m.Some? {
            Record(Fault(code.value, m.value));
          }
        }
      }
    }

    method Poll(packet: string)
      modifies this
      ensures Snap() == PollBlock(old(Snap()), packet)
    {
      if HasPollData(packet) {
        StateIfFound(packet);
        var m := RestAfter(packet, "ERRMSG=");
        if m.Some? {
          Report(Error, m.value);
        }
      }
    }

    method Resume(packet: string)
      modifies this
      ensures Snap() == ResumeBlock(old(Snap()), packet)
    {
      if Contains(Upper(packet), "RESUME=") {
        Route(CallEnded, "resume is disabled");
      }
    }

    /** A number from the packet stored in logEvents or, as milliseconds, in retryInterval. */
    method StoreNumber(v: Option<string>, retry: bool) returns (flow: Flow)
      modifies this
      ensures Step(Snap(), flow) == SetNumber(old(Snap()), v, retry)
    {
      flow := Completed;
      if v.Some? {
        var n := ParseInt(v.value);
        if n.None? {
          return Threw(BadNumber);
        }
        if retry {
          retryInterval := Wrap32(n.value * 1000);
        } else {
          logEvents := n.value;
        }
      }
    }

    method Register(packet: string, id: string) returns (flow: Flow)
      modifies this
      ensures Step(Snap(), flow) == Registered(old(Snap()), packet, id)
    {
      profile := profile.(session := id);
      flow := StoreLimits(packet);
      if flow.Completed? {
        Accept();
      }
    }

    /** The LOG= and RETRYINTERVAL= values, stopping at the first bad number. */
    method StoreLimits(packet: string) returns (flow: Flow)
      modifies this
      ensures Step(Snap(), flow) == Limits(old(Snap()), packet)
    {
      flow := StoreNumber(FieldPastStart(packet, "LOG="), false);
      if flow.Completed? {
        flow := StoreNumber(FieldPastStart(packet, "RETRYINTERVAL="), true);
      }
    }

    method Accept()
      modifies this
      ensures Snap() == Accepted(old(Snap()))
    {
      state := Onhook;
      registered := true;
      Report(Onhook, "");
      InitiateCall();
    }

    method RegReturn(packet: string) returns (flow: Flow)
      modifies this
      ensures Step(Snap(), flow) == RegReturnBlock(old(Snap()), packet)
    {
      var r := KeyIndex(packet, "REGRETURN=");
      if r < 0 {
        return Completed;
      }
      var d := packet[r + 10..];
      var e := IndexOf(d, Sep);
      if e < 0 {
        return Threw(OutOfBounds);   // d.substring(0, -1)
      }
      var code := OrZero(ParseInt(d[..e]));
      assert code == OrZero(RegCode(packet));
      PollingOff(packet);
      flow := Decide(packet, code);
    }

    method PollingOff(packet: string)
      modifies this
      ensures Snap() == PollingIf(old(Snap()), packet)
    {
      if KeyIndex(packet, "POLLING=0") > 0 {
        dontPoll := true;
      }
    }

    /** Registration on code 1 with a MYID=, otherwise the call ends with the error message. */
    method Decide(packet: string, code: int) returns (flow: Flow)
      modifies this
      ensures Step(Snap(), flow) == RegDecision(old(Snap()), packet, code)
    {
      var id := FieldPastStart(packet, "MYID=");
      if id.Some? && code == 1 {
        flow := Register(packet, id.value);
      } else {
        Route(CallEnded, OrEmpty(FieldPastStart(packet, "ERRMESSAGE=")));
        flow := Returned;
      }
    }

    method RelayStart(packet: string) returns (flow: Flow)
      modifies this
      ensures Step(Snap(), flow) == RelayStartBlock(old(Snap()), packet)
    {
      ghost var w := Snap();
      var d := Field(packet, "RELAYSTART=");
      if d.None? {
        return Completed;
      }
      var code := OrZero(ParseInt(d.value));
      StateIfFound(packet);
      ghost var w0 := Snap();
      var id := FieldPastStart(packet, "MYID=");
      if id.Some? {
        profile := profile.(session := id.value);
      }
      assert Snap() == SessionIf(w0, id);
      flow := Answer(code > 0, OrEmpty(RestAfter(packet, "ERRMESSAGE=")));
    }

    /** RELAYSTART= above zero: poll, CONNECTED, and the WAN timer; otherwise the call ends. */
    method Answer(answered: bool, msg: string) returns (flow: Flow)
      modifies this
      ensures Step(Snap(), flow) == RelayAnswer(old(Snap()), answered, msg)
    {
      ghost var w := Snap();
      if answered {
        SendPoll();
        state := Connected;
        assert Snap() == Session.SendPoll(w).(state := Connected);
        Report(Connected, "Call answered");
        Record(WanTimerStart);
        flow := Completed;
      } else {
        Route(CallEnded, msg);
        flow := Returned;
      }
    }

    method SwitchOp(packet: string)
      modifies this
      ensures Snap() == SwitchOpBlock(old(Snap()), packet)
    {
      if StartsWith(Upper(packet), "MYMETHOD=SWITCHOP") {
        var id := Field(packet, "SESSIONID=");
        if id.Some? {
          profile := profile.(session := id.value);
        }
        var op := Field(packet, "OPID=");
        if op.Some? {
          opID := op.value;
          Report(Online, op.value);
        }
      }
    }

    method StatusUpdate(packet: string)
      modifies this
      ensures Snap() == StatusUpdateBlock(old(Snap()), packet)
    {
      if StartsWith(Upper(packet), "MYMETHOD=STATUSUPDATE") {
        Report(StatusEvent(Field(packet, "TYPE=")), OrEmpty(Field(packet, "MESSAGE=")));
      }
    }

    method ReportIf(s: State, value: Option<string>)
      modifies this
      ensures Snap() == NoteIf(old(Snap()), s, value)
    {
      if value.Some? {
        Report(s, value.value);
      }
    }

    method StateChange(packet: string)
      modifies this
      ensures Snap() == StateChangeBlock(old(Snap()), packet)
    {
      if !StartsWith(Upper(packet), "MYMETHOD=STATECHANGE") {
        return;
      }
      ghost var w := Snap();
      var remote := Field(packet, "SIPREMOTE=");
      var local := Field(packet, "SIPLOCAL=");
      var op := Field(packet, "OP=");
      if op.Some? {
        opID := op.value;
      }
      ReportIf(Command, Prefixed("AGENT=", Field(packet, "OPNUMBER=")));
      ReportIf(Command, Prefixed("AGENT2=", Field(packet, "OPNUMBER2=")));
      ReportIf(SipRemote, remote);
      ReportIf(SipLocal, local);
      assert Snap() == NoteIf(NoteIf(NoteIf(NoteIf(SetOperator(w, op), Command,
        Prefixed("AGENT=", Field(packet, "OPNUMBER="))), Command,
        Prefixed("AGENT2=", Field(packet, "OPNUMBER2="))), SipRemote, remote), SipLocal, local);
      OperatorOnlineOrQueued(Field(packet, "STATE="), remote.Some? || local.Some?);
    }

    method OperatorOnlineOrQueued(s: Option<string>, delayOnline: bool)
      modifies this
      ensures Snap() == OperatorState(old(Snap()), s, delayOnline)
    {
      if s.Some? {
        if Upper(s.value) == "ONLINE" {
          inCall := true;
          if !delayOnline && firstContact == 0 {
            firstContact := 1;
            Report(Online, opID);
          }
        } else if Upper(s.value) == "QUEUED" {
          Report(Waiting, opID);
        }
      }
    }

    method SendText(packet: string)
      modifies this
      ensures Snap() == SendTextBlock(old(Snap()), packet)
    {
      if StartsWith(Upper(packet), "MYMETHOD=SENDTEXT") {
        ReportIf(TextEvent(OrEmpty(Field(packet, "TYPE="))), Field(packet, "TEXT="));
      }
    }

    method SendCommandNotice(packet: string)
      modifies this
      ensures Snap() == SendCommandBlock(old(Snap()), packet)
    {
      if StartsWith(Upper(packet), "MYMETHOD=SENDCOMMAND") {
        Report(Command, OrEmpty(Field(packet, "TYPE=")) + Sep + OrEmpty(FieldWithKey(packet, "VOLUME=")));
      }
    }

    method SipSession(packet: string, name: string, s: State)
      modifies this
      ensures Snap() == SipSessionBlock(old(Snap()), packet, name, s)
    {
      if Contains(Upper(packet), name) {
        Report(s, OrEmpty(FieldWithKey(packet, "SIPLOCAL=")) + Sep + OrEmpty(FieldWithKey(packet, "SIPREMOTE=")));
      }
    }

    method StopSip(packet: string)
      modifies this
      ensures Snap() == StopSipBlock(old(Snap()), packet)
    {
      if Contains(Upper(packet), "MYMETHOD=STOPSIPSESSION") {
        Report(SessionSipStop, "");
      }
    }

    method StopRelay(packet: string)
      modifies this
      ensures Snap() == StopRelayBlock(old(Snap()), packet)
    {
      if Contains(Upper(packet), "STOPRELAY=") {
        inCall := false;
        Route(CallEnded, "");
      }
    }

    method TestCall(packet: string)
      modifies this
      ensures Snap() == TestCallBlock(old(Snap()), packet)
    {
      if Contains(Upper(packet), "MYMETHOD=TESTCALL") {
        ReportIf(SipRemote, Field(packet, "SIPDIAL="));
      }
    }

    method EndTestCall(packet: string)
      modifies this
      ensures Snap() == EndTestCallBlock(old(Snap()), packet)
    {
      if Contains(Upper(packet), "MYMETHOD=ENDTESTCALL") {
        inCall := false;
        Route(CallEnded, "");
      }
    }

    /** Handlei711InboundPacket(packet): every block in turn, until one returns or throws. */
    method HandleInboundPacket(packet: string) returns (flow: Flow)
      modifies this
      ensures Step(Snap(), flow) == Inbound(old(Snap()), packet)
    {
      LogEvent(packet);
      if HasKeepAlive(packet) {
        Record(WanTimerStop);
        Record(WanTimerStart);
        return Returned;
      }
      ErrorCode(packet);
      Poll(packet);
      Resume(packet);
      flow := RegReturn(packet);
      if !flow.Completed? {
        return;
      }
      flow := RelayStart(packet);
      if !flow.Completed? {
        return;
      }
      ghost var w3 := Snap();
      SwitchOp(packet);
      StatusUpdate(packet);
      StateChange(packet);
      SendText(packet);
      SendCommandNotice(packet);
      SipSession(packet, "MYMETHOD=STARTSIPSESSION", SessionSipEstablished);
      SipSession(packet, "MYMETHOD=RESTARTSIPSESSION", SessionSipRestart);
      StopSip(packet);
      StopRelay(packet);
      TestCall(packet);
      EndTestCall(packet);
      assert Snap() == MethodBlocks(w3, packet);
    }
  }
}
