/**
 * The captioning session state machine of ProtocolWizard, as pure
 * functions from the wizard's variables before an operation to its
 * variables after it. What the wizard does to the outside world (callbacks,
 * packets handed to SendCommand, timers, connections) is appended to an
 * event log, in order.
 */
module Session {
  import opened Wrappers
  import opened JavaText
  import opened CaptionState
  import Commands
  import Wire

  // ---------------------------------------------------------------------
  // Constants
  // ---------------------------------------------------------------------

  /** The fragment separator inside received caption text. */
  const Marker := ":--:--:"
  /** `static final char nl = 13`: what each fragment separator becomes. */
  const Nl: char := 13 as char
  const FailureMsg := "Sorry, we're experiencing technical difficulties, please try your ClearCaptions call again"
  const LostMsg := "Captioner lost..."
  const QueuedMsg := "Waiting for an available captioner..."
  const MaxAttempts := 3
  /** The unique identifier the constructor installs with `ID(...)`. */
  const DefaultUid := "EPAAKNVVBPHJ4P7YHDAB97VK24787V3"

  // ---------------------------------------------------------------------
  // The wizard's variables and what it does to the outside world
  // ---------------------------------------------------------------------

  datatype Event =
    | Notify(state: State, msg: string)   // callback().processState(state, msg)
    | Fault(code: string, msg: string)    // callback().processError(code, msg)
    | Sent(command: Commands.Command, values: Commands.Profile)
                                          // SendCommand with the packet of Text(command, values)
    | WanTimerStart
    | WanTimerStop
    | Connect(target: State)              // connect(state, host, port)
    | Reopen                              // the retry's connect() or netConnect()
    | QuitThreads                         // reader, writer and stream threads told to quit
    | CloseSocket                         // closeSocket()
    | Sleep(ms: int)                      // Thread.sleep before a retry

  datatype Wizard = Wizard(
    profile: Commands.Profile,   // myID, mNumberToCall and the other builder inputs
    opID: string,
    state: State,                // mState
    registered: bool,            // mRegistered
    inCall: bool,
    firstContact: int,
    firstPoll: bool,
    waitFirstTime: bool,
    dontPoll: bool,
    attempts: nat,
    attemptingRetry: bool,
    retryInterval: int,
    logEvents: int,              // logstuff
    webSocket: bool,             // transportType() == WEBSOCKET
    events: seq<Event>)

  /** What the constructor leaves behind. */
  function Initial(): (w: Wizard)
    ensures w.state == Onhook && !w.registered && !w.inCall && !w.attemptingRetry
    ensures w.firstContact == 0 && w.firstPoll && w.waitFirstTime && !w.dontPoll
    ensures w.profile.session == "" && w.logEvents == 0 && w.retryInterval == 5000
    ensures w.webSocket && w.events == []
  {
    Wizard(
      Commands.Profile("", "", "", DefaultUid, "", "", "", "", "", "", "", "", "", "", ""),
      "", Onhook, false, false, 0, true, true, false, 0, false, 5000, 0, true, [])
  }

  /** `w2` is `w1` with events appended (and possibly other variables changed). */
  predicate Extends(w1: Wizard, w2: Wizard)
  {
    w1.events <= w2.events
  }

  lemma ExtendsTrans(w1: Wizard, w2: Wizard, w3: Wizard)
    requires Extends(w1, w2) && Extends(w2, w3)
    ensures Extends(w1, w3)
  {
    assert w3.events[..|w1.events|] == w3.events[..|w2.events|][..|w1.events|];
  }

  function Emit(w: Wizard, e: Event): (w2: Wizard)
    ensures Extends(w, w2) && w2 == w.(events := w.events + [e])
  {
    w.(events := w.events + [e])
  }

  function Note(w: Wizard, s: State, msg: string): (w2: Wizard)
    ensures Extends(w, w2) && w2 == w.(events := w.events + [Notify(s, msg)])
  {
    Emit(w, Notify(s, msg))
  }

  /** Build the command from the current session values and hand it to SendCommand. */
  function Send(w: Wizard, c: Commands.Command): (w2: Wizard)
    ensures Extends(w, w2)
  {
    Emit(w, Sent(c, w.profile))
  }

  function WithSession(w: Wizard, id: string): Wizard
  {
    w.(profile := w.profile.(session := id))
  }

  function OrEmpty(o: Option<string>): string
  {
    if o.Some? then o.value else ""
  }

  /** `code = Integer.parseInt(d)` inside a try whose catch leaves the code 0. */
  function OrZero(o: Option<int>): int
  {
    if o.Some? then o.value else 0
  }

  // ---------------------------------------------------------------------
  // SendCommand framing
  // ---------------------------------------------------------------------

  datatype Delivery =
    | WebSocketText(text: string)   // webClient.send(new String(data))
    | Enqueued(bytes: seq<Wire.byte>) // written to the writer queue
    | Dropped                       // no WebSocket client and no output stream

  /** Where SendCommand puts the packet built from `text`. */
  function Frame(hasWebClient: bool, hasOutput: bool, text: string): (d: Delivery)
  {
    if hasWebClient then WebSocketText(Wire.Decode(Wire.Packet(text)))
    else if hasOutput then Enqueued(Wire.Packet(text) + [0])
    else Dropped
  }

  // ---------------------------------------------------------------------
  // Lifecycle
  // ---------------------------------------------------------------------

  /** The echo of an inbound packet to the server: only while logEvents() > 0. */
  function Echo(w: Wizard, packet: string): seq<Event>
  {
    if w.logEvents > 0 then [Sent(Commands.LogEvent(packet), w.profile)] else []
  }

  /** logEvent(event). */
  function LogEvent(w: Wizard, event: string): (w2: Wizard)
    ensures w2 == w.(events := w.events + Echo(w, event))
  {
    if w.logEvents > 0 then Send(w, Commands.LogEvent(event)) else w
  }

  /** endCall(): leave the call and hang up if registered. */
  function EndCall(w: Wizard): (w2: Wizard)
    ensures Extends(w, w2)
  {
    var w1 := w.(inCall := false);
    if w.registered then Send(w1, Commands.Hangup) else w1
  }

  /** stopCall(msg). */
  function StopCall(w: Wizard, msg: string): (w2: Wizard)
    ensures Extends(w, w2)
  {
    var w1 := w.(inCall := false, registered := false, state := CallEnded);
    Emit(Note(w1, CallEnded, msg), CloseSocket)
  }

  /** shutdown(state). */
  function Shutdown(w: Wizard, s: State): (w2: Wizard)
    ensures Extends(w, w2)
  {
    Emit(PollingReset(Note(CallForgotten(Emit(w, WanTimerStop), s), s, "")), CloseSocket)
  }

  /** The number to call cleared, unregistered, and in state `s`. */
  function CallForgotten(w: Wizard, s: State): Wizard
  {
    w.(profile := w.profile.(number := ""), registered := false, state := s)
  }

  /** Polling back to its state before the first contact. */
  function PollingReset(w: Wizard): Wizard
  {
    w.(firstContact := 0, waitFirstTime := true, firstPoll := true, dontPoll := false)
  }

  /** startCall(). */
  function StartCall(w: Wizard): (w2: Wizard)
    ensures Extends(w, w2)
  {
    var w1 := w.(attempts := 1, state := Registering);
    Emit(Note(w1, Registering, "Connecting..."), Connect(Registering))
  }

  /** initiateCall(): CALLING, then the StartRelay request. */
  function InitiateCall(w: Wizard): (w2: Wizard)
    ensures Extends(w, w2)
  {
    Send(Note(w.(state := Calling), Calling, "Placing Call"), Commands.StartRelay)
  }

  /** SendPoll(). */
  function SendPoll(w: Wizard): (w2: Wizard)
    ensures Extends(w, w2)
  {
    if w.dontPoll then w
    else
      var w1 := w.(firstPoll := false,
                   firstContact := if w.firstContact == 1 then 2 else w.firstContact);
      Send(w1, Commands.PollData(w.firstPoll, w.firstContact == 1))
  }

  /** The request netConnect() sends for the state the connection was opened for. */
  function NetConnectCommand(s: State): Option<Commands.Command>
  {
    match s
    case WaitingForIncomingCall => Some(Commands.AcceptInbound)
    case Answer => Some(Commands.Answer)
    case Ignore => Some(Commands.Ignore)
    case Registering => Some(Commands.Register)
    case Call => Some(Commands.EasyCall)
    case CancelCall => Some(Commands.Hangup)
    case SessionCallActive => Some(Commands.CallActive)
    case SessionCallEnd => Some(Commands.CallEnd)
    case SessionSipEstablished => Some(Commands.SipActive)
    case SessionSipRestart => Some(Commands.SipRestart)
    case SessionSipFailed => Some(Commands.SipFailed)
    case StartCaptions => Some(Commands.StartCaptions)
    case Test => Some(Commands.TestCall)
    case _ => None
  }

  /** The dispatch at the end of netConnect(), on an open connection. */
  function NetConnect(w: Wizard): (w2: Wizard)
    ensures Extends(w, w2)
  {
    var w1 := Emit(w, Reopen);
    var c := NetConnectCommand(w.state);
    if c.Some? then Send(w1, c.value) else w1
  }

  // ---------------------------------------------------------------------
  // generateInterval
  // ---------------------------------------------------------------------

  function Pow2(n: nat): (p: nat)
    ensures p >= 1
  {
    if n == 0 then 1 else 2 * Pow2(n - 1)
  }

  /** The largest back-off before retry `attempt`: (2^attempt - 1) seconds, at most 30. */
  function IntervalCap(attempt: nat): (cap: nat)
    ensures cap <= 30000
  {
    var m := (Pow2(attempt) - 1) * 1000;
    if m > 30000 then 30000 else m
  }

  /** A double of Math.random() is `rand / 2^53`. */
  const RandomScale: nat := 0x20_0000_0000_0000

  /** `(long) (Math.random() * maxInterval)`, with Math.random() = rand / 2^53. */
  function GenerateInterval(attempt: nat, rand: nat): (ms: int)
    requires rand < RandomScale
    ensures 0 <= ms <= IntervalCap(attempt)
    ensures IntervalCap(attempt) > 0 ==> ms < IntervalCap(attempt)
    ensures attempt == 0 ==> ms == 0
  {
    var cap := IntervalCap(attempt);
    assert rand * cap < RandomScale * cap || cap == 0;
    rand * cap / RandomScale
  }

  // ---------------------------------------------------------------------
  // handleState
  // ---------------------------------------------------------------------

  /** What the outside world decides during a reconnect attempt. */
  datatype Retry = Retry(rand: nat, interrupted: bool, reopenFails: bool)

  predicate ValidRetry(env: Retry) { env.rand < RandomScale }

  /** handleState for every state but CONNECTION_LOST. */
  function Route(w: Wizard, s: State, msg: string): (w2: Wizard)
    ensures Extends(w, w2)
  {
    if s == ConnectFailed || s == CallEnded then Shutdown(WithSession(w, ""), s)
    else Note(w, s, msg)
  }

  /** handleState(CONNECTION_LOST, msg): the reconnect funnel. */
  function LoseConnection(w: Wizard, msg: string, env: Retry): (w2: Wizard)
    requires ValidRetry(env)
    ensures Extends(w, w2)
  {
    if w.state == CallEnded then StopCall(w, msg)
    else if w.attemptingRetry then w
    else if !w.inCall then LostOutsideCall(w)
    else if w.attempts > MaxAttempts then StopCall(w.(attemptingRetry := true), msg)  // guard stays set
    else Reconnect(w.(attemptingRetry := true), msg, env)
  }

  /** Not in a call: the threads quit and the loss is reported as the end of the call. */
  function LostOutsideCall(w: Wizard): (w2: Wizard)
    ensures Extends(w, w2)
  {
    Note(Emit(w, QuitThreads), CallEnded, LostMsg)
  }

  /**
   * A retry, with the guard set: back off, then reopen the connection unless
   * the sleep was interrupted.
   */
  function Reconnect(w: Wizard, msg: string, env: Retry): (w2: Wizard)
    requires ValidRetry(env)
    ensures Extends(w, w2)
  {
    Woken(Slept(w, env.rand), msg, env.interrupted, env.reopenFails)
  }

  /** `attempts++` and the sleep for generateInterval(attempts). */
  function Slept(w: Wizard, rand: nat): (w2: Wizard)
    requires rand < RandomScale
    ensures Extends(w, w2)
  {
    Emit(w.(attempts := w.attempts + 1), Sleep(GenerateInterval(w.attempts, rand)))
  }

  /** After the back-off: an interrupted sleep stops the call, guard still set; otherwise reopen. */
  function Woken(w: Wizard, msg: string, interrupted: bool, fails: bool): (w2: Wizard)
    ensures Extends(w, w2)
  {
    if interrupted then StopCall(w, msg)
    else RetryOutcome(Reopened(w, fails), fails).(attemptingRetry := false)
  }

  /**
   * connect() on a WebSocket; otherwise the threads quit and netConnect()
   * runs again, whose request goes out only once the connection is open.
   */
  function Reopened(w: Wizard, fails: bool): (w2: Wizard)
    ensures Extends(w, w2)
  {
    if w.webSocket then Emit(w, Reopen)
    else if fails then Emit(Emit(w, QuitThreads), Reopen)
    else NetConnect(Emit(w, QuitThreads))
  }

  /** What the retry reports: failure, a repeated registration, or the loss itself. */
  function RetryOutcome(w: Wizard, fails: bool): (w2: Wizard)
    ensures Extends(w, w2)
  {
    if fails then Note(w, ConnectFailed, FailureMsg)
    else if w.state == Registering then Note(Send(w, Commands.Register), Registering, "")
    else Note(w, ConnectionLost, "")
  }

  function HandleState(w: Wizard, s: State, msg: string, env: Retry): (w2: Wizard)
    requires ValidRetry(env)
    ensures Extends(w, w2)
  {
    if s == ConnectionLost then LoseConnection(w, msg, env) else Route(w, s, msg)
  }

  // ---------------------------------------------------------------------
  // Handlei711State
  // ---------------------------------------------------------------------

  /** The caption text with each fragment separator replaced by char 13. */
  function Caption(text: string): string
  {
    ReplaceAll(text, Marker, Nl)
  }

  /** An ONLINE state: in a call, and the first contact is reported once. */
  function OnlineStep(w: Wizard, online: bool): (w2: Wizard)
    ensures Extends(w, w2)
  {
    if !online then w
    else if w.firstContact == 0 then Note(w.(inCall := true, firstContact := 1), Online, "")
    else w.(inCall := true)
  }

  /** The reassembled caption, when the packet carries RECEIVEDTEXT= past index 0. */
  function ReceivedText(packet: string): Option<string>
  {
    var t := KeyIndex(packet, "RECEIVEDTEXT=");
    if t > 0 then Some(Caption(packet[t + 13..])) else None
  }

  function CaptionStep(w: Wizard, caption: Option<string>): (w2: Wizard)
    ensures Extends(w, w2)
  {
    if caption.Some? then Note(w, Data, caption.value) else w
  }

  /** QUEUED: the waiting message only the first time. */
  function QueuedStep(w: Wizard, queued: bool): (w2: Wizard)
    ensures Extends(w, w2)
  {
    if !queued then w
    else (if w.waitFirstTime then Note(w, Queued, QueuedMsg) else w).(waitFirstTime := false)
  }

  /** DISCONNECTED: endCall(), then OFFLINE. */
  function DisconnectedStep(w: Wizard, disconnected: bool): (w2: Wizard)
    ensures Extends(w, w2)
  {
    if disconnected then Note(EndCall(w), Offline, "") else w
  }

  /**
   * Handlei711State(packet, r), `r` being where "STATE=" was found. The
   * value is not cut at "||"; on ONLINE with a caption, the caption text
   * replaces it and the QUEUED and DISCONNECTED tests look at the caption.
   */
  function StateUpdate(w: Wizard, packet: string, r: nat): (w2: Wizard)
    requires r + 6 <= |packet|
    ensures Extends(w, w2)
  {
    var d := packet[r + 6..];
    var online := StartsWith(Upper(d), "ONLINE");
    var caption := if online then ReceivedText(packet) else None;
    var d2 := if caption.Some? then caption.value else d;
    var w1 := CaptionStep(OnlineStep(w, online), caption);
    DisconnectedStep(QueuedStep(w1, StartsWith(Upper(d2), "QUEUED")), StartsWith(Upper(d2), "DISCONNECTED"))
  }

  // ---------------------------------------------------------------------
  // Handlei711InboundPacket, block by block
  // ---------------------------------------------------------------------

  /** How the handler left: at its end, by a `return`, or by an exception. */
  datatype Flow = Completed | Returned | Threw(exception: string)

  datatype Step = Step(w: Wizard, flow: Flow)

  const OutOfBounds := "StringIndexOutOfBoundsException"
  const BadNumber := "NumberFormatException"

  predicate HasKeepAlive(packet: string) { Contains(Upper(packet), "KEEPALIVE") }

  /** Report `s` with the value, when there is one. */
  function NoteIf(w: Wizard, s: State, value: Option<string>): (w2: Wizard)
    ensures Extends(w, w2)
  {
    if value.Some? then Note(w, s, value.value) else w
  }

  function Prefixed(prefix: string, value: Option<string>): Option<string>
  {
    if value.Some? then Some(prefix + value.value) else None
  }

  function SessionIf(w: Wizard, id: Option<string>): (w2: Wizard)
    ensures Extends(w, w2)
  {
    if id.Some? then WithSession(w, id.value) else w
  }

  /** ERRCODE= with ERRMSG= or ERRMESSAGE=: the message runs to the end of the packet. */
  function ErrorCodeBlock(w: Wizard, packet: string): (w2: Wizard)
    ensures Extends(w, w2)
  {
    var code := Field(packet, "ERRCODE=");
    var m := RestAfter(packet, "ERRMSG=");
    var m2 := RestAfter(packet, "ERRMESSAGE=");
    if code.None? then w
    else if m.Some? then Emit(w, Fault(code.value, m.value))
    else if m2.Some? then Emit(w, Fault(code.value, m2.value))
    else w
  }

  predicate HasPollData(packet: string)
  {
    Contains(Upper(packet), "POLLDATA=") || Contains(Upper(packet), "||ERRCODE=PROTOCOL ERROR")
    || Contains(Upper(packet), "EXCHANGEDATA=")
  }

  /** Handlei711State when "STATE=" occurs past index 0. */
  function StateIfFound(w: Wizard, packet: string): (w2: Wizard)
    ensures Extends(w, w2)
  {
    var r := KeyIndex(packet, "STATE=");
    if r > 0 then StateUpdate(w, packet, r) else w
  }

  /**
   * POLLDATA=, "||ERRCODE=PROTOCOL ERROR" or EXCHANGEDATA=: a STATE= past
   * index 0 runs Handlei711State, and ERRMSG= reports ERROR with the rest of
   * the packet. (The code parsed there is caught and never used.)
   */
  function PollBlock(w: Wizard, packet: string): (w2: Wizard)
    ensures Extends(w, w2)
  {
    if !HasPollData(packet) then w
    else NoteIf(StateIfFound(w, packet), Error, RestAfter(packet, "ERRMSG="))
  }

  function ResumeBlock(w: Wizard, packet: string): (w2: Wizard)
    ensures Extends(w, w2)
  {
    if Contains(Upper(packet), "RESUME=") then Route(w, CallEnded, "resume is disabled") else w
  }

  /** A number set from the packet outside any try: a bad number throws. */
  function SetNumber(w: Wizard, v: Option<string>, retry: bool): (s: Step)
    ensures Extends(w, s.w)
  {
    if v.None? then Step(w, Completed)
    else
      var n := ParseInt(v.value);
      if n.None? then Step(w, Threw(BadNumber))
      else if retry then Step(w.(retryInterval := Wrap32(n.value * 1000)), Completed)
      else Step(w.(logEvents := n.value), Completed)
  }

  /** The REGRETURN= code: the text up to the next "||" (there must be one). */
  function RegCode(packet: string): Option<int>
    requires Contains(Upper(packet), "REGRETURN=")
    requires IndexOf(packet[KeyIndex(packet, "REGRETURN=") + 10..], Sep) >= 0
  {
    var d := packet[KeyIndex(packet, "REGRETURN=") + 10..];
    ParseInt(d[..IndexOf(d, Sep)])
  }

  /**
   * The registration accepted: the session, LOG= into logEvents(),
   * RETRYINTERVAL= seconds into milliseconds, ONHOOK, then initiateCall().
   */
  function Registered(w: Wizard, packet: string, id: string): (s: Step)
    ensures Extends(w, s.w)
  {
    var s3 := Limits(WithSession(w, id), packet);
    if !s3.flow.Completed? then s3
    else Step(Accepted(s3.w), Completed)
  }

  /** LOG= into logEvents, then RETRYINTERVAL= into retryInterval; a bad number stops it. */
  function Limits(w: Wizard, packet: string): (s: Step)
    ensures Extends(w, s.w)
  {
    var s2 := SetNumber(w, FieldPastStart(packet, "LOG="), false);
    if !s2.flow.Completed? then s2
    else SetNumber(s2.w, FieldPastStart(packet, "RETRYINTERVAL="), true)
  }

  /** Registered: ONHOOK, reported, and the call placed. */
  function Accepted(w: Wizard): (w2: Wizard)
    ensures Extends(w, w2)
  {
    InitiateCall(Note(w.(state := Onhook, registered := true), Onhook, ""))
  }

  function RegReturnBlock(w: Wizard, packet: string): (s: Step)
    ensures Extends(w, s.w)
  {
    if !Contains(Upper(packet), "REGRETURN=") then Step(w, Completed)
    else if IndexOf(packet[KeyIndex(packet, "REGRETURN=") + 10..], Sep) < 0 then
      Step(w, Threw(OutOfBounds))   // d.substring(0, -1)
    else
      RegDecision(PollingIf(w, packet), packet, OrZero(RegCode(packet)))
  }

  /** POLLING=0 past the start of the packet switches polling off. */
  function PollingIf(w: Wizard, packet: string): Wizard
  {
    if KeyIndex(packet, "POLLING=0") > 0 then w.(dontPoll := true) else w
  }

  /** Code 1 with a MYID= registers; anything else ends the call with ERRMESSAGE=. */
  function RegDecision(w: Wizard, packet: string, code: int): (s: Step)
    ensures Extends(w, s.w)
  {
    var id := FieldPastStart(packet, "MYID=");
    if id.Some? && code == 1 then Registered(w, packet, id.value)
    else Step(Route(w, CallEnded, OrEmpty(FieldPastStart(packet, "ERRMESSAGE="))), Returned)
  }

  /** The relay answered: poll, CONNECTED, and the WAN timer starts. */
  function Answered(w: Wizard): (w2: Wizard)
    ensures Extends(w, w2)
  {
    Emit(Note(SendPoll(w).(state := Connected), Connected, "Call answered"), WanTimerStart)
  }

  function RelayStartBlock(w: Wizard, packet: string): (s: Step)
    ensures Extends(w, s.w)
  {
    var d := Field(packet, "RELAYSTART=");
    if d.None? then Step(w, Completed)
    else
      var w0 := StateIfFound(w, packet);
      var w1 := SessionIf(w0, FieldPastStart(packet, "MYID="));
      ExtendsTrans(w, w0, w1);
      RelayAnswer(w1, OrZero(ParseInt(d.value)) > 0, OrEmpty(RestAfter(packet, "ERRMESSAGE=")))
  }

  /** RELAYSTART= above zero: the call is answered; otherwise it ends with the message. */
  function RelayAnswer(w: Wizard, answered: bool, msg: string): (s: Step)
    ensures Extends(w, s.w)
  {
    if answered then Step(Answered(w), Completed) else Step(Route(w, CallEnded, msg), Returned)
  }

  function SwitchOpBlock(w: Wizard, packet: string): (w2: Wizard)
    ensures Extends(w, w2)
  {
    if !StartsWith(Upper(packet), "MYMETHOD=SWITCHOP") then w
    else OperatorOnline(SessionIf(w, Field(packet, "SESSIONID=")), Field(packet, "OPID="))
  }

  /** OPID=: remember the operator and report ONLINE with it. */
  function OperatorOnline(w: Wizard, op: Option<string>): (w2: Wizard)
    ensures Extends(w, w2)
  {
    if op.Some? then Note(w.(opID := op.value), Online, op.value) else w
  }

  /** The event a status update reports for its TYPE= value. */
  function StatusEvent(t: Option<string>): State
  {
    if t.Some? && Upper(t.value) == "FIRSTCAPTION" then DataFirst
    else if t.Some? && Upper(t.value) == "INPROGRESS" then InProgress
    else Ignore
  }

  function StatusUpdateBlock(w: Wizard, packet: string): (w2: Wizard)
    ensures Extends(w, w2)
  {
    if !StartsWith(Upper(packet), "MYMETHOD=STATUSUPDATE") then w
    else Note(w, StatusEvent(Field(packet, "TYPE=")), OrEmpty(Field(packet, "MESSAGE=")))
  }

  function SetOperator(w: Wizard, op: Option<string>): (w2: Wizard)
    ensures Extends(w, w2)
  {
    if op.Some? then w.(opID := op.value) else w
  }

  /** STATE= of a state change: ONLINE (reported once, unless a SIP URI came first) or QUEUED. */
  function OperatorState(w: Wizard, s: Option<string>, delayOnline: bool): (w2: Wizard)
    ensures Extends(w, w2)
  {
    if s.None? then w
    else if Upper(s.value) == "ONLINE" then
      if !delayOnline && w.firstContact == 0 then Note(w.(inCall := true, firstContact := 1), Online, w.opID)
      else w.(inCall := true)
    else if Upper(s.value) == "QUEUED" then Note(w, Waiting, w.opID)
    else w
  }

  function StateChangeBlock(w: Wizard, packet: string): (w2: Wizard)
    ensures Extends(w, w2)
  {
    if !StartsWith(Upper(packet), "MYMETHOD=STATECHANGE") then w
    else
      var remote := Field(packet, "SIPREMOTE=");
      var local := Field(packet, "SIPLOCAL=");
      var w1 := SetOperator(w, Field(packet, "OP="));
      var w2 := NoteIf(w1, Command, Prefixed("AGENT=", Field(packet, "OPNUMBER=")));
      var w3 := NoteIf(w2, Command, Prefixed("AGENT2=", Field(packet, "OPNUMBER2=")));
      var w4 := NoteIf(w3, SipRemote, remote);
      var w5 := NoteIf(w4, SipLocal, local);
      var w6 := OperatorState(w5, Field(packet, "STATE="), remote.Some? || local.Some?);
      ExtendsTrans(w, w1, w2); ExtendsTrans(w, w2, w3); ExtendsTrans(w, w3, w4);
      ExtendsTrans(w, w4, w5); ExtendsTrans(w, w5, w6);
      w6
  }

  /** The event sendText reports for its TYPE= value. */
  function TextEvent(kind: string): State
  {
    if Upper(kind) == "MACRO" then DataMacro else if Upper(kind) == "REVOICED" then DataCaption else Data
  }

  function SendTextBlock(w: Wizard, packet: string): (w2: Wizard)
    ensures Extends(w, w2)
  {
    if !StartsWith(Upper(packet), "MYMETHOD=SENDTEXT") then w
    else NoteIf(w, TextEvent(OrEmpty(Field(packet, "TYPE="))), Field(packet, "TEXT="))
  }

  /** The VOLUME= value keeps its key: the search index is never advanced past it. */
  function SendCommandBlock(w: Wizard, packet: string): (w2: Wizard)
    ensures Extends(w, w2)
  {
    if !StartsWith(Upper(packet), "MYMETHOD=SENDCOMMAND") then w
    else
      Note(w, Command, OrEmpty(Field(packet, "TYPE=")) + Sep + OrEmpty(FieldWithKey(packet, "VOLUME=")))
  }

  /** START/RESTART SIPSESSION: SIPLOCAL= and SIPREMOTE= keep their keys. */
  function SipSessionBlock(w: Wizard, packet: string, name: string, s: State): (w2: Wizard)
    ensures Extends(w, w2)
  {
    if !Contains(Upper(packet), name) then w
    else
      Note(w, s, OrEmpty(FieldWithKey(packet, "SIPLOCAL=")) + Sep + OrEmpty(FieldWithKey(packet, "SIPREMOTE=")))
  }

  function StopSipBlock(w: Wizard, packet: string): (w2: Wizard)
    ensures Extends(w, w2)
  {
    if Contains(Upper(packet), "MYMETHOD=STOPSIPSESSION") then Note(w, SessionSipStop, "") else w
  }

  function StopRelayBlock(w: Wizard, packet: string): (w2: Wizard)
    ensures Extends(w, w2)
  {
    if Contains(Upper(packet), "STOPRELAY=") then Route(w.(inCall := false), CallEnded, "") else w
  }

  function TestCallBlock(w: Wizard, packet: string): (w2: Wizard)
    ensures Extends(w, w2)
  {
    if Contains(Upper(packet), "MYMETHOD=TESTCALL") then NoteIf(w, SipRemote, Field(packet, "SIPDIAL=")) else w
  }

  function EndTestCallBlock(w: Wizard, packet: string): (w2: Wizard)
    ensures Extends(w, w2)
  {
    if Contains(Upper(packet), "MYMETHOD=ENDTESTCALL") then Route(w.(inCall := false), CallEnded, "") else w
  }

  /** The blocks after RELAYSTART=, none of which returns early. */
  function MethodBlocks(w: Wizard, packet: string): (w2: Wizard)
    ensures Extends(w, w2)
  {
    var w1 := SwitchOpBlock(w, packet);
    var w2 := StatusUpdateBlock(w1, packet);
    var w3 := StateChangeBlock(w2, packet);
    var w4 := SendTextBlock(w3, packet);
    var w5 := SendCommandBlock(w4, packet);
    var w6 := SipSessionBlock(w5, packet, "MYMETHOD=STARTSIPSESSION", SessionSipEstablished);
    var w7 := SipSessionBlock(w6, packet, "MYMETHOD=RESTARTSIPSESSION", SessionSipRestart);
    var w8 := StopSipBlock(w7, packet);
    var w9 := StopRelayBlock(w8, packet);
    var w10 := TestCallBlock(w9, packet);
    var w11 := EndTestCallBlock(w10, packet);
    ExtendsTrans(w, w1, w2); ExtendsTrans(w, w2, w3); ExtendsTrans(w, w3, w4);
    ExtendsTrans(w, w4, w5); ExtendsTrans(w, w5, w6); ExtendsTrans(w, w6, w7);
    ExtendsTrans(w, w7, w8); ExtendsTrans(w, w8, w9); ExtendsTrans(w, w9, w10);
    ExtendsTrans(w, w10, w11);
    w11
  }

  /** Handlei711InboundPacket(packet). */
  function Inbound(w: Wizard, packet: string): (s: Step)
    ensures Extends(w.(events := w.events + Echo(w, packet)), s.w)
  {
    var w0 := LogEvent(w, packet);
    if HasKeepAlive(packet) then Step(Emit(Emit(w0, WanTimerStop), WanTimerStart), Returned)
    else
      var w1 := ErrorCodeBlock(w0, packet);
      var w2 := PollBlock(w1, packet);
      var w3 := ResumeBlock(w2, packet);
      var s2 := RegReturnBlock(w3, packet);
      ExtendsTrans(w0, w1, w2); ExtendsTrans(w0, w2, w3);
      ExtendsTrans(w0, w3, s2.w);
      if !s2.flow.Completed? then s2
      else
        var s3 := RelayStartBlock(s2.w, packet);
        ExtendsTrans(w0, s2.w, s3.w);
        if !s3.flow.Completed? then s3
        else
          var w4 := MethodBlocks(s3.w, packet);
          ExtendsTrans(w0, s3.w, w4);
          Step(w4, Completed)
  }
}
