/**
 * The outbound command strings of the captioning protocol. Every command is
 * `myMethod=<Name>` followed by `||key=value` fields taken from the session
 * profile; the `Build*` methods of the wizard turn one into a packet with
 * Wire.BuildPacket.
 */
module Commands {
  import opened Wrappers

  const Sep := "||"

  /** The session values the builders read through the wizard's accessors. */
  datatype Profile = Profile(
    session: string,        // myID, the session identifier the server assigned
    userAgent: string,
    callType: string,
    uid: string,            // ID(), the client's unique identifier
    deviceID: string,
    deviceType: string,
    ip: string,
    deviceCaps: string,
    number: string,         // callNumber()
    callbackNumber: string,
    instructions: string,
    pushToken: string,
    overrideToken: string,  // a null override token is the empty string
    enterprise: string,
    callGroup: string)

  /** The keys the commands use. */
  datatype Key =
    | KDeviceType
    | KDeviceID
    | KMyIP
    | KDeviceCaps
    | KCallType
    | KNumber
    | KMyID
    | KMyText
    | KUserAgent
    | KMyUID
    | KDeviceToken
    | KUseEncryption
    | KEnterprise
    | KCallGroup
    | KSessionID
    | KPreferredLanguage
    | KCallbacknumber
    | KInstructions
    | KFromBook
    | KTrace
    | KStatus
    | KMessage
    | KFirstPoll
    | KFirstOpContact

  function KeyText(k: Key): string
  {
    match k
    case KDeviceType => "deviceType"
    case KDeviceID => "deviceID"
    case KMyIP => "myIP"
    case KDeviceCaps => "deviceCaps"
    case KCallType => "callType"
    case KNumber => "number"
    case KMyID => "myID"
    case KMyText => "myText"
    case KUserAgent => "userAgent"
    case KMyUID => "myUID"
    case KDeviceToken => "deviceToken"
    case KUseEncryption => "useEncryption"
    case KEnterprise => "enterprise"
    case KCallGroup => "callGroup"
    case KSessionID => "sessionID"
    case KPreferredLanguage => "preferredLanguage"
    case KCallbacknumber => "callbacknumber"
    case KInstructions => "instructions"
    case KFromBook => "fromBook"
    case KTrace => "trace"
    case KStatus => "status"
    case KMessage => "message"
    case KFirstPoll => "firstPoll"
    case KFirstOpContact => "firstOpContact"
  }

  /** One `key=value` field of a command. */
  datatype Field = Field(key: Key, value: string)

  /** A field as read back from text. */
  datatype Pair = Pair(key: string, value: string)

  function Pairs(fs: seq<Field>): (ps: seq<Pair>)
    ensures |ps| == |fs|
  {
    if |fs| == 0 then [] else [Pair(KeyText(fs[0].key), fs[0].value)] + Pairs(fs[1..])
  }

  // ---------------------------------------------------------------------
  // Rendering and its inverse
  // ---------------------------------------------------------------------

  /** `||k1=v1||k2=v2...` */
  function RenderFields(fs: seq<Field>): string
  {
    if |fs| == 0 then ""
    else Sep + (KeyText(fs[0].key) + ("=" + (fs[0].value + RenderFields(fs[1..]))))
  }

  /** `myMethod=<name>` and its fields. */
  function Render(name: string, fs: seq<Field>): string
  {
    "myMethod=" + (name + RenderFields(fs))
  }

  /** The index of the first `c` in `s`, or |s| when there is none. */
  function FirstChar(s: string, c: char): (i: nat)
    ensures i <= |s|
    ensures i < |s| ==> s[i] == c
    ensures forall k :: 0 <= k < i ==> s[k] != c
  {
    if |s| == 0 || s[0] == c then 0 else 1 + FirstChar(s[1..], c)
  }

  /**
   * Reads the fields back: each `||`, then a key running to the first `=`,
   * then a value running to the next `|`.
   */
  function ParseFields(s: string): Option<seq<Pair>>
    decreases |s|
  {
    if |s| == 0 then Some([])
    else if |s| < 2 || s[..2] != Sep then None
    else
      var t := s[2..];
      var e := FirstChar(t, '|');
      var item := t[..e];
      var q := FirstChar(item, '=');
      if q == |item| then None
      else match ParseFields(t[e..])
        case None => None
        case Some(rest) => Some([Pair(item[..q], item[q + 1..])] + rest)
  }

  /** Reads a whole command back into its method name and fields. */
  function Parse(s: string): Option<(string, seq<Pair>)>
  {
    if |s| < 9 || s[..9] != "myMethod=" then None
    else
      var t := s[9..];
      var e := FirstChar(t, '|');
      match ParseFields(t[e..])
      case None => None
      case Some(fs) => Some((t[..e], fs))
  }

  predicate NoBar(s: string) { '|' !in s }

  /** A key can be read back: it holds neither `|` nor `=`. */
  predicate GoodKey(k: string) { '|' !in k && '=' !in k }

  /** Fields that can be read back: no value holds a `|`. */
  predicate Readable(fs: seq<Field>)
  {
    forall i :: 0 <= i < |fs| ==> NoBar(fs[i].value)
  }

  // Helpers of GoodKeys: the key texts checked a few constructors at a time.

  lemma GoodKeysA(k: Key)
    requires k.KDeviceType? || k.KDeviceID? || k.KMyIP? || k.KDeviceCaps? || k.KCallType? || k.KNumber?
    ensures GoodKey(KeyText(k))
  {
  }

  lemma GoodKeysB(k: Key)
    requires k.KMyID? || k.KMyText? || k.KUserAgent? || k.KMyUID? || k.KDeviceToken? || k.KUseEncryption?
    ensures GoodKey(KeyText(k))
  {
  }

  lemma GoodKeysC(k: Key)
    requires k.KEnterprise? || k.KCallGroup? || k.KSessionID? || k.KPreferredLanguage? || k.KCallbacknumber? || k.KInstructions?
    ensures GoodKey(KeyText(k))
  {
  }

  lemma GoodKeysD(k: Key)
    requires k.KFromBook? || k.KTrace? || k.KStatus? || k.KMessage? || k.KFirstPoll? || k.KFirstOpContact?
    ensures GoodKey(KeyText(k))
  {
  }

  /** No key text holds a separator character. */
  lemma GoodKeys(k: Key)
    ensures GoodKey(KeyText(k))
  {
    if k.KDeviceType? || k.KDeviceID? || k.KMyIP? || k.KDeviceCaps? || k.KCallType? || k.KNumber? {
      GoodKeysA(k);
    } else if k.KMyID? || k.KMyText? || k.KUserAgent? || k.KMyUID? || k.KDeviceToken? || k.KUseEncryption? {
      GoodKeysB(k);
    } else if k.KEnterprise? || k.KCallGroup? || k.KSessionID? || k.KPreferredLanguage? || k.KCallbacknumber? || k.KInstructions? {
      GoodKeysC(k);
    } else {
      GoodKeysD(k);
    }
  }

  lemma {:induction false} FirstCharPast(a: string, b: string, c: char)
    requires c !in a
    ensures FirstChar(a + b, c) == |a| + FirstChar(b, c)
    decreases |a|
  {
    if |a| > 0 {
      assert (a + b)[1..] == a[1..] + b;
      FirstCharPast(a[1..], b, c);
    } else {
      assert a + b == b;
    }
  }

  /** The rendered fields start with `|` or are empty. */
  lemma RenderFieldsHead(fs: seq<Field>)
    ensures FirstChar(RenderFields(fs), '|') == 0
  {
  }

  /** Reading one rendered field: the key, the value, and the rest still to read. */
  lemma ReadOneField(k: string, v: string, rest: string)
    requires GoodKey(k) && NoBar(v) && FirstChar(rest, '|') == 0
    ensures var t := k + ("=" + (v + rest));
      var e := FirstChar(t, '|');
      e == |k| + 1 + |v| && t[..e] == k + ("=" + v) && t[e..] == rest
      && FirstChar(t[..e], '=') == |k| && t[..e][..|k|] == k && t[..e][|k| + 1..] == v
  {
    var item := k + ("=" + v);
    var t := k + ("=" + (v + rest));
    assert t == item + rest;
    assert '|' !in item;
    FirstCharPast(item, rest, '|');
    FirstCharPast(k, "=" + v, '=');
  }

  /** Rendering then reading gives the same fields back. */
  lemma {:induction false} ParseRenderFields(fs: seq<Field>)
    requires Readable(fs)
    ensures ParseFields(RenderFields(fs)) == Some(Pairs(fs))
    decreases |fs|
  {
    if |fs| > 0 {
      var k, v, rest := KeyText(fs[0].key), fs[0].value, RenderFields(fs[1..]);
      var s := RenderFields(fs);
      GoodKeys(fs[0].key);
      RenderFieldsHead(fs[1..]);
      ReadOneField(k, v, rest);
      assert s[..2] == Sep && s[2..] == k + ("=" + (v + rest));
      assert Readable(fs[1..]) by {
        forall i | 0 <= i < |fs[1..]| ensures NoBar(fs[1..][i].value) {
          assert fs[1..][i] == fs[i + 1];
        }
      }
      ParseRenderFields(fs[1..]);
    }
  }

  /** Every command built from readable fields and a method name without `|` reads back. */
  lemma ParseRender(name: string, fs: seq<Field>)
    requires '|' !in name && Readable(fs)
    ensures Parse(Render(name, fs)) == Some((name, Pairs(fs)))
  {
    var s := Render(name, fs);
    assert s[9..] == name + RenderFields(fs);
    FirstCharPast(name, RenderFields(fs), '|');
    RenderFieldsHead(fs);
    ParseRenderFields(fs);
    assert (name + RenderFields(fs))[|name|..] == RenderFields(fs);
  }

  /** One constructor per packet builder of the wizard. */
  datatype Command =
    | CallActive            // BuildCallActivePacket
    | CallEnd               // BuildCallEndPacket
    | SipActive             // BuildSIPActivePacket
    | SipRestart            // BuildSIPRestartPacket
    | SipFailed             // BuildSIPFailedPacket
    | Message(text: string) // Buildi711MessagePacket
    | Register              // Buildi711RegistrationRequest
    | AcceptInbound         // BuildInboundCallPacket
    | StartRelay            // Buildi711CallPacket
    | EasyCall              // BuildEasyCallPacket
    | TestCall              // BuildTestCallPacket
    | EndTestCall           // BuildEndTestCallPacket
    | KeepAlive             // Buildi711KeepAlive
    | Decline               // Buildi711DeclineCallPacket
    | Hangup                // Buildi711HangupPacket
    | Answer                // Buildi711AnswerPacket
    | Ignore                // Buildi711IgnorePacket
    | UpdateCall            // BuildCallUpdatePacket
    | StartCaptions         // BuildStartCaptionsPacket
    | LogEvent(trace: string)                        // logEvent(event, true)
    | StatusUpdate(status: string, message: string)  // sendStatusUpdate
    | PollData(firstPoll: bool, firstOpContact: bool) // SendPoll

  /** The value of `myMethod=`. */
  function Name(c: Command): string
  {
    match c
    case CallActive => "CallActive"
    case CallEnd => "CallEnd"
    case SipActive => "SIPActive"
    case SipRestart => "SIPRestart"
    case SipFailed => "SIPFailed"
    case Message(_) => "ExchangeData"
    case Register => "Register"
    case AcceptInbound => "AcceptInboundCall"
    case StartRelay => "StartRelay"
    case EasyCall => "StartRelay"
    case TestCall => "TestCall"
    case EndTestCall => "EndTestCall"
    case KeepAlive => "KeepAlive"
    case Decline => "DeclineInboundCall"
    case Hangup => "StopRelay"
    case Answer => "answerCall"
    case Ignore => "ignoreCall"
    case UpdateCall => "UpdateCall"
    case StartCaptions => "StartCaptions"
    case LogEvent(_) => "logEvent"
    case StatusUpdate(_, _) => "statusUpdate"
    case PollData(_, _) => "PollData"
  }

  /** The answer goes to the override token when there is one, else to the push token. */
  function AnswerDevice(p: Profile): string
  {
    if |p.overrideToken| > 0 then p.overrideToken else p.pushToken
  }

  /** A field present only when its value is non-empty (the callGroup rule). */
  function Optional(key: Key, value: string): seq<Field>
  {
    if |value| > 0 then [Field(key, value)] else []
  }

  /** A flag field `key=1` present only when the flag is set. */
  function Flag(key: Key, b: bool): seq<Field>
  {
    if b then [Field(key, "1")] else []
  }

  /** The fields of each command, in the order the builders append them. */
  function Fields(c: Command, p: Profile): seq<Field>
  {
    match c
    case CallActive =>
      [Field(KDeviceType, p.deviceType), Field(KDeviceID, p.deviceID), Field(KMyIP, p.ip),
       Field(KDeviceCaps, p.deviceCaps), Field(KCallType, p.callType), Field(KNumber, p.number)]
    case CallEnd =>
      [Field(KDeviceType, p.deviceType), Field(KDeviceID, p.deviceID), Field(KMyIP, p.ip)]
    case SipActive =>
      [Field(KDeviceType, p.deviceType), Field(KDeviceID, p.deviceID), Field(KMyIP, p.ip),
       Field(KNumber, p.number)]
    case SipRestart =>
      [Field(KDeviceType, p.deviceType), Field(KDeviceID, p.deviceID), Field(KMyIP, p.ip)]
    case SipFailed =>
      [Field(KDeviceType, p.deviceType), Field(KDeviceID, p.deviceID), Field(KMyIP, p.ip)]
    case Message(text) =>
      [Field(KMyID, p.session), Field(KMyText, text)]
    case Register =>
      [Field(KUserAgent, p.userAgent), Field(KCallType, p.callType), Field(KMyUID, p.uid),
       Field(KDeviceID, p.deviceID), Field(KDeviceToken, p.pushToken),
       Field(KUseEncryption, "0"), Field(KEnterprise, p.enterprise)]
      + Optional(KCallGroup, p.callGroup)
    case AcceptInbound =>
      [Field(KSessionID, p.session), Field(KDeviceID, p.deviceID), Field(KUserAgent, p.userAgent),
       Field(KMyUID, p.uid), Field(KCallType, "125")]
    case StartRelay =>
      RelayFields(p)
    case EasyCall =>
      RelayFields(p) + Optional(KCallGroup, p.callGroup)
    case TestCall =>
      [Field(KMyID, p.session), Field(KUserAgent, p.userAgent), Field(KCallType, p.callType),
       Field(KMyUID, ""), Field(KDeviceID, p.deviceID), Field(KMyIP, p.ip),
       Field(KDeviceCaps, p.deviceCaps)]
    case EndTestCall => []
    case KeepAlive => [Field(KMyID, p.session)]
    case Decline =>
      [Field(KSessionID, p.session), Field(KDeviceID, p.deviceID), Field(KUserAgent, p.userAgent),
       Field(KMyUID, p.uid), Field(KCallType, "125")]
    case Hangup => [Field(KMyID, p.session)]
    case Answer =>
      [Field(KFromBook, p.callType), Field(KMyID, p.session), Field(KDeviceID, AnswerDevice(p))]
    case Ignore =>
      [Field(KFromBook, p.callType), Field(KMyID, p.session), Field(KDeviceID, p.pushToken)]
    case UpdateCall =>
      [Field(KMyID, p.session), Field(KNumber, p.number), Field(KCallbacknumber, p.callbackNumber),
       Field(KInstructions, p.instructions), Field(KUserAgent, p.userAgent),
       Field(KCallType, p.callType), Field(KMyUID, p.uid), Field(KDeviceID, p.deviceID),
       Field(KMyIP, p.ip), Field(KDeviceCaps, p.deviceCaps)]
    case StartCaptions =>
      [Field(KMyID, p.session), Field(KUserAgent, p.userAgent), Field(KCallType, p.callType),
       Field(KMyUID, p.uid), Field(KDeviceID, p.deviceID), Field(KMyIP, p.ip),
       Field(KDeviceCaps, p.deviceCaps)]
    case LogEvent(trace) =>
      [Field(KMyID, p.session), Field(KUserAgent, p.userAgent), Field(KCallType, p.callType),
       Field(KMyUID, ""), Field(KDeviceID, p.deviceID), Field(KMyIP, p.ip),
       Field(KDeviceCaps, p.deviceCaps), Field(KTrace, trace)]
    case StatusUpdate(status, message) =>
      [Field(KMyID, p.session), Field(KStatus, status), Field(KMessage, message)]
    case PollData(fp, fo) =>
      [Field(KMyID, p.session)] + Flag(KFirstPoll, fp) + Flag(KFirstOpContact, fo)
  }

  /** The fields of a StartRelay request (Buildi711CallPacket and BuildEasyCallPacket). */
  function RelayFields(p: Profile): seq<Field>
  {
    [Field(KMyID, p.session), Field(KPreferredLanguage, "English"), Field(KNumber, p.number),
     Field(KCallbacknumber, p.callbackNumber), Field(KInstructions, p.instructions),
     Field(KUserAgent, p.userAgent), Field(KCallType, p.callType), Field(KMyUID, p.uid),
     Field(KDeviceID, p.deviceID), Field(KMyIP, p.ip), Field(KDeviceCaps, p.deviceCaps)]
  }

  /**
   * The command string the builder produces. Only the registration request
   * ends with a separator: its builder closes every field, callGroup included,
   * with `||`.
   */
  function Text(c: Command, p: Profile): string
  {
    Render(Name(c), Fields(c, p)) + (if c.Register? then Sep else "")
  }

  // ---------------------------------------------------------------------
  // Properties of the commands
  // ---------------------------------------------------------------------

  /** No profile value holds a `|`, so no value can be mistaken for a separator. */
  predicate ReadableProfile(p: Profile)
  {
    && NoBar(p.session) && NoBar(p.userAgent) && NoBar(p.callType) && NoBar(p.uid)
    && NoBar(p.deviceID) && NoBar(p.deviceType) && NoBar(p.ip) && NoBar(p.deviceCaps)
    && NoBar(p.number) && NoBar(p.callbackNumber) && NoBar(p.instructions)
    && NoBar(p.pushToken) && NoBar(p.overrideToken) && NoBar(p.enterprise) && NoBar(p.callGroup)
  }

  /** The free-text arguments of a command hold no `|` either. */
  predicate ReadableArgs(c: Command)
  {
    match c
    case Message(text) => NoBar(text)
    case LogEvent(trace) => NoBar(trace)
    case StatusUpdate(status, message) => NoBar(status) && NoBar(message)
    case _ => true
  }

  lemma ReadableAppend(a: seq<Field>, b: seq<Field>)
    requires Readable(a) && Readable(b)
    ensures Readable(a + b)
  {
    assert forall i :: |a| <= i < |a + b| ==> (a + b)[i] == b[i - |a|];
  }

  lemma ReadableFieldsA(c: Command, p: Profile)
    requires ReadableProfile(p) && ReadableArgs(c)
    requires c.CallActive? || c.CallEnd? || c.SipActive? || c.SipRestart? || c.SipFailed? || c.Message?
    ensures Readable(Fields(c, p))
  {
  }

  lemma NameReadableA(c: Command)
    requires c.CallActive? || c.CallEnd? || c.SipActive? || c.SipRestart? || c.SipFailed? || c.Message?
    ensures NoBar(Name(c))
  {
  }

  lemma ReadableFieldsB(c: Command, p: Profile)
    requires ReadableProfile(p) && ReadableArgs(c)
    requires c.Register? || c.AcceptInbound? || c.StartRelay? || c.EasyCall? || c.TestCall?
    ensures Readable(Fields(c, p))
  {
    if c.Register? {
      var fs := Fields(Register, p);
      ReadableAppend(fs[..7], Optional(KCallGroup, p.callGroup));
      assert fs == fs[..7] + Optional(KCallGroup, p.callGroup);
    } else if c.EasyCall? {
      ReadableAppend(RelayFields(p), Optional(KCallGroup, p.callGroup));
    }
  }

  lemma NameReadableB(c: Command)
    requires c.Register? || c.AcceptInbound? || c.StartRelay? || c.EasyCall? || c.TestCall?
    ensures NoBar(Name(c))
  {
  }

  lemma ReadableFieldsC(c: Command, p: Profile)
    requires ReadableProfile(p) && ReadableArgs(c)
    requires c.EndTestCall? || c.KeepAlive? || c.Decline? || c.Hangup? || c.Answer? || c.Ignore?
    ensures Readable(Fields(c, p))
  {
  }

  lemma NameReadableC(c: Command)
    requires c.EndTestCall? || c.KeepAlive? || c.Decline? || c.Hangup? || c.Answer? || c.Ignore?
    ensures NoBar(Name(c))
  {
  }

  lemma ReadableFieldsD(c: Command, p: Profile)
    requires ReadableProfile(p) && ReadableArgs(c)
    requires c.UpdateCall? || c.StartCaptions? || c.LogEvent? || c.StatusUpdate? || c.PollData?
    ensures Readable(Fields(c, p))
  {
    if c.PollData? {
      var h := [Field(KMyID, p.session)];
      ReadableAppend(h, Flag(KFirstPoll, c.firstPoll));
      ReadableAppend(h + Flag(KFirstPoll, c.firstPoll), Flag(KFirstOpContact, c.firstOpContact));
    }
  }

  lemma NameReadableD(c: Command)
    requires c.UpdateCall? || c.StartCaptions? || c.LogEvent? || c.StatusUpdate? || c.PollData?
    ensures NoBar(Name(c))
  {
  }

  /** With a readable profile and arguments, every command's fields and name read back. */
  lemma ReadableCommand(c: Command, p: Profile)
    requires ReadableProfile(p) && ReadableArgs(c)
    ensures Readable(Fields(c, p)) && NoBar(Name(c))
  {
    if c.CallActive? || c.CallEnd? || c.SipActive? || c.SipRestart? || c.SipFailed? || c.Message? {
      ReadableFieldsA(c, p); NameReadableA(c);
    } else if c.Register? || c.AcceptInbound? || c.StartRelay? || c.EasyCall? || c.TestCall? {
      ReadableFieldsB(c, p); NameReadableB(c);
    } else if c.EndTestCall? || c.KeepAlive? || c.Decline? || c.Hangup? || c.Answer? || c.Ignore? {
      ReadableFieldsC(c, p); NameReadableC(c);
    } else {
      ReadableFieldsD(c, p); NameReadableD(c);
    }
  }

  /**
   * Every command reads back: parsing its text (without the registration
   * request's closing separator) gives its method name and its fields.
   */
  lemma CommandReadsBack(c: Command, p: Profile)
    requires ReadableProfile(p) && ReadableArgs(c)
    ensures var t := Text(c, p);
      Parse(if c.Register? then t[..|t| - 2] else t) == Some((Name(c), Pairs(Fields(c, p))))
  {
    ReadableCommand(c, p);
    ParseRender(Name(c), Fields(c, p));
    TextIsRendering(c, p);
  }

  /** The text of a command is its rendering, and the registration request adds `||`. */
  lemma TextIsRendering(c: Command, p: Profile)
    ensures var t := Text(c, p);
      (if c.Register? then t[..|t| - 2] else t) == Render(Name(c), Fields(c, p))
  {
    var r := Render(Name(c), Fields(c, p));
    if c.Register? {
      assert Text(c, p) == r + Sep;
      assert (r + Sep)[..|r|] == r;
    }
  }

  /**
   * The registration request: it ends with `||`, and it carries a callGroup
   * field exactly when the profile has a non-empty one, as its last field.
   */
  lemma RegisterCallGroup(p: Profile)
    ensures var t := Text(Register, p); |t| >= 2 && t[|t| - 2..] == Sep
    ensures (exists i :: 0 <= i < |Fields(Register, p)| && Fields(Register, p)[i].key == KCallGroup)
      <==> p.callGroup != ""
    ensures p.callGroup != "" ==>
      Fields(Register, p)[|Fields(Register, p)| - 1] == Field(KCallGroup, p.callGroup)
  {
    var fs := Fields(Register, p);
    if p.callGroup != "" {
      assert fs[7].key == KCallGroup;
    }
  }

  predicate StartsWith(s: string, h: string)
  {
    |h| <= |s| && s[..|h|] == h
  }

  // Helper: regrouping a concatenation of six strings.
  lemma Assoc5(a: string, b: string, c: string, d: string, x: string, y: string)
    ensures a + (b + (c + (d + (x + y)))) == (a + (b + (c + (d + x)))) + y
  {
  }

  /** Rendering distributes over concatenation of field lists. */
  lemma {:induction false} RenderFieldsAppend(a: seq<Field>, b: seq<Field>)
    ensures RenderFields(a + b) == RenderFields(a) + RenderFields(b)
    decreases |a|
  {
    if |a| > 0 {
      assert (a + b)[0] == a[0];
      assert (a + b)[1..] == a[1..] + b;
      RenderFieldsAppend(a[1..], b);
      Assoc5(Sep, KeyText(a[0].key), "=", a[0].value, RenderFields(a[1..]), RenderFields(b));
    } else {
      assert a + b == b;
    }
  }

  lemma RenderPrefix(name: string, a: seq<Field>, b: seq<Field>)
    ensures StartsWith(Render(name, a + b), Render(name, a))
  {
    var x, y := RenderFields(a), RenderFields(b);
    RenderFieldsAppend(a, b);
    var p := "myMethod=" + (name + x);
    assert Render(name, a + b) == "myMethod=" + (name + (x + y));
    assert "myMethod=" + (name + (x + y)) == p + y;
    assert (p + y)[..|p|] == p;
  }

  /**
   * Both StartRelay builders begin with `myMethod=StartRelay||myID=<session>`:
   * the rendering of the session field alone.
   */
  lemma StartRelayBegins(p: Profile)
    ensures StartsWith(Text(StartRelay, p), Render("StartRelay", [Field(KMyID, p.session)]))
    ensures StartsWith(Text(EasyCall, p), Render("StartRelay", [Field(KMyID, p.session)]))
  {
    var h := [Field(KMyID, p.session)];
    assert RelayFields(p) == h + RelayFields(p)[1..];
    RenderPrefix("StartRelay", h, RelayFields(p)[1..]);
    assert RelayFields(p) + Optional(KCallGroup, p.callGroup) ==
      h + (RelayFields(p)[1..] + Optional(KCallGroup, p.callGroup));
    RenderPrefix("StartRelay", h, RelayFields(p)[1..] + Optional(KCallGroup, p.callGroup));
  }

  /** The answer's deviceID is the override token when one is set, else the push token. */
  lemma AnswerTokenChoice(p: Profile)
    ensures |p.overrideToken| > 0 ==> Fields(Answer, p)[2] == Field(KDeviceID, p.overrideToken)
    ensures |p.overrideToken| == 0 ==> Fields(Answer, p)[2] == Field(KDeviceID, p.pushToken)
    ensures Fields(Ignore, p)[2] == Field(KDeviceID, p.pushToken)
  {
  }

  /**
   * The poll request spelled out as SendPoll concatenates it: the session,
   * then `||firstPoll=1` and `||firstOpContact=1` when those flags are set.
   */
  lemma PollText(p: Profile, fp: bool, fo: bool)
    ensures Text(PollData(fp, fo), p) ==
      "myMethod=PollData" + ("||myID=" + (p.session
      + ((if fp then "||firstPoll=1" else "") + (if fo then "||firstOpContact=1" else ""))))
  {
    var rest := (if fp then "||firstPoll=1" else "") + (if fo then "||firstOpContact=1" else "");
    PollFields(p, fp, fo);
    assert "myMethod=" + "PollData" == "myMethod=PollData";
    MethodName("PollData", "||myID=", p.session, rest);
  }

  lemma PollFields(p: Profile, fp: bool, fo: bool)
    ensures Text(PollData(fp, fo), p) == "myMethod=" + ("PollData" + (("||myID=" + p.session)
      + ((if fp then "||firstPoll=1" else "") + (if fo then "||firstOpContact=1" else ""))))
  {
    TextIsRendering(PollData(fp, fo), p);
    PollRenderFields(p, fp, fo);
  }

  lemma PollRenderFields(p: Profile, fp: bool, fo: bool)
    ensures RenderFields(Fields(PollData(fp, fo), p)) == ("||myID=" + p.session)
      + ((if fp then "||firstPoll=1" else "") + (if fo then "||firstOpContact=1" else ""))
  {
    var h := [Field(KMyID, p.session)];
    var a, b := Flag(KFirstPoll, fp), Flag(KFirstOpContact, fo);
    assert Fields(PollData(fp, fo), p) == h + (a + b);
    RenderFieldsAppend(h, a + b);
    RenderFieldsAppend(a, b);
    RenderOne(KMyID, p.session);
    FlagText(KFirstPoll, fp);
    FlagText(KFirstOpContact, fo);
  }

  lemma RenderOne(k: Key, v: string)
    ensures RenderFields([Field(k, v)]) == Sep + (KeyText(k) + ("=" + v))
    ensures k == KMyID ==> RenderFields([Field(k, v)]) == "||myID=" + v
  {
    assert [Field(k, v)][1..] == [];
  }

  lemma FlagText(k: Key, b: bool)
    ensures RenderFields(Flag(k, b)) == if b then Sep + (KeyText(k) + "=1") else ""
    ensures k == KFirstPoll ==> RenderFields(Flag(k, b)) == if b then "||firstPoll=1" else ""
    ensures k == KFirstOpContact ==> RenderFields(Flag(k, b)) == if b then "||firstOpContact=1" else ""
  {
    if b {
      RenderOne(k, "1");
      if k == KFirstPoll {
        assert Sep + ("firstPoll" + "=1") == "||firstPoll=1";
      } else if k == KFirstOpContact {
        assert Sep + ("firstOpContact" + "=1") == "||firstOpContact=1";
      }
    }
  }

  // Helper: regrouping the concatenation a `myMethod=` packet is rendered from.
  lemma MethodName(name: string, key: string, v: string, rest: string)
    ensures "myMethod=" + (name + ((key + v) + rest)) == ("myMethod=" + name) + (key + (v + rest))
  {
  }
}
