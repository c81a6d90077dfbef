/**
 * The SIP session manager: a state machine driven by the responses and
 * requests the SIP stack hands it, which announces every change of state to
 * its status listeners. The message handler beneath it (REGISTER, INVITE,
 * ACK, BYE, CANCEL and the responses it sends) is opaque: what the manager
 * asks of it is appended to an action log, together with each notification
 * delivered to a listener.
 */
module SipSpec {
  import opened Wrappers
  import opened JavaText

  datatype SipState =
    | Registering | Unregistering | Ready | Ringing | Calling | Established
    | Idle | Incoming | Timeout | Error | Busy | Declined | Invalid | Canceled | Bye

  /** The enum constant's name, as `toString()` gives it. */
  function Name(s: SipState): string
  {
    match s
    case Registering => "REGISTERING"
    case Unregistering => "UNREGISTERING"
    case Ready => "READY"
    case Ringing => "RINGING"
    case Calling => "CALLING"
    case Established => "ESTABLISHED"
    case Idle => "IDLE"
    case Incoming => "INCOMING"
    case Timeout => "TIMEOUT"
    case Error => "ERROR"
    case Busy => "BUSY"
    case Declined => "DECLINED"
    case Invalid => "INVALID"
    case Canceled => "CANCELED"
    case Bye => "BYE"
  }

  /** The local user's SIP profile: its URI, and whether it needs no registration. */
  datatype LocalProfile = LocalProfile(sipUri: string, isLocal: bool)

  datatype Contact = Contact(user: string, host: string, port: int)

  /** The session the message handler builds from a message and its SDP body. */
  datatype SipSession = SipSession(
    toSipUri: string, callerNumber: string, remoteAddress: string, rtpPort: int, rtcpPort: int)

  /**
   * A request from the stack: its CSeq method (`verb`), the session its body
   * describes (`None` when parsing it throws), and whether answering it with
   * 200 OK throws.
   */
  datatype Request = Request(verb: string, session: Option<SipSession>, okFails: bool)

  /**
   * A response from the stack: the status code, whether it has a body and a
   * dialog, the session its body describes (`None` when parsing it throws),
   * and whether it carries the authentication challenge header.
   */
  datatype Response = Response(
    status: int, hasBody: bool, hasDialog: bool, session: Option<SipSession>, challenge: bool)

  /** The SipRequestState a REGISTER or an INVITE is sent with. */
  datatype RequestKind = RegisterKind | UnregisterKind | Authorization | UnregisterAuthorization

  /** What the listeners are told. */
  datatype Notice =
    | StatusChanged(state: SipState, info: string)
    | SessionChanged(session: Option<SipSession>)
    | CallStatus(message: string)

  datatype Action =
    | Delivered(listener: nat, notice: Notice)
    | Register(kind: RequestKind)
    | Invite(contact: Contact, kind: RequestKind)
    | Authenticate               // nonce and realm copied from the challenge into the profile
    | SetDialog | Ack | SendBye | SendCancel
    | SendRinging | SendNotFound | SendBusyHere | SendOk | SendDecline
    | HandlerReset

  /** The manager's fields as a value; `alive` is the singleton reference being set. */
  datatype Manager = Manager(
    profile: LocalProfile,
    state: SipState,
    session: Option<SipSession>,
    contact: Option<Contact>,
    request: Option<Request>,
    tries: int,                 // registerTryCount, a Java int
    alive: bool,
    listeners: seq<nat>,
    log: seq<Action>)

  /** What the constructor leaves behind. */
  function Initial(profile: LocalProfile): (m: Manager)
    ensures m.state == Idle && m.session.None? && m.tries == 0 && m.listeners == [] && m.log == []
  {
    Manager(profile, Idle, None, None, None, 0, true, [], [])
  }

  // ---------------------------------------------------------------------
  // Notifications
  // ---------------------------------------------------------------------

  /** One delivery of `n` to each listener, in list order. */
  function Deliveries(ls: seq<nat>, n: Notice): (d: seq<Action>)
    ensures |d| == |ls|
  {
    if |ls| == 0 then [] else Deliveries(ls[..|ls| - 1], n) + [Delivered(ls[|ls| - 1], n)]
  }

  lemma {:induction false} DeliveriesInOrder(ls: seq<nat>, n: Notice)
    ensures forall k :: 0 <= k < |ls| ==> Deliveries(ls, n)[k] == Delivered(ls[k], n)
  {
    if |ls| > 0 {
      DeliveriesInOrder(ls[..|ls| - 1], n);
    }
  }

  function Notify(m: Manager, n: Notice): Manager
  {
    m.(log := m.log + Deliveries(m.listeners, n))
  }

  function Do(m: Manager, a: Action): Manager
  {
    m.(log := m.log + [a])
  }

  /** setStatusChanged(s, info): a change of state, announced; a repeated state is ignored. */
  function SetStatus(m: Manager, s: SipState, info: string): Manager
  {
    if m.state == s then m else Notify(m.(state := s), StatusChanged(s, info))
  }

  // ---------------------------------------------------------------------
  // The operations
  // ---------------------------------------------------------------------

  function RegisterProfile(m: Manager): Manager
  {
    if m.profile.isLocal then SetStatus(m, Ready, "")
    else Do(SetStatus(m, Registering, ""), Register(RegisterKind))
  }

  function UnregisterProfile(m: Manager): Manager
  {
    if m.profile.isLocal then SetStatus(m, Idle, "")
    else Do(SetStatus(m, Unregistering, ""), Register(UnregisterKind))
  }

  /** sendInvite(contact): a fresh call attempt, sent with SipRequestState.REGISTER. */
  function SendInvite(m: Manager, c: Contact): Manager
  {
    Do(SetStatus(m.(contact := Some(c), session := None), Calling, ""), Invite(c, RegisterKind))
  }

  /** reset(): everything about the call dropped, IDLE, and the singleton released. */
  function Reset(m: Manager): Manager
  {
    SetStatus(ClearSession(m), Idle, "").(alive := false)
  }

  /** The first half of reset(): the call's fields cleared, the handler reset, an established session's end announced. */
  function ClearSession(m: Manager): Manager
  {
    var m1 := Do(m.(contact := None, request := None, session := None, tries := 0), HandlerReset);
    if m.state == Established then Notify(m1, SessionChanged(None)) else m1
  }

  /** endCall(): BYE on an established call, CANCEL otherwise, and a reset; nothing without a session. */
  function EndCall(m: Manager): Manager
  {
    if m.session.None? then m
    else Reset(Do(m, if m.state == Established then SendBye else SendCancel))
  }

  function AcceptCall(m: Manager): Manager
  {
    if m.request.Some? then Do(m, SendOk) else m
  }

  function DeclineCall(m: Manager): Manager
  {
    Reset(if m.request.Some? then Do(m, SendDecline) else m)
  }

  function ProcessTimeout(m: Manager): Manager
  {
    SetStatus(m, Timeout, "")
  }

  /** An INVITE from the far end. */
  function IncomingInvite(m: Manager, r: Request): Manager
  {
    if m.session.Some? then Do(m, SendBusyHere)
    else if r.session.None? then SetStatus(m, Error, "")
    else
      var s := r.session.value;
      var m1 := m.(session := r.session);
      if s.toSipUri == m.profile.sipUri then
        Do(Notify(SetStatus(m1, Incoming, s.callerNumber),
                  CallStatus("Incoming call from " + s.callerNumber)).(request := Some(r)),
           SendRinging)
      else Do(m1, SendNotFound)
  }

  /** processRequest: INVITE, CANCEL, ACK and BYE; other methods are ignored. */
  function ProcessRequest(m: Manager, r: Request): Manager
  {
    if r.verb == "INVITE" then IncomingInvite(m, r)
    else if r.verb == "CANCEL" then Reset(SetStatus(m, Canceled, ""))
    else if r.verb == "ACK" then
      if m.session.None? then m
      else Notify(SetStatus(Do(m, SetDialog), Established, m.session.value.callerNumber),
                  SessionChanged(m.session))
    else if r.verb == "BYE" then
      Reset(SetStatus(if r.okFails then SetStatus(m, Error, "") else Do(m, SendOk), Bye, ""))
    else m
  }

  /** The 200 OK case (reached from 180 too): the call answered, or (un)registration done. */
  function Ok200(m: Manager, r: Response): Manager
  {
    if (m.state == Ringing || m.state == Calling) && r.hasBody && r.hasDialog then
      if r.session.None? then SetStatus(m, Error, "")
      else Notify(SetStatus(Do(Do(m.(session := r.session), SetDialog), Ack), Established, ""),
                  SessionChanged(r.session))
    else if m.state == Registering then SetStatus(m, Ready, "").(tries := 0)
    else if m.state == Unregistering then SetStatus(m, Idle, "").(tries := 0)
    else m
  }

  /** 401: another try, answered with an authorised (un)registration. */
  function Unauthorized(m: Manager, r: Response): Manager
  {
    var m1 := m.(tries := Wrap32(m.tries + 1));
    if !r.challenge then SetStatus(m1, Error, "")   // the missing header throws
    else
      var m2 := Do(m1, Authenticate);
      if m.state == Registering then Do(m2, Register(Authorization))
      else if m.state == Unregistering then Do(m2, Register(UnregisterAuthorization))
      else m2
  }

  /** 407: another try, answered with an authorised INVITE while calling with no session. */
  function ProxyAuthRequired(m: Manager, r: Response): Manager
  {
    var m1 := m.(tries := Wrap32(m.tries + 1));
    if m.session.Some? || m.contact.None? then m1
    else if !r.challenge then SetStatus(m1, Error, "")
    else
      var m2 := Do(m1, Authenticate);
      if m.state == Calling then Do(m2, Invite(m.contact.value, Authorization)) else m2
  }

  /** The state each failure status leads to. */
  function FailureState(status: int): Option<SipState>
  {
    if status == 404 then Some(Invalid)
    else if status == 480 || status == 500 then Some(Error)
    else if status == 486 then Some(Busy)
    else if status == 603 then Some(Declined)
    else None
  }

  /** processResponse: the switch on the status code, with 180 falling into 200. */
  function ProcessResponse(m: Manager, r: Response): Manager
  {
    if r.status == 180 then Ok200(if m.state == Calling then SetStatus(m, Ringing, "") else m, r)
    else if r.status == 200 then Ok200(m, r)
    else if r.status == 401 then Unauthorized(m, r)
    else if r.status == 407 then ProxyAuthRequired(m, r)
    else if FailureState(r.status).Some? then SetStatus(m, FailureState(r.status).value, "")
    else m
  }

  function AddListener(m: Manager, l: nat): Manager
  {
    m.(listeners := m.listeners + [l])
  }

  /** List.remove(Object): the first occurrence, if any. */
  function RemoveFirst(ls: seq<nat>, l: nat): (r: seq<nat>)
    ensures l !in ls ==> r == ls
  {
    if |ls| == 0 then []
    else if ls[0] == l then ls[1..] else [ls[0]] + RemoveFirst(ls[1..], l)
  }

  /** Removing a listener that is present drops exactly one copy of it. */
  lemma {:induction false} RemoveFirstDropsOne(ls: seq<nat>, l: nat)
    requires l in ls
    ensures |RemoveFirst(ls, l)| == |ls| - 1
    ensures multiset(RemoveFirst(ls, l)) == multiset(ls) - multiset{l}
  {
    assert ls == [ls[0]] + ls[1..];
    if ls[0] != l {
      RemoveFirstDropsOne(ls[1..], l);
    }
  }

  /** The search of List.remove(Object): the first index holding `l`, or |ls| when none does. */
  method FirstIndex(ls: seq<nat>, l: nat) returns (i: nat)
    ensures i <= |ls| && l !in ls[..i]
    ensures i < |ls| ==> ls[i] == l
  {
    i := 0;
    while i < |ls| && ls[i] != l
      invariant 0 <= i <= |ls|
      invariant l !in ls[..i]
    {
      assert ls[..i + 1] == ls[..i] + [ls[i]];
      i := i + 1;
    }
  }

  /** The removal cuts the list at the first index holding `l`. */
  lemma {:induction false} RemoveFirstAt(ls: seq<nat>, l: nat, i: nat)
    requires i <= |ls| && l !in ls[..i] && (i < |ls| ==> ls[i] == l)
    ensures RemoveFirst(ls, l) == if i < |ls| then ls[..i] + ls[i + 1..] else ls
  {
    if i == |ls| {
      assert ls[..i] == ls;
    } else if i > 0 {
      assert ls[0] == ls[..i][0];
      assert ls[1..][..i - 1] == ls[1..i];
      RemoveFirstAt(ls[1..], l, i - 1);
      assert ls[1..][..i - 1] + ls[1..][i..] == ls[1..i] + ls[i + 1..];
      assert ls[..i] + ls[i + 1..] == [ls[0]] + (ls[1..i] + ls[i + 1..]);
    }
  }

  function RemoveListener(m: Manager, l: nat): Manager
  {
    m.(listeners := RemoveFirst(m.listeners, l))
  }

  // ---------------------------------------------------------------------
  // Properties
  // ---------------------------------------------------------------------

  /** A change of state is announced once to every listener; a repeated state changes nothing. */
  lemma StatusAnnouncedOnChange(m: Manager, s: SipState, info: string)
    ensures var m2 := SetStatus(m, s, info);
      && m2.state == s
      && (m.state == s <==> m2 == m)
      && (m.state != s ==>
            (&& m2.log[..|m.log|] == m.log && |m2.log| == |m.log| + |m.listeners|
             && forall k :: 0 <= k < |m.listeners| ==>
                  m2.log[|m.log| + k] == Delivered(m.listeners[k], StatusChanged(s, info))))
  {
    if m.state != s {
      DeliveriesInOrder(m.listeners, StatusChanged(s, info));
      var m2 := SetStatus(m, s, info);
      assert m2.log == m.log + Deliveries(m.listeners, StatusChanged(s, info));
      assert m2 != m by {
        assert m2.state != m.state;
      }
    }
  }

  /** Announcing the same state twice is announcing it once. */
  lemma SetStatusIdempotent(m: Manager, s: SipState, i: string, j: string)
    ensures SetStatus(SetStatus(m, s, i), s, j) == SetStatus(m, s, i)
  {
  }

  /** A 200 OK on a call, a registration and an unregistration. */
  lemma OkResponse(m: Manager, r: Response)
    requires r.status == 200
    ensures var m2 := ProcessResponse(m, r);
      && ((m.state == Calling || m.state == Ringing) && r.hasBody && r.hasDialog && r.session.Some? ==>
            m2.state == Established && m2.session == r.session && m2.tries == m.tries)
      && (m.state == Registering ==> m2.state == Ready && m2.tries == 0)
      && (m.state == Unregistering ==> m2.state == Idle && m2.tries == 0)
      && (m.state !in {Calling, Ringing, Registering, Unregistering} ==> m2 == m)
  {
    if (m.state == Calling || m.state == Ringing) && r.hasBody && r.hasDialog && r.session.Some? {
      var m1 := Do(Do(m.(session := r.session), SetDialog), Ack);
      assert ProcessResponse(m, r) == Notify(SetStatus(m1, Established, ""), SessionChanged(r.session));
    }
  }

  /**
   * A 180 while calling announces RINGING and then, with no break, runs the
   * 200 case on the same response: an answered 180 ends ESTABLISHED.
   */
  lemma RingingFallsThrough(m: Manager, r: Response)
    requires r.status == 180 && m.state == Calling
    ensures var m1 := SetStatus(m, Ringing, "");
      && ProcessResponse(m, r) == Ok200(m1, r)
      && (!(r.hasBody && r.hasDialog) ==> ProcessResponse(m, r) == m1 && m1.state == Ringing)
      && (r.hasBody && r.hasDialog && r.session.Some? ==>
            ProcessResponse(m, r).state == Established
            && ProcessResponse(m, r).log[..|m1.log|] == m1.log)
  {
    var m1 := SetStatus(m, Ringing, "");
    if r.hasBody && r.hasDialog && r.session.Some? {
      var m2 := Do(Do(m1.(session := r.session), SetDialog), Ack);
      var m3 := SetStatus(m2, Established, "");
      assert Ok200(m1, r) == Notify(m3, SessionChanged(r.session));
      assert m3.log[..|m1.log|] == m1.log;
    }
  }

  /** 404, 480, 486, 500 and 603 move to their state and nothing else; unlisted codes change nothing. */
  lemma FailureResponses(m: Manager, r: Response)
    ensures r.status == 404 ==> ProcessResponse(m, r) == SetStatus(m, Invalid, "")
    ensures r.status == 480 || r.status == 500 ==> ProcessResponse(m, r) == SetStatus(m, Error, "")
    ensures r.status == 486 ==> ProcessResponse(m, r) == SetStatus(m, Busy, "")
    ensures r.status == 603 ==> ProcessResponse(m, r) == SetStatus(m, Declined, "")
    ensures r.status !in {180, 200, 401, 404, 407, 480, 486, 500, 603} ==> ProcessResponse(m, r) == m
  {
  }

  /** Every 401 or 407 counts one more try, whatever the count already is. */
  lemma ChallengeCountsTry(m: Manager, r: Response)
    requires r.status == 401 || r.status == 407
    ensures ProcessResponse(m, r).tries == Wrap32(m.tries + 1)
  {
    if r.status == 401 {
      assert ProcessResponse(m, r) == Unauthorized(m, r);
    } else {
      assert ProcessResponse(m, r) == ProxyAuthRequired(m, r);
    }
  }

  /** `k` challenged 401s while registering: k more tries, k re-registrations, no limit. */
  function Challenged(m: Manager, r: Response, k: nat): Manager
  {
    if k == 0 then m else ProcessResponse(Challenged(m, r, k - 1), r)
  }

  lemma {:induction false} RegistrationRetriesUnbounded(m: Manager, r: Response, k: nat)
    requires r.status == 401 && r.challenge && m.state == Registering
    requires 0 <= m.tries && m.tries + k <= IntMax
    ensures var m2 := Challenged(m, r, k);
      && m2.state == Registering && m2.tries == m.tries + k
      && |m2.log| == |m.log| + 2 * k
      && m2.log[..|m.log|] == m.log
      && (k > 0 ==> m2.log[|m2.log| - 1] == Register(Authorization))
  {
    if k > 0 {
      RegistrationRetriesUnbounded(m, r, k - 1);
      var m1 := Challenged(m, r, k - 1);
      assert Challenged(m, r, k) == Unauthorized(m1, r);
      assert Unauthorized(m1, r) ==
        m1.(tries := m1.tries + 1, log := m1.log + [Authenticate] + [Register(Authorization)]);
    }
  }

  /** A 407 re-invites only while calling with no session and a contact. */
  lemma ProxyChallengeReinvites(m: Manager, r: Response)
    requires r.status == 407 && r.challenge
    ensures var m2 := ProcessResponse(m, r);
      (m.state == Calling && m.session.None? && m.contact.Some?) <==>
        (&& m.contact.Some? && |m2.log| == |m.log| + 2
         && m2.log[|m2.log| - 1] == Invite(m.contact.value, Authorization))
  {
  }

  /**
   * reset(): the call dropped, IDLE, released; the handler reset first, and
   * session-changed(null) announced only when the call was ESTABLISHED.
   */
  lemma ResetClears(m: Manager)
    ensures var m2 := Reset(m);
      && m2.state == Idle && m2.contact.None? && m2.request.None? && m2.session.None?
      && m2.tries == 0 && !m2.alive && m2.listeners == m.listeners
      && m2.log == m.log + [HandlerReset]
                   + (if m.state == Established then Deliveries(m.listeners, SessionChanged(None)) else [])
                   + (if m.state == Idle then [] else Deliveries(m.listeners, StatusChanged(Idle, "")))
  {
    var m1 := Do(m.(contact := None, request := None, session := None, tries := 0), HandlerReset);
    if m.state == Established {
      assert Reset(m) == Notify(Notify(m1, SessionChanged(None)).(state := Idle), StatusChanged(Idle, "")).(alive := false);
    } else if m.state != Idle {
      assert Reset(m) == Notify(m1.(state := Idle), StatusChanged(Idle, "")).(alive := false);
    }
  }

  /** A hang-up of the far end is never announced as session-changed(null): BYE comes first. */
  lemma ByeNeverClearsSession(m: Manager, r: Request)
    requires r.verb == "BYE"
    ensures var m1 := SetStatus(if r.okFails then SetStatus(m, Error, "") else Do(m, SendOk), Bye, "");
      && ProcessRequest(m, r) == Reset(m1)
      && m1.state == Bye
      && Reset(m1).log == m1.log + [HandlerReset] + Deliveries(m.listeners, StatusChanged(Idle, ""))
  {
  }

  /** endCall(): nothing without a session; BYE when established, CANCEL otherwise; then reset. */
  lemma EndCallSends(m: Manager)
    ensures m.session.None? ==> EndCall(m) == m
    ensures m.session.Some? ==>
      var m2 := EndCall(m);
      && m2.state == Idle && m2.session.None? && !m2.alive
      && m2.log[|m.log|] == (if m.state == Established then SendBye else SendCancel)
  {
    if m.session.Some? {
      var a := if m.state == Established then SendBye else SendCancel;
      ResetClears(Do(m, a));
    }
  }

  /** registerProfile(): READY for a local profile, otherwise REGISTERING and a REGISTER sent. */
  lemma RegisterProfileOutcome(m: Manager)
    ensures var m2 := RegisterProfile(m);
      && (m.profile.isLocal ==> m2.state == Ready && m2.log == SetStatus(m, Ready, "").log)
      && (!m.profile.isLocal ==> m2.state == Registering && m2.log[|m2.log| - 1] == Register(RegisterKind))
  {
  }

  /** sendInvite(c): the contact kept, no session, CALLING, and the INVITE sent. */
  lemma SendInviteOutcome(m: Manager, c: Contact)
    ensures var m2 := SendInvite(m, c);
      && m2.state == Calling && m2.contact == Some(c) && m2.session.None?
      && m2.log[|m2.log| - 1] == Invite(c, RegisterKind)
  {
  }

  /** An INVITE for the local user while idle rings; a second INVITE during a session is busy. */
  lemma IncomingInviteOutcome(m: Manager, r: Request)
    requires r.verb == "INVITE"
    ensures m.session.Some? ==> ProcessRequest(m, r) == Do(m, SendBusyHere)
    ensures m.session.None? && r.session.Some? && r.session.value.toSipUri == m.profile.sipUri ==>
      var m2 := ProcessRequest(m, r);
      m2.state == Incoming && m2.session == r.session && m2.request == Some(r)
      && m2.log[|m2.log| - 1] == SendRinging
    ensures m.session.None? && r.session.Some? && r.session.value.toSipUri != m.profile.sipUri ==>
      ProcessRequest(m, r) == Do(m.(session := r.session), SendNotFound)
  {
  }

  /** Removing a listener that was just added gives the list back when it was not there before. */
  lemma {:induction false} RemoveAfterAdd(ls: seq<nat>, l: nat)
    requires l !in ls
    ensures RemoveFirst(ls + [l], l) == ls
  {
    if |ls| > 0 {
      assert (ls + [l])[1..] == ls[1..] + [l];
      RemoveAfterAdd(ls[1..], l);
      assert ls == [ls[0]] + ls[1..];
    }
  }
}

/**
 * The SipManager object: its fields are updated in place, and each method is
 * proved to leave the object as the matching SipSpec function computes from
 * the fields before the call.
 */
module SipManagement {
  import opened Wrappers
  import opened JavaText
  import opened SipSpec

  class SipManager {
    const profile: LocalProfile
    var state: SipState
    var session: Option<SipSession>
    var contact: Option<Contact>
    var request: Option<Request>
    var tries: int
    var alive: bool
    var listeners: seq<nat>
    var log: seq<Action>

    function Snap(): Manager
      reads this
    {
      Manager(profile, state, session, contact, request, tries, alive, listeners, log)
    }

    constructor (p: LocalProfile)
      ensures Snap() == Initial(p)
    {
      profile := p;
      state := Idle;
      session := None;
      contact := None;
      request := None;
      tries := 0;
      alive := true;
      listeners := [];
      log := [];
    }

    method Perform(a: Action)
      modifies this
      ensures Snap() == Do(old(Snap()), a)
    {
      log := log + [a];
    }

    /** The loop over the status listeners. */
    method Broadcast(n: Notice)
      modifies this
      ensures Snap() == Notify(old(Snap()), n)
    {
      var i := 0;
      while i < |listeners|
        invariant 0 <= i <= |listeners|
        invariant Snap() == old(Snap()).(log := old(log) + Deliveries(listeners[..i], n))
      {
        assert listeners[..i + 1][..i] == listeners[..i];
        log := log + [Delivered(listeners[i], n)];
        i := i + 1;
      }
      assert listeners[..i] == listeners;
    }

    method SetStatusChanged(s: SipState, info: string)
      modifies this
      ensures Snap() == SetStatus(old(Snap()), s, info)
    {
      if state != s {
        state := s;
        Broadcast(StatusChanged(s, info));
      }
    }

    method RegisterProfile()
      modifies this
      ensures Snap() == SipSpec.RegisterProfile(old(Snap()))
    {
      if profile.isLocal {
        SetStatusChanged(Ready, "");
      } else {
        SetStatusChanged(Registering, "");
        Perform(Register(RegisterKind));
      }
    }

    method UnregisterProfile()
      modifies this
      ensures Snap() == SipSpec.UnregisterProfile(old(Snap()))
    {
      if profile.isLocal {
        SetStatusChanged(Idle, "");
      } else {
        SetStatusChanged(Unregistering, "");
        Perform(Register(UnregisterKind));
      }
    }

    method SendInvite(c: Contact)
      modifies this
      ensures Snap() == SipSpec.SendInvite(old(Snap()), c)
    {
      contact := Some(c);
      session := None;
      SetStatusChanged(Calling, "");
      Perform(Invite(c, RegisterKind));
    }

    method Reset()
      modifies this
      ensures Snap() == SipSpec.Reset(old(Snap()))
    {
      ClearSession();
      SetStatusChanged(Idle, "");
      alive := false;
    }

    method ClearSession()
      modifies this
      ensures Snap() == SipSpec.ClearSession(old(Snap()))
    {
      contact := None;
      request := None;
      session := None;
      tries := 0;
      Perform(HandlerReset);
      if state == Established {
        Broadcast(SessionChanged(None));
      }
    }

    method EndCall()
      modifies this
      ensures Snap() == SipSpec.EndCall(old(Snap()))
    {
      if session.Some? {
        if state == Established {
          Perform(SendBye);
        } else {
          Perform(SendCancel);
        }
        Reset();
      }
    }

    method AcceptCall()
      modifies this
      ensures Snap() == SipSpec.AcceptCall(old(Snap()))
    {
      if request.Some? {
        Perform(SendOk);
      }
    }

    method DeclineCall()
      modifies this
      ensures Snap() == SipSpec.DeclineCall(old(Snap()))
    {
      if request.Some? {
        Perform(SendDecline);
      }
      Reset();
    }

    /** confirmStateAndReset() and close(). */
    method ConfirmStateAndReset()
      modifies this
      ensures Snap() == SipSpec.Reset(old(Snap()))
    {
      Reset();
    }

    method ProcessTimeout()
      modifies this
      ensures Snap() == SipSpec.ProcessTimeout(old(Snap()))
    {
      SetStatusChanged(Timeout, "");
    }

    method IncomingInvite(r: Request)
      modifies this
      ensures Snap() == SipSpec.IncomingInvite(old(Snap()), r)
    {
      if session.Some? {
        Perform(SendBusyHere);
      } else if r.session.None? {
        SetStatusChanged(Error, "");
      } else {
        var s := r.session.value;
        session := r.session;
        if s.toSipUri == profile.sipUri {
          Ring(r, s.callerNumber);
        } else {
          Perform(SendNotFound);
        }
      }
    }

    /** INCOMING, the call status, the request kept, and 180 Ringing sent. */
    method Ring(r: Request, caller: string)
      modifies this
      ensures Snap() == Do(Notify(SetStatus(old(Snap()), Incoming, caller),
                                  CallStatus("Incoming call from " + caller)).(request := Some(r)),
                           SendRinging)
    {
      SetStatusChanged(Incoming, caller);
      Broadcast(CallStatus("Incoming call from " + caller));
      request := Some(r);
      Perform(SendRinging);
    }

    method ProcessRequest(r: Request)
      modifies this
      ensures Snap() == SipSpec.ProcessRequest(old(Snap()), r)
    {
      if r.verb == "INVITE" {
        IncomingInvite(r);
      } else if r.verb == "CANCEL" {
        SetStatusChanged(Canceled, "");
        Reset();
      } else if r.verb == "ACK" {
        if session.Some? {
          Acknowledged();
        }
      } else if r.verb == "BYE" {
        HungUp(r.okFails);
      }
    }

    /** ACK on the session: the dialog kept, ESTABLISHED, and the session announced. */
    method Acknowledged()
      requires session.Some?
      modifies this
      ensures Snap() == Notify(SetStatus(Do(old(Snap()), SetDialog), Established, old(session).value.callerNumber),
                               SessionChanged(old(session)))
    {
      Perform(SetDialog);
      SetStatusChanged(Established, session.value.callerNumber);
      Broadcast(SessionChanged(session));
    }

    /** BYE: 200 OK (ERROR when that throws), BYE announced, and a reset. */
    method HungUp(okFails: bool)
      modifies this
      ensures Snap() == SipSpec.Reset(SetStatus(if okFails then SetStatus(old(Snap()), Error, "")
                                             else Do(old(Snap()), SendOk), Bye, ""))
    {
      if okFails {
        SetStatusChanged(Error, "");
      } else {
        Perform(SendOk);
      }
      SetStatusChanged(Bye, "");
      Reset();
    }

    method Ok200(r: Response)
      modifies this
      ensures Snap() == SipSpec.Ok200(old(Snap()), r)
    {
      if (state == Ringing || state == Calling) && r.hasBody && r.hasDialog {
        if r.session.None? {
          SetStatusChanged(Error, "");
        } else {
          Answered(r.session);
        }
      } else if state == Registering {
        SetStatusChanged(Ready, "");
        tries := 0;
      } else if state == Unregistering {
        SetStatusChanged(Idle, "");
        tries := 0;
      }
    }

    /** The answer's session kept, the dialog set, ACK sent, ESTABLISHED and the session announced. */
    method Answered(s: Option<SipSession>)
      modifies this
      ensures Snap() == Notify(SetStatus(Do(Do(old(Snap()).(session := s), SetDialog), Ack), Established, ""),
                               SessionChanged(s))
    {
      session := s;
      Perform(SetDialog);
      Perform(Ack);
      SetStatusChanged(Established, "");
      Broadcast(SessionChanged(s));
    }

    method Unauthorized(r: Response)
      modifies this
      ensures Snap() == SipSpec.Unauthorized(old(Snap()), r)
    {
      tries := Wrap32(tries + 1);
      if !r.challenge {
        SetStatusChanged(Error, "");
      } else {
        Perform(Authenticate);
        if state == Registering {
          Perform(Register(Authorization));
        } else if state == Unregistering {
          Perform(Register(UnregisterAuthorization));
        }
      }
    }

    method ProxyAuthRequired(r: Response)
      modifies this
      ensures Snap() == SipSpec.ProxyAuthRequired(old(Snap()), r)
    {
      tries := Wrap32(tries + 1);
      if session.None? && contact.Some? {
        if !r.challenge {
          SetStatusChanged(Error, "");
        } else {
          Perform(Authenticate);
          if state == Calling {
            Perform(Invite(contact.value, Authorization));
          }
        }
      }
    }

    method ProcessResponse(r: Response)
      modifies this
      ensures Snap() == SipSpec.ProcessResponse(old(Snap()), r)
    {
      if r.status == 180 {
        if state == Calling {
          SetStatusChanged(Ringing, "");
        }
        Ok200(r);
      } else if r.status == 200 {
        Ok200(r);
      } else if r.status == 401 {
        Unauthorized(r);
      } else if r.status == 407 {
        ProxyAuthRequired(r);
      } else {
        var f := FailureState(r.status);
        if f.Some? {
          SetStatusChanged(f.value, "");
        }
      }
    }

    method AddStatusListener(l: nat)
      modifies this
      ensures Snap() == AddListener(old(Snap()), l)
    {
      listeners := listeners + [l];
    }

    method RemoveStatusListener(l: nat)
      modifies this
      ensures Snap() == RemoveListener(old(Snap()), l)
    {
      var ls := listeners;
      var i := FirstIndex(ls, l);
      RemoveFirstAt(ls, l, i);
      if i < |ls| {
        listeners := ls[..i] + ls[i + 1..];
      }
    }
  }
}
