/** Calls (tintin-cli/src/main.rs): signalling, and the media secret both ends derive. */
module Calls {
  import opened Crypto
  import opened Sessions

  datatype CallPhase = Offering | Ringing | Connected

  datatype ActiveCall = ActiveCall(
    peer: User,
    callId: string,
    mediaKey: KeyPair,
    peerKey: Option<Key>,
    secret: Option<Key>,
    phase: CallPhase)

  /** A decrypted call signal; a key that does not decode is `None`. */
  datatype Signal =
    | Offer(callId: string, key: Option<Key>)
    | Answer(callId: string, key: Option<Key>)
    | Hangup(callId: string)

  type CallState = Option<ActiveCall>

  /** `start_call`: refused during a call. */
  function Start(s: CallState, peer: User, callId: string, key: KeyPair): (CallState, Result<Signal>) {
    if s.Some? then (s, Err)
    else
      (Some(ActiveCall(peer, callId, key, None, None, Offering)), Ok(Offer(callId, Some(key.PublicKey()))))
  }

  /** `accept_call`: any current call with that id, whatever its phase, gets a new media key. */
  function AcceptCall(s: CallState, callId: string, key: KeyPair): (CallState, Result<Signal>) {
    if s.None? || s.value.callId != callId then (s, Err)
    else
      var c := s.value.(phase := Connected, mediaKey := key);
      (Some(if c.peerKey.Some? then c.(secret := Some(key.Agree(c.peerKey.value))) else c),
       Ok(Answer(callId, Some(key.PublicKey()))))
  }

  function End(s: CallState): (CallState, Result<Signal>) {
    if s.None? then (s, Err) else (None, Ok(Hangup(s.value.callId)))
  }

  /** `process_call_signal`: an offer replaces any call; an answer is not matched to the call's
      id; a hang-up ends any call.  `placeholder` is the key generated for an incoming call. */
  function Process(s: CallState, sender: User, signal: Signal, placeholder: KeyPair): CallState {
    match signal
    case Offer(id, key) => Some(ActiveCall(sender, id, placeholder, key, None, Ringing))
    case Answer(_, Some(key)) =>
      if s.Some? && s.value.phase != Connected then
        Some(s.value.(peerKey := Some(key), secret := Some(s.value.mediaKey.Agree(key)), phase := Connected))
      else s
    case Answer(_, None) => s
    case Hangup(_) => None
  }

  class CallManager {
    var active: CallState

    constructor ()
      ensures active == None
    {
      active := None;
    }

    method StartCall(peer: User, callId: string, key: KeyPair) returns (out: Result<Signal>)
      modifies this
      ensures (active, out) == Start(old(active), peer, callId, key)
    {
      if active.Some? {
        return Err;
      }
      active := Some(ActiveCall(peer, callId, key, None, None, Offering));
      return Ok(Offer(callId, Some(key.PublicKey())));
    }

    method Accept(callId: string, key: KeyPair) returns (out: Result<Signal>)
      modifies this
      ensures (active, out) == AcceptCall(old(active), callId, key)
    {
      if active.None? || active.value.callId != callId {
        return Err;
      }
      var call := active.value.(phase := Connected, mediaKey := key);
      if call.peerKey.Some? {
        call := call.(secret := Some(call.mediaKey.Agree(call.peerKey.value)));
      }
      active := Some(call);
      return Ok(Answer(callId, Some(key.PublicKey())));
    }

    method EndCall() returns (out: Result<Signal>)
      modifies this
      ensures (active, out) == End(old(active))
    {
      if active.None? {
        return Err;
      }
      out := Ok(Hangup(active.value.callId));
      active := None;
    }

    method ProcessSignal(sender: User, signal: Signal, placeholder: KeyPair)
      modifies this
      ensures active == Process(old(active), sender, signal, placeholder)
    {
      match signal {
        case Offer(id, key) =>
          active := Some(ActiveCall(sender, id, placeholder, key, None, Ringing));
        case Answer(_, key) =>
          if active.Some? && active.value.phase != Connected && key.Some? {
            var call := active.value;
            call := call.(peerKey := key);
            call := call.(secret := Some(call.mediaKey.Agree(key.value)));
            active := Some(call.(phase := Connected));
          }
        case Hangup(_) =>
          active := None;
      }
    }
  }

  // ── One client, any run ─────────────────────────────────────────────────

  datatype CallEvent =
    | Starting(peer: User, callId: string, key: KeyPair)
    | Accepting(callId: string, key: KeyPair)
    | Ending
    | Incoming(sender: User, signal: Signal, placeholder: KeyPair)

  function CallStep(s: CallState, e: CallEvent): CallState {
    match e
    case Starting(peer, id, key) => Start(s, peer, id, key).0
    case Accepting(id, key) => AcceptCall(s, id, key).0
    case Ending => End(s).0
    case Incoming(sender, signal, placeholder) => Process(s, sender, signal, placeholder)
  }

  function RunCalls(events: seq<CallEvent>): CallState {
    if events == [] then None else CallStep(RunCalls(events[..|events| - 1]), events[|events| - 1])
  }

  /** There is a media secret exactly when the call is connected and the peer's key is known, and
      it is what the two media keys in the call agree on. */
  ghost predicate SecretFits(s: CallState) {
    s.Some? ==>
      var c := s.value;
      && (c.secret.Some? <==> c.phase == Connected && c.peerKey.Some?)
      && (c.secret.Some? ==> c.secret.value == c.mediaKey.Agree(c.peerKey.value))
  }

  /** Over every sequence of user actions and incoming signals, genuine or not. */
  lemma {:induction false} SecretAlwaysFits(events: seq<CallEvent>)
    ensures SecretFits(RunCalls(events))
  {
    if events != [] {
      SecretAlwaysFits(events[..|events| - 1]);
    }
  }

  // ── Two clients, one call ───────────────────────────────────────────────

  /** A caller and a callee who exchange signals in order, and what has happened so far: the key
      offered, the side that accepted with its key, and whether anyone hung up. */
  datatype Line = Line(
    caller: CallState,
    callee: CallState,
    toCaller: seq<Signal>,
    toCallee: seq<Signal>,
    offered: Option<KeyPair>,
    accepted: Option<(Side, KeyPair)>,
    ended: bool)

  datatype Side = Caller | Callee

  datatype LineAct =
    | Dial(callId: string, key: KeyPair)                 // the one offer
    | PickUp(side: Side, callId: string, key: KeyPair)   // the one accept, by either side
    | HangUp(side: Side)
    | Hear(side: Side, placeholder: KeyPair)             // process the next signal

  const IDLE := Line(None, None, [], [], None, None, false)

  function Send(signals: seq<Signal>, out: Result<Signal>): seq<Signal> {
    if out.Ok? then signals + [out.value] else signals
  }

  /** One step, in a run with at most one offer and at most one accept. */
  function LineStep(l: Line, a: LineAct, callerName: User, calleeName: User): Line {
    match a
    case Dial(id, key) =>
      if l.offered.Some? then l
      else
        var (s, out) := Start(l.caller, calleeName, id, key);
        l.(caller := s, toCallee := Send(l.toCallee, out), offered := Some(key))
    case PickUp(side, id, key) =>
      if l.accepted.Some? then l
      else if side == Caller then
        var (s, out) := AcceptCall(l.caller, id, key);
        l.(caller := s, toCallee := Send(l.toCallee, out), accepted := if out.Ok? then Some((side, key)) else None)
      else
        var (s, out) := AcceptCall(l.callee, id, key);
        l.(callee := s, toCaller := Send(l.toCaller, out), accepted := if out.Ok? then Some((side, key)) else None)
    case HangUp(side) =>
      if side == Caller then
        var (s, out) := End(l.caller);
        l.(caller := s, toCallee := Send(l.toCallee, out), ended := l.ended || out.Ok?)
      else
        var (s, out) := End(l.callee);
        l.(callee := s, toCaller := Send(l.toCaller, out), ended := l.ended || out.Ok?)
    case Hear(side, placeholder) =>
      if side == Caller then
        if l.toCaller == [] then l
        else l.(caller := Process(l.caller, calleeName, l.toCaller[0], placeholder), toCaller := l.toCaller[1..])
      else
        if l.toCallee == [] then l
        else l.(callee := Process(l.callee, callerName, l.toCallee[0], placeholder), toCallee := l.toCallee[1..])
  }

  function RunLine(acts: seq<LineAct>, callerName: User, calleeName: User): Line {
    if acts == [] then IDLE
    else LineStep(RunLine(acts[..|acts| - 1], callerName, calleeName), acts[|acts| - 1], callerName, calleeName)
  }

  /** An answer on its way to a side carries the key the other side accepted with; the offer on
      its way carries the caller's key, and is the first signal the callee will ever see. */
  ghost predicate SignalsFit(l: Line) {
    && (forall i :: 0 <= i < |l.toCaller| ==>
          && !l.toCaller[i].Offer?
          && (l.toCaller[i].Answer? ==>
                && l.accepted.Some? && l.accepted.value.0 == Callee
                && l.toCaller[i].key == Some(l.accepted.value.1.PublicKey())))
    && (forall i :: 0 <= i < |l.toCallee| ==>
          && (l.toCallee[i].Offer? ==>
                i == 0 && l.callee.None? && l.offered.Some? && l.toCallee[i].key == Some(l.offered.value.PublicKey())
                && !(l.accepted.Some? && l.accepted.value.0 == Callee))
          && (l.toCallee[i].Answer? ==> l.accepted.Some? && l.accepted.value.0 == Caller))
    && (l.offered.None? ==> l.caller.None? && l.callee.None? && l.toCallee == [] && l.accepted.None?)
  }

  /** Who holds which keys. */
  ghost predicate KeysFit(l: Line) {
    && SecretFits(l.caller) && SecretFits(l.callee)
    && (l.caller.Some? && l.caller.value.peerKey.Some? ==>
          && l.accepted.Some? && l.accepted.value.0 == Callee
          && l.caller.value.peerKey == Some(l.accepted.value.1.PublicKey()))
    && (l.caller.Some? && !(l.accepted.Some? && l.accepted.value.0 == Caller) ==>
          l.offered == Some(l.caller.value.mediaKey))
    && (l.callee.Some? && !(l.accepted.Some? && l.accepted.value.0 == Caller) ==>
          && l.offered.Some? && l.callee.value.peerKey == Some(l.offered.value.PublicKey())
          && (l.accepted.None? ==> l.callee.value.phase == Ringing)
          && (l.accepted.Some? ==> l.callee.value.phase == Connected && l.callee.value.mediaKey == l.accepted.value.1))
  }

  lemma {:induction false} DialKeeps(l: Line, a: LineAct, callerName: User, calleeName: User)
    requires a.Dial? && SignalsFit(l) && KeysFit(l)
    ensures var l' := LineStep(l, a, callerName, calleeName); SignalsFit(l') && KeysFit(l')
  {
  }

  lemma {:induction false} PickUpKeeps(l: Line, a: LineAct, callerName: User, calleeName: User)
    requires a.PickUp? && SignalsFit(l) && KeysFit(l)
    ensures var l' := LineStep(l, a, callerName, calleeName); SignalsFit(l') && KeysFit(l')
  {
  }

  lemma {:induction false} HangUpKeeps(l: Line, a: LineAct, callerName: User, calleeName: User)
    requires a.HangUp? && SignalsFit(l) && KeysFit(l)
    ensures var l' := LineStep(l, a, callerName, calleeName); SignalsFit(l') && KeysFit(l')
  {
  }

  lemma {:induction false} CallerHears(l: Line, a: LineAct, callerName: User, calleeName: User)
    requires a.Hear? && a.side == Caller && SignalsFit(l) && KeysFit(l)
    ensures var l' := LineStep(l, a, callerName, calleeName); SignalsFit(l') && KeysFit(l')
  {
  }

  lemma {:induction false} CalleeHears(l: Line, a: LineAct, callerName: User, calleeName: User)
    requires a.Hear? && a.side == Callee && SignalsFit(l) && KeysFit(l)
    ensures var l' := LineStep(l, a, callerName, calleeName); SignalsFit(l') && KeysFit(l')
  {
  }

  lemma {:induction false} LineFits(acts: seq<LineAct>, callerName: User, calleeName: User)
    ensures var l := RunLine(acts, callerName, calleeName); SignalsFit(l) && KeysFit(l)
  {
    if acts != [] {
      var front, a := acts[..|acts| - 1], acts[|acts| - 1];
      LineFits(front, callerName, calleeName);
      var l := RunLine(front, callerName, calleeName);
      match a
      case Dial(_, _) => DialKeeps(l, a, callerName, calleeName);
      case PickUp(_, _, _) => PickUpKeeps(l, a, callerName, calleeName);
      case HangUp(_) => HangUpKeeps(l, a, callerName, calleeName);
      case Hear(side, _) =>
        if side == Caller {
          CallerHears(l, a, callerName, calleeName);
        } else {
          CalleeHears(l, a, callerName, calleeName);
        }
    }
  }

  /** In every run of one call, with one offer, one accept and any hang-ups, two sides that both
      hold a media secret hold the same one. */
  lemma {:induction false} SecretsAgree(acts: seq<LineAct>, callerName: User, calleeName: User)
    ensures var l := RunLine(acts, callerName, calleeName);
      l.caller.Some? && l.callee.Some? && l.caller.value.secret.Some? && l.callee.value.secret.Some? ==>
        l.caller.value.secret == l.callee.value.secret
  {
    LineFits(acts, callerName, calleeName);
    var l := RunLine(acts, callerName, calleeName);
    if l.offered.Some? && l.accepted.Some? {
      AgreeCommutes(l.offered.value, l.accepted.value.1);
    }
  }

  /** While nobody has hung up: the offer is at the callee or on its way; once the callee has
      accepted, its answer is the one signal on its way to the caller, or the caller has it. */
  ghost predicate Unbroken(l: Line) {
    !l.ended ==>
      && (l.offered.Some? ==> l.caller.Some? && l.caller.value.phase != Ringing)
      && (forall i :: 0 <= i < |l.toCaller| ==> !l.toCaller[i].Hangup?)
      && (forall i :: 0 <= i < |l.toCallee| ==> !l.toCallee[i].Hangup?)
      && (l.accepted.None? ==>
            && l.toCaller == [] && (l.caller.Some? ==> l.caller.value.phase == Offering)
            && |l.toCallee| <= 1 && (l.callee.Some? ==> l.toCallee == []))
      && (l.accepted.Some? && l.accepted.value.0 == Callee ==>
            && l.caller.Some? && l.callee.Some? && l.callee.value.phase == Connected && l.toCallee == []
            && (if l.toCaller == [] then l.caller.value.phase == Connected && l.caller.value.peerKey.Some?
                else |l.toCaller| == 1 && l.toCaller[0].Answer? && l.caller.value.phase == Offering))
  }

  lemma {:induction false} UnbrokenKept(l: Line, a: LineAct, callerName: User, calleeName: User)
    requires SignalsFit(l) && KeysFit(l) && Unbroken(l)
    ensures Unbroken(LineStep(l, a, callerName, calleeName))
  {
  }

  lemma {:induction false} LineUnbroken(acts: seq<LineAct>, callerName: User, calleeName: User)
    ensures Unbroken(RunLine(acts, callerName, calleeName))
  {
    if acts != [] {
      LineUnbroken(acts[..|acts| - 1], callerName, calleeName);
      LineFits(acts[..|acts| - 1], callerName, calleeName);
      UnbrokenKept(RunLine(acts[..|acts| - 1], callerName, calleeName), acts[|acts| - 1], callerName, calleeName);
    }
  }

  /** If the callee accepted, nobody hung up and the caller has processed its signals, both sides
      are connected and hold the same media secret. */
  lemma {:induction false} CallConnects(acts: seq<LineAct>, callerName: User, calleeName: User)
    requires var l := RunLine(acts, callerName, calleeName);
      !l.ended && l.toCaller == [] && l.accepted.Some? && l.accepted.value.0 == Callee
    ensures var l := RunLine(acts, callerName, calleeName);
      && l.caller.Some? && l.caller.value.phase == Connected && l.caller.value.secret.Some?
      && l.callee.Some? && l.callee.value.phase == Connected && l.callee.value.secret == l.caller.value.secret
  {
    LineFits(acts, callerName, calleeName);
    LineUnbroken(acts, callerName, calleeName);
    SecretsAgree(acts, callerName, calleeName);
  }

  // ── Which call is meant ─────────────────────────────────────────────────

  /** The id of the call that was dialled: that of the first dial. */
  function Dialled(acts: seq<LineAct>): Option<string> {
    if acts == [] then None
    else
      var a := acts[|acts| - 1];
      if Dialled(acts[..|acts| - 1]).None? && a.Dial? then Some(a.callId) else Dialled(acts[..|acts| - 1])
  }

  ghost predicate Concerns(c: CallState, id: Option<string>, peer: User) {
    c.Some? ==> id == Some(c.value.callId) && c.value.peer == peer
  }

  /** Calls and signals carry the dialled id and name the other side; while nobody has accepted or
      hung up, the offer is on its way alone or the callee has it. */
  ghost predicate IdsFit(l: Line, id: Option<string>, callerName: User, calleeName: User) {
    && (l.offered.Some? <==> id.Some?)
    && Concerns(l.caller, id, calleeName) && Concerns(l.callee, id, callerName)
    && (forall i :: 0 <= i < |l.toCaller| ==> id == Some(l.toCaller[i].callId))
    && (forall i :: 0 <= i < |l.toCallee| ==> id == Some(l.toCallee[i].callId))
    && (!l.ended && l.offered.Some? && l.accepted.None? ==>
          if l.callee.Some? then l.toCallee == [] else |l.toCallee| == 1 && l.toCallee[0].Offer?)
  }

  lemma {:induction false} IdsKept(l: Line, a: LineAct, id: Option<string>, callerName: User, calleeName: User)
    requires SignalsFit(l) && Unbroken(l) && IdsFit(l, id, callerName, calleeName)
    ensures IdsFit(LineStep(l, a, callerName, calleeName), if id.None? && a.Dial? then Some(a.callId) else id,
                   callerName, calleeName)
  {
  }

  lemma {:induction false} LineIds(acts: seq<LineAct>, callerName: User, calleeName: User)
    ensures IdsFit(RunLine(acts, callerName, calleeName), Dialled(acts), callerName, calleeName)
  {
    if acts != [] {
      var front := acts[..|acts| - 1];
      LineIds(front, callerName, calleeName);
      LineFits(front, callerName, calleeName);
      LineUnbroken(front, callerName, calleeName);
      IdsKept(RunLine(front, callerName, calleeName), acts[|acts| - 1], Dialled(front), callerName, calleeName);
    }
  }

  /** Once the call was dialled and the callee has processed the offer, and nobody has accepted or
      hung up: picking up is answered if and only if it names the dialled id.  Then the callee is
      connected under the new key, holds the secret with the caller's key, and the answer with that
      id and key is on its way; otherwise nothing changes. */
  lemma {:induction false} PickUpExactly(acts: seq<LineAct>, callerName: User, calleeName: User, id: string,
                                         key: KeyPair)
    requires var l := RunLine(acts, callerName, calleeName);
      l.offered.Some? && l.toCallee == [] && l.accepted.None? && !l.ended
    ensures var l := RunLine(acts, callerName, calleeName);
      var l' := LineStep(l, PickUp(Callee, id, key), callerName, calleeName);
      if Dialled(acts) == Some(id) then
        && l'.accepted == Some((Callee, key)) && l'.toCaller == l.toCaller + [Answer(id, Some(key.PublicKey()))]
        && l'.callee == Some(ActiveCall(callerName, id, key, Some(l.offered.value.PublicKey()),
                                        Some(key.Agree(l.offered.value.PublicKey())), Connected))
        && l' == l.(callee := l'.callee, toCaller := l'.toCaller, accepted := l'.accepted)
      else l' == l
  {
    LineIds(acts, callerName, calleeName);
    LineFits(acts, callerName, calleeName);
  }

  /** A dialled call rings at the callee as soon as the offer is processed. */
  lemma {:induction false} OfferRings(acts: seq<LineAct>, callerName: User, calleeName: User, placeholder: KeyPair)
    requires var l := RunLine(acts, callerName, calleeName);
      l.offered.Some? && l.callee.None? && l.accepted.None? && !l.ended
    ensures var l := RunLine(acts, callerName, calleeName);
      var l' := LineStep(l, Hear(Callee, placeholder), callerName, calleeName);
      && Dialled(acts).Some? && l'.toCallee == []
      && l'.callee == Some(ActiveCall(callerName, Dialled(acts).value, placeholder,
                                      Some(l.offered.value.PublicKey()), None, Ringing))
  {
    LineIds(acts, callerName, calleeName);
    LineFits(acts, callerName, calleeName);
  }

  // ── One client, exactly ─────────────────────────────────────────────────

  /** The call a client is in, by the events alone: its peer and id.  A start counts only without a
      call, an offer always, and a hang-up by either side ends it. */
  function InCall(events: seq<CallEvent>): Option<(User, string)> {
    if events == [] then None
    else
      var before := InCall(events[..|events| - 1]);
      match events[|events| - 1]
      case Starting(peer, id, _) => if before.None? then Some((peer, id)) else before
      case Incoming(sender, Offer(id, _), _) => Some((sender, id))
      case Incoming(_, Hangup(_), _) => None
      case Ending => None
      case _ => before
  }

  lemma {:induction false} CallFollows(events: seq<CallEvent>)
    ensures var s := RunCalls(events); InCall(events) == if s.Some? then Some((s.value.peer, s.value.callId)) else None
  {
    if events != [] {
      CallFollows(events[..|events| - 1]);
    }
  }

  /** Starting and ending, after any events: a call is started exactly when the client is in none, and
      offers its own media key; it is ended exactly when the client is in one, under its id; a refusal
      changes nothing. */
  lemma {:induction false} StartAndEnd(events: seq<CallEvent>, peer: User, id: string, key: KeyPair)
    ensures var s := RunCalls(events);
      var (started, offer) := Start(s, peer, id, key);
      var (ended, bye) := End(s);
      match InCall(events)
      case None =>
        && bye == Err && ended == s
        && offer == Ok(Offer(id, Some(key.PublicKey())))
        && started == Some(ActiveCall(peer, id, key, None, None, Offering))
      case Some((_, current)) =>
        && offer == Err && started == s
        && bye == Ok(Hangup(current)) && ended == None
  {
    CallFollows(events);
  }

  /** Signals: an offer always replaces the call by a ringing one of its sender; a hang-up always
      ends it; an answer changes a call only if it is not connected yet and the key decodes, and then
      only its peer key, secret and phase. */
  lemma {:induction false} SignalsExactly(events: seq<CallEvent>, sender: User, signal: Signal, placeholder: KeyPair)
    ensures var s, s' := RunCalls(events), RunCalls(events + [Incoming(sender, signal, placeholder)]);
      && (signal.Hangup? ==> s'.None?)
      && (signal.Offer? ==>
            && s'.Some? && s'.value.phase == Ringing && s'.value.peer == sender && s'.value.callId == signal.callId
            && s'.value.peerKey == signal.key && s'.value.secret == None && s'.value.mediaKey == placeholder)
      && (signal.Answer? ==>
            && (s'.Some? <==> s.Some?)
            && (s.Some? ==>
                  && s'.value.(peerKey := None, secret := None, phase := Ringing) ==
                     s.value.(peerKey := None, secret := None, phase := Ringing)
                  && if s.value.phase != Connected && signal.key.Some?
                     then s'.value.phase == Connected && s'.value.peerKey == signal.key && s'.value.secret.Some?
                     else s' == s))
  {
    var all := events + [Incoming(sender, signal, placeholder)];
    assert all[..|all| - 1] == events;
    SecretAlwaysFits(all);
  }

  /** Accepting, after any events and whatever the phase: exactly the id of the call the client is in is
      accepted, which is then connected under the new key, with the secret if the peer's key is known. */
  lemma {:induction false} AcceptExactly(events: seq<CallEvent>, id: string, key: KeyPair)
    ensures var s, s' := RunCalls(events), RunCalls(events + [Accepting(id, key)]);
      var answer := AcceptCall(s, id, key).1;
      if InCall(events).Some? && InCall(events).value.1 == id then
        && answer == Ok(Answer(id, Some(key.PublicKey())))
        && s'.Some? && (s'.value.peer, s'.value.callId) == InCall(events).value
        && s'.value.mediaKey == key && s'.value.phase == Connected && s'.value.peerKey == s.value.peerKey
        && (s'.value.secret.Some? <==> s.value.peerKey.Some?)
      else answer == Err && s' == s
  {
    var all := events + [Accepting(id, key)];
    assert all[..|all| - 1] == events;
    CallFollows(events);
    CallFollows(all);
    SecretAlwaysFits(all);
  }
}
