/** The client object of tintin-cli/src/main.rs, which updates its sessions and its list of sent
    messages in place and calls the relay: each method does what the client's functions say.
 */
module ClientObjects {
  import opened Crypto
  import opened Sessions
  import opened Relays
  import opened Clients
  import opened Messaging
  import opened Groups

  /** The loop of `receive_messages`: each envelope in turn, the i-th receipt stamped `clock(i)`. */
  function HandleAll(c: ClientState, r: RelayState, es: seq<Envelope>, clock: nat -> nat)
    : (ClientState, RelayState, seq<Event>)
  {
    if es == [] then (c, r, [])
    else
      var n := |es| - 1;
      var (c', r', events) := HandleAll(c, r, es[..n], clock);
      var (c'', r'', event) := Handle(c', r', es[n], clock(n));
      (c'', r'', events + [event])
  }

  /** The position of the first record with the given recipient and timestamp, or the length. */
  function FirstRecord(sent: seq<SentMessage>, v: User, ts: nat): (i: nat)
    ensures i <= |sent|
  {
    if sent == [] || (sent[0].recipient == v && sent[0].timestamp == ts) then 0
    else 1 + FirstRecord(sent[1..], v, ts)
  }

  lemma {:induction false} MarkIsUpdate(sent: seq<SentMessage>, v: User, ts: nat, status: Status)
    ensures var i := FirstRecord(sent, v, ts);
      Mark(sent, v, ts, status) == if i < |sent| then sent[i := sent[i].(status := status)] else sent
  {
    if sent != [] && !(sent[0].recipient == v && sent[0].timestamp == ts) {
      MarkIsUpdate(sent[1..], v, ts, status);
      assert sent == [sent[0]] + sent[1..];
    }
  }

  class Client {
    const user: User
    const identity: KeyPair
    const preKey: KeyPair
    const sessions: SessionStore
    var sent: seq<SentMessage>

    ghost predicate Valid()
      reads this, sessions
    {
      sessions.Valid()
    }

    ghost function State(): ClientState
      reads this, sessions
    {
      ClientState(user, identity, preKey, sessions.contents, sent)
    }

    constructor (user: User, identity: KeyPair, preKey: KeyPair)
      ensures Valid() && fresh(sessions)
      ensures State() == ClientState(user, identity, preKey, map[], [])
    {
      this.user, this.identity, this.preKey := user, identity, preKey;
      sessions := new SessionStore();
      sent := [];
    }

    /** `send_encrypted`. */
    method SendEncrypted(v: User, bundle: Option<Bundle>, payload: string, eph: KeyPair, nonce: nat)
      returns (body: Result<Body>)
      requires Valid()
      modifies sessions
      ensures Valid()
      ensures match Seal(old(State()), v, bundle, payload, eph, nonce)
        case Err => body == Err && State() == old(State())
        case Ok((c, b)) => body == Ok(b) && State() == c
    {
      var known := sessions.Get(v, 1);
      var isNew := known.None?;
      if isNew {
        if bundle.None? {
          return Err;
        }
        var started := InitiatorSession(identity, v, 1, bundle.value.identityKey, bundle.value.signedPreKey, eph);
        sessions.Add(started);
        known := Some(started);
      }
      var (s, m) := SessionEncrypt(known.value, payload, nonce);
      var found := sessions.Mutate(v, 1, s);
      assert isNew ==> sessions.contents == old(sessions.contents)[(v, 1) := s];
      return Ok(if isNew then PreKeyed(identity.PublicKey(), s.ratchet.dhKey.PublicKey(), m) else Sealing(m));
    }

    /** Encrypt and queue one payload. */
    method PushTo(relay: Store, v: User, bundle: Option<Bundle>, payload: string, ts: nat, eph: KeyPair, nonce: nat)
      returns (ok: bool)
      requires Valid()
      modifies sessions, relay
      ensures Valid()
      ensures (State(), relay.State(), ok) == Push(old(State()), old(relay.State()), v, bundle, payload, ts, eph, nonce)
    {
      var body := SendEncrypted(v, bundle, payload, eph, nonce);
      ok := body.Ok?;
      if ok {
        relay.QueueMessage(Envelope(user, v, 1, ts, body.value));
      }
    }

    method Send(relay: Store, v: User, bundle: Option<Bundle>, text: string, ts: nat, eph: KeyPair, nonce: nat)
      returns (ok: bool)
      requires Valid()
      modifies this, sessions, relay
      ensures Valid()
      ensures (State(), relay.State(), ok) ==
              SendMessage(old(State()), old(relay.State()), v, bundle, text, ts, eph, nonce)
    {
      if v == user {
        relay.QueueMessage(Envelope(user, v, 1, ts, Saved(text)));
        ok := true;
      } else {
        ok := PushTo(relay, v, bundle, text, ts, eph, nonce);
      }
      if ok {
        sent := sent + [SentMessage(v, text, ts, Sent)];
      }
    }

    /** Set the status of the first matching record. */
    method MarkSent(v: User, ts: nat, status: Status)
      modifies this
      ensures sent == Mark(old(sent), v, ts, status)
    {
      var i := 0;
      while i < |sent| && !(sent[i].recipient == v && sent[i].timestamp == ts)
        invariant i <= |sent|
        invariant FirstRecord(sent, v, ts) == i + FirstRecord(sent[i..], v, ts)
      {
        assert sent[i..][1..] == sent[i + 1..];
        i := i + 1;
      }
      MarkIsUpdate(sent, v, ts, status);
      if i < |sent| {
        sent := sent[i := sent[i].(status := status)];
      }
    }

    /** One iteration of the loop in `receive_messages`. */
    method HandleEnvelope(relay: Store, e: Envelope, now: nat) returns (event: Event)
      requires Valid()
      modifies this, sessions, relay
      ensures Valid()
      ensures (State(), relay.State(), event) == Handle(old(State()), old(relay.State()), e, now)
    {
      match e.body {
        case PreKeyed(identityKey, baseKey, m) =>
          var fromBundle := ResponderSession(identity, e.sender, e.device, identityKey, baseKey, preKey);
          var (s, result) := SessionDecrypt(fromBundle, m);
          if result.Ok? {
            sessions.Add(s);
            relay.QueueMessage(ReadReceipt(user, e, now));
          }
          event := Opened(e.sender, user, e.timestamp, result, m.ratchetKey != baseKey);
        case Sealing(m) =>
          var known := sessions.Get(e.sender, 1);
          if e.sender == user {
            event := Filed(user, e.timestamp, e.body);
          } else if known.None? {
            event := Dropped(e.sender, user, e.timestamp);
          } else {
            var (s, result) := SessionDecrypt(known.value, m);
            var found := sessions.Mutate(e.sender, 1, s);
            if result.Ok? {
              relay.QueueMessage(ReadReceipt(user, e, now));
            }
            event := Opened(e.sender, user, e.timestamp, result, m.ratchetKey != known.value.ratchet.theirKey);
          }
        case Saved(_) =>
          event := if e.sender == user then Filed(user, e.timestamp, e.body) else Dropped(e.sender, user, e.timestamp);
        case Receipting(kind, _, ts) =>
          MarkSent(e.sender, ts, StatusFor(kind));
          event := Acked(e.sender, user, ts, kind);
        case TypingNotice =>
          event := Ignored;
      }
    }

    /** `receive_messages`, when no other client calls the relay meanwhile. */
    method ReceiveMessages(relay: Store, now: nat, clock: nat -> nat) returns (events: seq<Event>)
      requires Valid()
      modifies this, sessions, relay
      ensures Valid()
      ensures var (r, mail) := Fetch(old(relay.State()), user, now);
        (State(), relay.State(), events) == HandleAll(old(State()), r, mail, clock)
    {
      var mail := relay.FetchMessages(user, now);
      ghost var start := relay.State();
      events := [];
      for i := 0 to |mail|
        invariant Valid()
        invariant (State(), relay.State(), events) == HandleAll(old(State()), start, mail[..i], clock)
      {
        assert mail[..i + 1][..i] == mail[..i];
        var event := HandleEnvelope(relay, mail[i], clock(i));
        events := events + [event];
      }
      assert mail[..|mail|] == mail;
    }

    /** `send_group_message`; one draw per other member, in order. */
    method SendGroupMessage(relay: Store, members: seq<User>, dir: map<User, Bundle>, title: string, text: string,
                            payload: string, draws: seq<Draw>, own: Draw) returns (ok: bool)
      requires Valid() && |draws| == |Others(members, user)|
      modifies this, sessions, relay
      ensures Valid()
      ensures (State(), relay.State(), ok) ==
              SendGroup(old(State()), old(relay.State()), members, dir, title, text, payload, draws, own)
    {
      var others := Others(members, user);
      if others == [] {
        ok := Send(relay, user, None, text, own.timestamp, own.eph, own.nonce);
        return;
      }
      ok := true;
      var i := 0;
      while ok && i < |others|
        invariant Valid() && i <= |others| && sent == old(sent)
        invariant ok ==> FanOut(old(State()), old(relay.State()), others, dir, payload, draws) ==
                         FanOut(State(), relay.State(), others[i..], dir, payload, draws[i..])
        invariant !ok ==> FanOut(old(State()), old(relay.State()), others, dir, payload, draws) ==
                          (State(), relay.State(), false)
        decreases |others| - i, ok
      {
        assert others[i..][1..] == others[i + 1..] && draws[i..][1..] == draws[i + 1..];
        var v, d := others[i], draws[i];
        ok := PushTo(relay, v, Lookup(dir, v), payload, d.timestamp, d.eph, d.nonce);
        i := i + 1;
      }
      if ok {
        sent := sent + [SentMessage(title, text, own.timestamp, Sent)];
      }
    }
  }

  // ── In the whole system ─────────────────────────────────────────────────

  /** The world after a client has handled `n` of its fetched envelopes. */
  function Handled(w: World, u: User, clock: nat -> nat, n: nat): World {
    if n == 0 then w else Step(Handled(w, u, clock, n - 1), Handling(u, clock(n - 1)))
  }

  /** The world in which a client handling `es` stands at position `i`. */
  function Midway(w: World, u: User, es: seq<Envelope>, i: nat, c: ClientState, r: RelayState, events: seq<Event>)
    : World
    requires i <= |es|
  {
    World(System(w.sys.clients[u := c], w.sys.batches[u := es[i..]], r), w.log + events)
  }

  lemma {:induction false} MidwayStep(w: World, u: User, es: seq<Envelope>, i: nat, c: ClientState, r: RelayState,
                                      events: seq<Event>, now: nat)
    requires i < |es|
    ensures var (c', r', event) := Handle(c, r, es[i], now);
      Step(Midway(w, u, es, i, c, r, events), Handling(u, now)) == Midway(w, u, es, i + 1, c', r', events + [event])
  {
    var (c', r', event) := Handle(c, r, es[i], now);
    assert es[i..][0] == es[i] && es[i..][1..] == es[i + 1..];
    assert w.sys.clients[u := c][u := c'] == w.sys.clients[u := c'];
    assert w.sys.batches[u := es[i..]][u := es[i + 1..]] == w.sys.batches[u := es[i + 1..]];
    assert (w.log + events) + [event] == w.log + (events + [event]);
  }

  lemma {:induction false} HandleOneMore(c: ClientState, r: RelayState, es: seq<Envelope>, i: nat, clock: nat -> nat)
    requires i < |es|
    ensures var (c', r', events) := HandleAll(c, r, es[..i], clock);
      var (c'', r'', event) := Handle(c', r', es[i], clock(i));
      HandleAll(c, r, es[..i + 1], clock) == (c'', r'', events + [event])
  {
    assert es[..i + 1][..i] == es[..i] && es[..i + 1][i] == es[i];
  }

  lemma {:induction false} MidwayStart(w: World, u: User)
    requires u in w.sys.clients && u in w.sys.batches
    ensures Midway(w, u, w.sys.batches[u], 0, w.sys.clients[u], w.sys.relay, []) == w
  {
    assert w.sys.clients[u := w.sys.clients[u]] == w.sys.clients;
    assert w.sys.batches[u][0..] == w.sys.batches[u];
    assert w.sys.batches[u := w.sys.batches[u]] == w.sys.batches;
    assert w.log + [] == w.log;
  }

  /** The loop of `receive_messages` is that many steps of the system: others may act in between,
      and if they do not, the client and the relay end up as the loop leaves them. */
  lemma {:induction false} LoopIsSteps(w: World, u: User, clock: nat -> nat, n: nat)
    requires u in w.sys.clients && u in w.sys.batches && n <= |w.sys.batches[u]|
    ensures var es := w.sys.batches[u];
      var (c, r, events) := HandleAll(w.sys.clients[u], w.sys.relay, es[..n], clock);
      Handled(w, u, clock, n) == Midway(w, u, es, n, c, r, events)
  {
    var es := w.sys.batches[u];
    if n == 0 {
      MidwayStart(w, u);
    } else {
      var i := n - 1;
      LoopIsSteps(w, u, clock, i);
      HandleOneMore(w.sys.clients[u], w.sys.relay, es, i, clock);
      var (c, r, events) := HandleAll(w.sys.clients[u], w.sys.relay, es[..i], clock);
      MidwayStep(w, u, es, i, c, r, events, clock(i));
    }
  }
}
