/** What every envelope and every session says about who is who, over every run: identity keys,
    devices, versions, roles, and the columns under which envelopes are stored.
 */
module Identities {
  import opened Crypto
  import opened Sessions
  import opened Relays
  import opened Clients
  import opened Messaging

  /** The long-term keys of the clients. */
  function Ids(sys: System): map<User, KeyPair> {
    map u | u in sys.clients :: sys.clients[u].identity
  }

  /** An envelope as its sender should have made it: a message that opens a session names the sender's
      identity key, a receipt names the user it goes to as the original sender, only messages to
      oneself go in the clear. */
  predicate Proper(e: Envelope, ids: map<User, KeyPair>) {
    && e.device == 1 && e.sender in ids
    && match e.body
       case PreKeyed(identityKey, _, m) => identityKey == ids[e.sender].PublicKey() && m.version == 1
       case Sealing(m) => m.version == 1
       case Saved(_) => e.sender == e.recipient
       case Receipting(_, originalSender, _) => originalSender == e.recipient
       case TypingNotice => false
  }

  predicate ProperRow(row: Row, ids: map<User, KeyPair>) {
    row.sender == row.envelope.sender && row.recipient == row.envelope.recipient && Proper(row.envelope, ids)
  }

  ghost predicate ProperRows(rows: seq<Row>, ids: map<User, KeyPair>) {
    forall i :: 0 <= i < |rows| ==> ProperRow(rows[i], ids)
  }

  ghost predicate ProperMail(es: seq<Envelope>, u: User, ids: map<User, KeyPair>) {
    forall i :: 0 <= i < |es| ==> es[i].recipient == u && Proper(es[i], ids)
  }

  /** A session under an address is with that user, knows that user's identity key and the own one, and
      its role is that of its ratchet, whose constants are as they were set. */
  predicate ProperSession(s: Session, a: Address, identity: KeyPair, ids: map<User, KeyPair>) {
    && a.1 == 1 && a.0 in ids && AddressOf(s) == a && s.version == 1
    && s.theirIdentity == ids[a.0].PublicKey() && s.ourIdentity == identity
    && (s.role == Initiator <==> s.ratchet.isInitiator)
    && s.ratchet.maxSkip == 100 && s.ratchet.prevSendCount == 0
  }

  ghost predicate ProperClient(c: ClientState, ids: map<User, KeyPair>) {
    forall a :: a in c.sessions ==> ProperSession(c.sessions[a], a, c.identity, ids)
  }

  ghost predicate AllProper(w: World, ids: map<User, KeyPair>) {
    && Ids(w.sys) == ids && Named(w.sys)
    && ProperRows(w.sys.relay.rows, ids)
    && (forall u :: u in w.sys.batches ==> ProperMail(w.sys.batches[u], u, ids))
    && (forall u :: u in w.sys.clients ==> ProperClient(w.sys.clients[u], ids))
  }

  // ── The relay ───────────────────────────────────────────────────────────

  lemma {:induction false} OthersProper(rows: seq<Row>, u: User, ids: map<User, KeyPair>)
    requires ProperRows(rows, ids)
    ensures ProperRows(RowsOfOthers(rows, u), ids)
  {
    if rows != [] {
      OthersProper(rows[1..], u, ids);
    }
  }

  lemma {:induction false} PendingProper(rows: seq<Row>, u: User, ids: map<User, KeyPair>)
    requires ProperRows(rows, ids)
    ensures ProperMail(PendingIn(rows, u), u, ids)
  {
    if rows != [] {
      assert ProperRow(rows[0], ids);
      PendingProper(rows[1..], u, ids);
    }
  }

  lemma {:induction false} ReceiptsProper(u: User, es: seq<Envelope>, now: nat, ids: map<User, KeyPair>)
    requires u in ids
    ensures forall i :: 0 <= i < |DeliveryReceipts(u, es, now)| ==> Proper(DeliveryReceipts(u, es, now)[i], ids)
  {
    if es != [] {
      ReceiptsProper(u, es[1..], now, ids);
    }
  }

  lemma {:induction false} FetchProper(r: RelayState, u: User, now: nat, ids: map<User, KeyPair>)
    requires ProperRows(r.rows, ids) && u in ids
    ensures ProperRows(Fetch(r, u, now).0.rows, ids) && ProperMail(Fetch(r, u, now).1, u, ids)
  {
    var es := Pending(r, u);
    OthersProper(r.rows, u, ids);
    PendingProper(r.rows, u, ids);
    ReceiptsProper(u, es, now, ids);
    QueueAllRows(r.(rows := RowsOfOthers(r.rows, u)), DeliveryReceipts(u, es, now));
  }

  // ── The clients ─────────────────────────────────────────────────────────

  /** Handling an envelope: what it leaves at the relay and in the sessions. */
  lemma {:induction false} HandleProper(c: ClientState, r: RelayState, e: Envelope, now: nat, ids: map<User, KeyPair>)
    requires ProperClient(c, ids) && ProperRows(r.rows, ids) && Proper(e, ids)
    requires c.user in ids && ids[c.user] == c.identity
    ensures var (c', r', event) := Handle(c, r, e, now);
      c'.identity == c.identity && ProperClient(c', ids) && ProperRows(r'.rows, ids)
  {
    HandleRelay(c, r, e, now);
    var c' := Handle(c, r, e, now).0;
    forall a | a in c'.sessions ensures ProperSession(c'.sessions[a], a, c.identity, ids) {
      if a in c.sessions {
        assert ProperSession(c.sessions[a], a, c.identity, ids);
      }
    }
    assert Proper(ReadReceipt(c.user, e, now), ids);
  }

  lemma {:induction false} PostingProper(sys: System, act: Action, ids: map<User, KeyPair>)
    requires (act.Chat? || act.Pushing?) && Named(sys) && Reachable(sys, act) && Ids(sys) == ids
    requires ProperClient(sys.clients[act.user], ids)
    ensures Proper(Posting(sys, act), ids)
  {
    var c := sys.clients[act.user];
    assert ids[act.user] == c.identity;
    if (act.to, 1) in c.sessions {
      assert ProperSession(c.sessions[(act.to, 1)], (act.to, 1), c.identity, ids);
    }
  }

  lemma {:induction false} SenderProper(sys: System, act: Action, ids: map<User, KeyPair>)
    requires (act.Chat? || act.Pushing?) && Named(sys) && act.user in sys.clients && Ids(sys) == ids
    requires ProperClient(sys.clients[act.user], ids)
    ensures var c' := Outgoing(sys, act).0;
      c'.user == act.user && c'.identity == sys.clients[act.user].identity && ProperClient(c', ids)
  {
    var c, c' := sys.clients[act.user], Outgoing(sys, act).0;
    forall a | a in c'.sessions ensures ProperSession(c'.sessions[a], a, c.identity, ids) {
      if a in c.sessions {
        assert ProperSession(c.sessions[a], a, c.identity, ids);
      }
    }
  }

  // ── Every run ───────────────────────────────────────────────────────────

  lemma {:induction false} PollKeepsProper(w: World, u: User, now: nat, ids: map<User, KeyPair>)
    requires AllProper(w, ids) && u in w.sys.clients
    ensures AllProper(Step(w, Polling(u, now)), ids)
  {
    FetchProper(w.sys.relay, u, now, ids);
    var w' := Step(w, Polling(u, now));
    assert Ids(w'.sys) == Ids(w.sys);
    assert ProperMail(Batch(w.sys, u), u, ids);
    assert w'.sys.batches[u] == Batch(w.sys, u) + Fetch(w.sys.relay, u, now).1;
  }

  /** One client has acted: everyone else is as before. */
  lemma {:induction false} ReplacedProper(w: World, u: User, c: ClientState, w': World, ids: map<User, KeyPair>)
    requires AllProper(w, ids) && u in w.sys.clients && w'.sys.clients == w.sys.clients[u := c]
    requires c.user == u && c.identity == w.sys.clients[u].identity && ProperClient(c, ids)
    requires ProperRows(w'.sys.relay.rows, ids)
    requires forall v :: v in w'.sys.batches ==> ProperMail(w'.sys.batches[v], v, ids)
    ensures AllProper(w', ids)
  {
    assert Ids(w'.sys) == Ids(w.sys);
  }

  lemma {:induction false} HandlingKeepsProper(w: World, u: User, now: nat, ids: map<User, KeyPair>)
    requires AllProper(w, ids) && u in w.sys.clients && Batch(w.sys, u) != []
    ensures AllProper(Step(w, Handling(u, now)), ids)
  {
    var e, c := Batch(w.sys, u)[0], w.sys.clients[u];
    assert ids[u] == c.identity && ProperMail(w.sys.batches[u], u, ids);
    HandleProper(c, w.sys.relay, e, now, ids);
    HandleRelay(c, w.sys.relay, e, now);
    var w' := Step(w, Handling(u, now));
    assert w'.sys.batches[u] == w.sys.batches[u][1..];
    ReplacedProper(w, u, Handle(c, w.sys.relay, e, now).0, w', ids);
  }

  lemma {:induction false} SendKeepsProper(w: World, act: Action, ids: map<User, KeyPair>)
    requires AllProper(w, ids) && (act.Chat? || act.Pushing?) && act.user in w.sys.clients
    ensures AllProper(Step(w, act), ids)
  {
    OutgoingMail(w.sys, act);
    SenderProper(w.sys, act, ids);
    if Reachable(w.sys, act) {
      PostingProper(w.sys, act, ids);
    }
    ReplacedProper(w, act.user, Outgoing(w.sys, act).0, Step(w, act), ids);
  }

  /** In every reachable world of every run: every envelope at the relay or in a batch is proper and is
      stored under its own sender and recipient, and every session of every client is proper.  In
      particular a message that opens a session carries its sender's identity key, and the session it
      opens knows that key. */
  lemma {:induction false} IdentitiesHold(ws: seq<World>, acts: seq<Action>, k: nat)
    requires IsRun(ws, acts) && k <= |acts|
    ensures AllProper(ws[k], Ids(ws[0].sys))
  {
    if k > 0 {
      var i := k - 1;
      IdentitiesHold(ws, acts, i);
      RunStep(ws, acts, k);
      if acts[i].user in ws[i].sys.clients {
        match acts[i]
        case Polling(u, now) => PollKeepsProper(ws[i], u, now, Ids(ws[0].sys));
        case Handling(u, now) =>
          if Batch(ws[i].sys, u) != [] {
            HandlingKeepsProper(ws[i], u, now, Ids(ws[0].sys));
          }
        case _ => SendKeepsProper(ws[i], acts[i], Ids(ws[0].sys));
      }
    }
  }

  /** The session between two clients, seen from the theorem: it names the peer's identity key. */
  lemma {:induction false} SessionKnowsPeer(ws: seq<World>, acts: seq<Action>, k: nat, a: User, b: User)
    requires IsRun(ws, acts) && k <= |acts| && a in ws[k].sys.clients && (b, 1) in ws[k].sys.clients[a].sessions
    ensures b in ws[0].sys.clients && a in ws[0].sys.clients
    ensures var s := ws[k].sys.clients[a].sessions[(b, 1)];
      && s.remoteUser == b && s.theirIdentity == ws[0].sys.clients[b].identity.PublicKey()
      && s.ourIdentity == ws[0].sys.clients[a].identity
  {
    IdentitiesHold(ws, acts, k);
    assert ProperClient(ws[k].sys.clients[a], Ids(ws[0].sys));
    assert Ids(ws[k].sys)[a] == Ids(ws[0].sys)[a];
  }

  // ── What handling sends ─────────────────────────────────────────────────

  /** Handling an envelope queues one read receipt if it was put through decryption with success, to its
      sender, about that sender's message with its timestamp and stamped with the clock, and nothing
      otherwise. */
  lemma {:induction false} AnsweredOnce(w: World, u: User, now: nat)
    requires u in w.sys.clients && Named(w.sys) && Batch(w.sys, u) != []
    ensures var e, w' := Batch(w.sys, u)[0], Step(w, Handling(u, now));
      var event := w'.log[|w'.log| - 1];
      && w'.log == w.log + [event]
      && w'.sys.relay.rows == w.sys.relay.rows +
           (if event.Opened? && event.result.Ok?
            then [Row(w.sys.relay.nextId, u, e.sender,
                      Envelope(u, e.sender, 1, now, Receipting(Reading, e.sender, e.timestamp)))]
            else [])
  {
    HandleRelay(w.sys.clients[u], w.sys.relay, Batch(w.sys, u)[0], now);
    assert w.sys.relay.rows + [] == w.sys.relay.rows;
  }

  /** A message that opens a session but does not decrypt leaves no trace. */
  lemma {:induction false} FailedOpening(c: ClientState, r: RelayState, e: Envelope, now: nat)
    requires e.body.PreKeyed? && Handle(c, r, e, now).2.Opened? && Handle(c, r, e, now).2.result == Err
    ensures Handle(c, r, e, now).0 == c && Handle(c, r, e, now).1 == r
  {
  }
}
