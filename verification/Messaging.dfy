/** Any number of clients and one relay, as a transition system. */
module Messaging {
  import opened Sequences
  import opened Crypto
  import opened Ratchets
  import opened Sessions
  import opened Relays
  import opened Clients

  /** The clients, the envelopes each has fetched and not yet handled, and the relay. */
  datatype System = System(clients: map<User, ClientState>, batches: map<User, seq<Envelope>>, relay: RelayState)

  /** A system together with everything that happened in it. */
  datatype World = World(sys: System, log: seq<Event>)

  /** One atomic step of one client.  `Chat` is `send_message`; `Pushing` sends one envelope of a
      group or channel message, a file or an edit; `Polling` is the relay call that starts
      `receive_messages`; `Handling` is one iteration of its loop.  Clocks, ephemeral keys and
      nonces are arguments. */
  datatype Action =
    | Chat(user: User, to: User, text: string, timestamp: nat, eph: KeyPair, nonce: nat)
    | Pushing(user: User, to: User, text: string, timestamp: nat, eph: KeyPair, nonce: nat)
    | Polling(user: User, now: nat)
    | Handling(user: User, now: nat)

  function Batch(sys: System, u: User): seq<Envelope> {
    if u in sys.batches then sys.batches[u] else []
  }

  function BundleOf(sys: System, v: User): Option<Bundle> {
    if v in sys.clients then Some(Bundle(sys.clients[v].identity.PublicKey(), sys.clients[v].preKey.PublicKey()))
    else None
  }

  function FetchEvents(u: User, es: seq<Envelope>): seq<Event> {
    if es == [] then []
    else if IsChat(es[0]) then [Fetched(es[0].sender, u, es[0].timestamp)] + FetchEvents(u, es[1..])
    else FetchEvents(u, es[1..])
  }

  function Outgoing(sys: System, a: Action): (ClientState, RelayState, bool)
    requires (a.Chat? || a.Pushing?) && a.user in sys.clients
  {
    var c := sys.clients[a.user];
    if a.Chat? then SendMessage(c, sys.relay, a.to, BundleOf(sys, a.to), a.text, a.timestamp, a.eph, a.nonce)
    else Push(c, sys.relay, a.to, BundleOf(sys, a.to), a.text, a.timestamp, a.eph, a.nonce)
  }

  function Step(w: World, a: Action): World {
    var sys, u := w.sys, a.user;
    if u !in sys.clients then w
    else match a
      case Polling(_, now) =>
        var (r, mail) := Fetch(sys.relay, u, now);
        World(sys.(relay := r, batches := sys.batches[u := Batch(sys, u) + mail]), w.log + FetchEvents(u, mail))
      case Handling(_, now) =>
        if Batch(sys, u) == [] then w
        else
          var (c, r, event) := Handle(sys.clients[u], sys.relay, Batch(sys, u)[0], now);
          World(System(sys.clients[u := c], sys.batches[u := Batch(sys, u)[1..]], r), w.log + [event])
      case _ =>
        var (c, r, ok) := Outgoing(sys, a);
        World(sys.(clients := sys.clients[u := c], relay := r),
              if ok then w.log + [Queued(u, a.to, a.text, a.timestamp)] else w.log)
  }

  /** Fresh clients with their long-term keys, before anything was sent. */
  predicate Initial(w: World) {
    && w.log == []
    && w.sys.batches == map[]
    && w.sys.relay == EMPTY_RELAY
    && forall u :: u in w.sys.clients ==>
         w.sys.clients[u].user == u && w.sys.clients[u].sessions == map[] && w.sys.clients[u].sent == []
  }

  // ── Selecting from logs and queues ──────────────────────────────────────

  datatype Letter = Letter(text: string, timestamp: nat)

  datatype Opening = Opening(timestamp: nat, result: Result<string>, stepped: bool)

  function SentSel(a: User, b: User): Event -> seq<Letter> {
    (e: Event) => if e.Queued? && e.from == a && e.to == b then [Letter(e.text, e.timestamp)] else []
  }

  function OpenSel(a: User, b: User): Event -> seq<Opening> {
    (e: Event) => if e.Opened? && e.from == a && e.to == b then [Opening(e.timestamp, e.result, e.stepped)] else []
  }

  function ChatSel(a: User): Envelope -> seq<Envelope> {
    (e: Envelope) => if IsChat(e) && e.sender == a then [e] else []
  }

  /** What `a` has sent to `b`, in order. */
  function SentLetters(w: World, a: User, b: User): seq<Letter> {
    Collect(SentSel(a, b), w.log)
  }

  /** The decryptions `b` has made of mail from `a`, in order. */
  function Openings(w: World, a: User, b: User): seq<Opening> {
    Collect(OpenSel(a, b), w.log)
  }

  /** What a selector finds in the mail on its way to `b`: in `b`'s batch, then at the relay. */
  function InTransit<T>(sel: Envelope -> seq<T>, sys: System, b: User): seq<T> {
    Collect(sel, Batch(sys, b)) + Collect(sel, Pending(sys.relay, b))
  }

  /** The chat messages from `a` on their way to `b`: in `b`'s batch, then at the relay. */
  function Flight(sys: System, a: User, b: User): seq<Envelope> {
    InTransit(ChatSel(a), sys, b)
  }

  function RatchetOf(sys: System, a: User, b: User): Option<RatchetState>
    requires a in sys.clients
  {
    if (b, 1) in sys.clients[a].sessions then Some(sys.clients[a].sessions[(b, 1)].ratchet) else None
  }

  // ── Runs ────────────────────────────────────────────────────────────────

  /** The worlds a sequence of actions goes through, from fresh clients and an empty relay. */
  ghost predicate IsRun(ws: seq<World>, acts: seq<Action>) {
    && |ws| == |acts| + 1
    && Initial(ws[0])
    && forall i :: 0 <= i < |acts| ==> ws[i + 1] == Step(ws[i], acts[i])
  }

  /** Clients know their own name. */
  predicate Named(sys: System) {
    forall u :: u in sys.clients ==> sys.clients[u].user == u
  }

  lemma {:induction false} StepKeepsClients(w: World, a: Action)
    ensures Step(w, a).sys.clients.Keys == w.sys.clients.Keys
    ensures forall u :: u in w.sys.clients ==>
      && Step(w, a).sys.clients[u].user == w.sys.clients[u].user
      && Step(w, a).sys.clients[u].preKey == w.sys.clients[u].preKey
      && Step(w, a).sys.clients[u].identity == w.sys.clients[u].identity
    ensures Named(w.sys) ==> Named(Step(w, a).sys)
  {
  }

  lemma {:induction false} RunStep(ws: seq<World>, acts: seq<Action>, k: nat)
    requires IsRun(ws, acts) && 0 < k <= |acts|
    ensures ws[k] == Step(ws[k - 1], acts[k - 1])
  {
    var i := k - 1;
    assert ws[i + 1] == Step(ws[i], acts[i]);
  }

  lemma {:induction false} RunKeepsClients(ws: seq<World>, acts: seq<Action>, k: nat)
    requires IsRun(ws, acts) && k <= |acts|
    ensures ws[k].sys.clients.Keys == ws[0].sys.clients.Keys && Named(ws[k].sys)
  {
    if k > 0 {
      RunKeepsClients(ws, acts, k - 1);
      StepKeepsClients(ws[k - 1], acts[k - 1]);
      RunStep(ws, acts, k);
    }
  }

  // ── What a step does to the mail in transit ─────────────────────────────

  lemma {:induction false} TransitAfterQueue<T>(sel: Envelope -> seq<T>, sys: System, e: Envelope, b: User)
    ensures InTransit(sel, sys.(relay := Queue(sys.relay, e)), b) ==
            InTransit(sel, sys, b) + if e.recipient == b then sel(e) else []
  {
    PendingQueue(sys.relay, e, b);
    if e.recipient == b {
      CollectSnoc(sel, Pending(sys.relay, b), e);
    } else {
      assert Pending(sys.relay, b) + [] == Pending(sys.relay, b);
    }
  }

  /** Polling moves mail from the relay to the batch, in order, and adds delivery receipts. */
  lemma {:induction false} TransitAfterPoll<T>(sel: Envelope -> seq<T>, w: World, u: User, now: nat, b: User)
    requires u in w.sys.clients
    ensures InTransit(sel, Step(w, Polling(u, now)).sys, b) ==
            InTransit(sel, w.sys, b) +
            Collect(sel, Addressed(DeliveryReceipts(u, Pending(w.sys.relay, u), now), b))
  {
    var sys' := Step(w, Polling(u, now)).sys;
    var mail := Pending(w.sys.relay, u);
    var receipts := Addressed(DeliveryReceipts(u, mail, now), b);
    PendingFetch(w.sys.relay, u, now, b);
    if u == b {
      CollectConcat(sel, Batch(w.sys, u), mail);
      assert Batch(sys', b) == Batch(w.sys, b) + mail && Pending(sys'.relay, b) == receipts;
    } else {
      CollectConcat(sel, Pending(w.sys.relay, b), receipts);
      assert Batch(sys', b) == Batch(w.sys, b) && Pending(sys'.relay, b) == Pending(w.sys.relay, b) + receipts;
    }
  }

  /** Handling queues a read receipt or nothing. */
  lemma {:induction false} HandleRelay(c: ClientState, r: RelayState, e: Envelope, now: nat)
    ensures var (c', r', event) := Handle(c, r, e, now);
      && r' == (if event.Opened? && event.result.Ok? then Queue(r, ReadReceipt(c.user, e, now)) else r)
      && c'.user == c.user && c'.preKey == c.preKey
      && (event.Opened? ==> IsChat(e) && event.from == e.sender && event.to == c.user && event.timestamp == e.timestamp)
      && !event.Queued? && !event.Fetched?
  {
  }

  /** Handling takes the head of the batch out of the mail and may add a read receipt. */
  lemma {:induction false} TransitAfterHandle<T>(sel: Envelope -> seq<T>, w: World, u: User, now: nat, b: User)
    requires u in w.sys.clients && Batch(w.sys, u) != []
    ensures var e, c := Batch(w.sys, u)[0], w.sys.clients[u];
      var event := Handle(c, w.sys.relay, e, now).2;
      InTransit(sel, w.sys, b) +
        (if event.Opened? && event.result.Ok? && e.sender == b then sel(ReadReceipt(c.user, e, now)) else []) ==
      (if u == b then sel(e) else []) + InTransit(sel, Step(w, Handling(u, now)).sys, b)
  {
    var e, c := Batch(w.sys, u)[0], w.sys.clients[u];
    var (c', r, event) := Handle(c, w.sys.relay, e, now);
    HandleRelay(c, w.sys.relay, e, now);
    TransitAfterTake(sel, w.sys, u, w.sys.clients[u := c'], r, ReadReceipt(c.user, e, now), b);
  }

  lemma {:induction false} TransitAfterTake<T>(sel: Envelope -> seq<T>, sys: System, u: User,
                                               cs: map<User, ClientState>, r: RelayState, x: Envelope, b: User)
    requires Batch(sys, u) != []
    requires r == sys.relay || r == Queue(sys.relay, x)
    ensures var sys' := System(cs, sys.batches[u := Batch(sys, u)[1..]], r);
      InTransit(sel, sys, b) + (if r != sys.relay && x.recipient == b then sel(x) else []) ==
      (if u == b then sel(Batch(sys, u)[0]) else []) + InTransit(sel, sys', b)
  {
    var sys' := System(cs, sys.batches[u := Batch(sys, u)[1..]], sys.relay);
    if r != sys.relay {
      TransitAfterQueue(sel, sys', x, b);
    }
  }

  lemma {:induction false} FetchEventsAreFetched(u: User, es: seq<Envelope>)
    ensures forall x :: x in FetchEvents(u, es) ==> x.Fetched? && x.to == u
  {
    if es != [] {
      FetchEventsAreFetched(u, es[1..]);
    }
  }

  /** A selector that picks no receipts finds none among the delivery receipts of a fetch. */
  lemma {:induction false} ReceiptsNotSelected<T>(sel: Envelope -> seq<T>, u: User, es: seq<Envelope>, now: nat,
                                                  b: User)
    requires forall e: Envelope :: e.body.Receipting? ==> sel(e) == []
    ensures Collect(sel, Addressed(DeliveryReceipts(u, es, now), b)) == []
  {
    if es != [] {
      ReceiptsNotSelected(sel, u, es[1..], now, b);
      var rest := DeliveryReceipts(u, es[1..], now);
      if IsChat(es[0]) {
        var d := DeliveryReceipt(u, es[0], now);
        assert ([d] + rest)[1..] == rest;
        if d.recipient == b {
          assert ([d] + Addressed(rest, b))[1..] == Addressed(rest, b);
        }
      }
    }
  }

  // ── What a send puts in the mail ────────────────────────────────────────

  /** A send fails, changing nothing, only when the recipient is unknown and a session is needed. */
  predicate Reachable(sys: System, act: Action)
    requires act.Chat? || act.Pushing?
  {
    && act.user in sys.clients
    && ((act.Chat? && act.to == act.user) || (act.to, 1) in sys.clients[act.user].sessions || act.to in sys.clients)
  }

  /** The envelope a successful send queues. */
  function Posting(sys: System, act: Action): Envelope
    requires act.Chat? || act.Pushing?
    requires Reachable(sys, act)
  {
    Envelope(act.user, act.to, 1, act.timestamp,
             if act.Chat? && act.to == act.user then Saved(act.text)
             else Seal(sys.clients[act.user], act.to, BundleOf(sys, act.to), act.text, act.eph, act.nonce).value.1)
  }

  /** The session a send leaves behind. */
  function SessionAfter(sys: System, act: Action): Session
    requires act.Chat? || act.Pushing?
    requires Reachable(sys, act) && act.to != act.user
  {
    var c := sys.clients[act.user];
    var s := if (act.to, 1) in c.sessions then c.sessions[(act.to, 1)]
             else InitiatorSession(c.identity, act.to, 1, sys.clients[act.to].identity.PublicKey(),
                                   sys.clients[act.to].preKey.PublicKey(), act.eph);
    SessionEncrypt(s, act.text, act.nonce).0
  }

  lemma {:induction false} OutgoingMail(sys: System, act: Action)
    requires (act.Chat? || act.Pushing?) && act.user in sys.clients && Named(sys)
    ensures var (c, r, ok) := Outgoing(sys, act);
      && ok == Reachable(sys, act)
      && (!ok ==> c == sys.clients[act.user] && r == sys.relay)
      && (ok ==> r == Queue(sys.relay, Posting(sys, act)) && IsChat(Posting(sys, act)))
      && (ok && act.to != act.user ==>
            c.sessions == sys.clients[act.user].sessions[(act.to, 1) := SessionAfter(sys, act)])
      && (ok && act.Chat? && act.to == act.user ==> c.sessions == sys.clients[act.user].sessions)
      && c.sent == sys.clients[act.user].sent +
                   (if ok && act.Chat? then [SentMessage(act.to, act.text, act.timestamp, Sent)] else [])
  {
  }

  /** A send appends its envelope to the mail of its recipient and its event to the log. */
  lemma {:induction false} TransitAfterSend<T>(sel: Envelope -> seq<T>, w: World, act: Action, b: User)
    requires (act.Chat? || act.Pushing?) && Named(w.sys)
    ensures var w', ok := Step(w, act), Reachable(w.sys, act);
      && InTransit(sel, w'.sys, b) ==
         (if ok && act.to == b then InTransit(sel, w.sys, b) + sel(Posting(w.sys, act)) else InTransit(sel, w.sys, b))
      && Batch(w'.sys, b) == Batch(w.sys, b)
      && w'.log == (if ok then w.log + [Queued(act.user, act.to, act.text, act.timestamp)] else w.log)
  {
    if act.user in w.sys.clients {
      OutgoingMail(w.sys, act);
      var sys' := w.sys.(clients := w.sys.clients[act.user := Outgoing(w.sys, act).0]);
      assert InTransit(sel, sys', b) == InTransit(sel, w.sys, b);
      if Reachable(w.sys, act) {
        TransitAfterQueue(sel, sys', Posting(w.sys, act), b);
      }
    }
  }

  /** A selector that picks no fetch finds nothing new in the log of a poll. */
  lemma {:induction false} CollectFetchEvents<T>(f: Event -> seq<T>, log: seq<Event>, x: User, es: seq<Envelope>)
    requires forall e: Event :: e.Fetched? ==> f(e) == []
    ensures Collect(f, log + FetchEvents(x, es)) == Collect(f, log)
  {
    FetchEventsAreFetched(x, es);
    CollectConcat(f, log, FetchEvents(x, es));
    CollectNothing(f, FetchEvents(x, es));
  }
}
