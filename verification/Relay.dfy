/** The relay's message table (tintin-server/src/store.rs): queueing, fetching with
    automatic delivery receipts, and what both conserve over every run.
 */
module Relays {
  import opened Crypto
  import opened Ratchets
  import opened Sessions

  datatype ReceiptKind = Delivery | Reading

  datatype MessageType = Normal | PreKeyBundle | Receipt | Typing

  /** The decoded content of an envelope. */
  datatype Body =
    | Saved(text: string)                                             // a message to oneself, not encrypted
    | Sealing(msg: SessionMessage)
    | PreKeyed(identityKey: Key, baseKey: Key, first: SessionMessage)
    | Receipting(kind: ReceiptKind, originalSender: User, originalTimestamp: nat)
    | TypingNotice

  function TypeOf(b: Body): MessageType {
    match b
    case Saved(_) => Normal
    case Sealing(_) => Normal
    case PreKeyed(_, _, _) => PreKeyBundle
    case Receipting(_, _, _) => Receipt
    case TypingNotice => Typing
  }

  datatype Envelope = Envelope(sender: User, recipient: User, device: U32, timestamp: nat, body: Body)

  /** The messages that earn a delivery receipt. */
  predicate IsChat(e: Envelope) {
    TypeOf(e.body) == Normal || TypeOf(e.body) == PreKeyBundle
  }

  datatype Row = Row(id: nat, sender: User, recipient: User, envelope: Envelope)

  datatype RelayState = RelayState(rows: seq<Row>, nextId: nat)

  const EMPTY_RELAY := RelayState([], 1)

  function Queue(r: RelayState, e: Envelope): RelayState {
    RelayState(r.rows + [Row(r.nextId, e.sender, e.recipient, e)], r.nextId + 1)
  }

  function QueueAll(r: RelayState, es: seq<Envelope>): RelayState
    decreases |es|
  {
    if es == [] then r else QueueAll(Queue(r, es[0]), es[1..])
  }

  /** The envelopes addressed to a user among some rows, in row order. */
  function PendingIn(rows: seq<Row>, u: User): seq<Envelope> {
    if rows == [] then []
    else if rows[0].recipient == u then [rows[0].envelope] + PendingIn(rows[1..], u)
    else PendingIn(rows[1..], u)
  }

  function Pending(r: RelayState, u: User): seq<Envelope> {
    PendingIn(r.rows, u)
  }

  function RowsOfOthers(rows: seq<Row>, u: User): seq<Row> {
    if rows == [] then []
    else if rows[0].recipient == u then RowsOfOthers(rows[1..], u)
    else [rows[0]] + RowsOfOthers(rows[1..], u)
  }

  function DeliveryReceipt(u: User, e: Envelope, now: nat): Envelope {
    Envelope(u, e.sender, 1, now, Receipting(Delivery, e.sender, e.timestamp))
  }

  /** The delivery receipts owed by `u` for some envelopes, in order. */
  function DeliveryReceipts(u: User, es: seq<Envelope>, now: nat): seq<Envelope> {
    if es == [] then []
    else if IsChat(es[0]) then [DeliveryReceipt(u, es[0], now)] + DeliveryReceipts(u, es[1..], now)
    else DeliveryReceipts(u, es[1..], now)
  }

  function Fetch(r: RelayState, u: User, now: nat): (RelayState, seq<Envelope>) {
    var es := Pending(r, u);
    (QueueAll(r.(rows := RowsOfOthers(r.rows, u)), DeliveryReceipts(u, es, now)), es)
  }

  // ── Filters over concatenations ─────────────────────────────────────────

  /** The envelopes addressed to a user. */
  function Addressed(es: seq<Envelope>, u: User): seq<Envelope> {
    if es == [] then []
    else if es[0].recipient == u then [es[0]] + Addressed(es[1..], u)
    else Addressed(es[1..], u)
  }

  lemma {:induction false} PendingConcat(xs: seq<Row>, ys: seq<Row>, u: User)
    ensures PendingIn(xs + ys, u) == PendingIn(xs, u) + PendingIn(ys, u)
  {
    if xs == [] {
      assert xs + ys == ys;
    } else {
      PendingConcat(xs[1..], ys, u);
      assert (xs + ys)[1..] == xs[1..] + ys;
    }
  }

  lemma {:induction false} OthersPending(rows: seq<Row>, u: User, v: User)
    ensures PendingIn(RowsOfOthers(rows, u), v) == if u == v then [] else PendingIn(rows, v)
  {
    if rows != [] {
      OthersPending(rows[1..], u, v);
      if rows[0].recipient != u {
        PendingConcat([rows[0]], RowsOfOthers(rows[1..], u), v);
        PendingConcat([rows[0]], rows[1..], v);
      }
    }
  }

  /** Queueing appends to the recipient's mail and to no one else's. */
  lemma {:induction false} PendingQueue(r: RelayState, e: Envelope, v: User)
    ensures Pending(Queue(r, e), v) == Pending(r, v) + if e.recipient == v then [e] else []
  {
    var row := Row(r.nextId, e.sender, e.recipient, e);
    PendingConcat(r.rows, [row], v);
    assert PendingIn([row], v) == if e.recipient == v then [e] else [] by {
      assert PendingIn([row][1..], v) == [];
    }
  }

  lemma {:induction false} PendingQueueAll(r: RelayState, es: seq<Envelope>, v: User)
    ensures Pending(QueueAll(r, es), v) == Pending(r, v) + Addressed(es, v)
    ensures QueueAll(r, es).nextId == r.nextId + |es|
    decreases |es|
  {
    if es != [] {
      PendingQueue(r, es[0], v);
      PendingQueueAll(Queue(r, es[0]), es[1..], v);
    }
  }

  /** A fetch empties the caller's mail and leaves the others' as it was, except that each
      fetched chat message appends one delivery receipt to its sender's mail. */
  lemma {:induction false} PendingFetch(r: RelayState, u: User, now: nat, v: User)
    ensures Pending(Fetch(r, u, now).0, v) ==
            (if u == v then [] else Pending(r, v)) + Addressed(DeliveryReceipts(u, Pending(r, u), now), v)
    ensures Fetch(r, u, now).0.nextId == r.nextId + |DeliveryReceipts(u, Pending(r, u), now)|
  {
    OthersPending(r.rows, u, v);
    PendingQueueAll(r.(rows := RowsOfOthers(r.rows, u)), DeliveryReceipts(u, Pending(r, u), now), v);
  }

  // ── The table in place ──────────────────────────────────────────────────

  class Store {
    var rows: seq<Row>
    var nextId: nat

    function State(): RelayState
      reads this
    {
      RelayState(rows, nextId)
    }

    constructor ()
      ensures State() == EMPTY_RELAY
    {
      rows, nextId := [], 1;
    }

    method QueueMessage(e: Envelope)
      modifies this
      ensures State() == Queue(old(State()), e)
    {
      rows := rows + [Row(nextId, e.sender, e.recipient, e)];
      nextId := nextId + 1;
    }

    method FetchMessages(u: User, now: nat) returns (envelopes: seq<Envelope>)
      modifies this
      ensures (State(), envelopes) == Fetch(old(State()), u, now)
    {
      envelopes := SelectAndDelete(u);
      ghost var start := State();
      var i := 0;
      while i < |envelopes|
        invariant i <= |envelopes|
        invariant QueueAll(start, DeliveryReceipts(u, envelopes, now)) ==
                  QueueAll(State(), DeliveryReceipts(u, envelopes[i..], now))
      {
        var e := envelopes[i];
        assert envelopes[i..][1..] == envelopes[i + 1..];
        if IsChat(e) {
          ghost var owed := DeliveryReceipts(u, envelopes[i..], now);
          assert owed[0] == DeliveryReceipt(u, e, now) && owed[1..] == DeliveryReceipts(u, envelopes[i + 1..], now);
          QueueMessage(DeliveryReceipt(u, e, now));
        }
        i := i + 1;
      }
    }

    /** The SELECT and the DELETE of one fetch. */
    method SelectAndDelete(u: User) returns (envelopes: seq<Envelope>)
      modifies this`rows
      ensures envelopes == PendingIn(old(rows), u)
      ensures rows == RowsOfOthers(old(rows), u)
    {
      envelopes := [];
      var kept: seq<Row> := [];
      var i := 0;
      while i < |rows|
        invariant i <= |rows| && rows == old(rows)
        invariant envelopes + PendingIn(rows[i..], u) == PendingIn(rows, u)
        invariant kept + RowsOfOthers(rows[i..], u) == RowsOfOthers(rows, u)
      {
        assert rows[i..][1..] == rows[i + 1..];
        if rows[i].recipient == u {
          envelopes := envelopes + [rows[i].envelope];
        } else {
          kept := kept + [rows[i]];
        }
        i := i + 1;
      }
      rows := kept;
    }
  }

  // ── Conservation over every run ─────────────────────────────────────────

  datatype Command = Send(e: Envelope) | Receive(u: User, now: nat)

  /** One call of the relay's fetch: who asked, when, and what was handed over. */
  datatype Handover = Handover(user: User, at: nat, mail: seq<Envelope>)

  /** A run of the relay, observed from outside: the rows ever inserted, those of them that
      the relay made up itself, and every handover. */
  datatype Ledger = Ledger(relay: RelayState, inserted: seq<Row>, madeUp: seq<Envelope>, handovers: seq<Handover>)

  /** The rows whose id is at least `id`. */
  function RowsFrom(rows: seq<Row>, id: nat): seq<Row> {
    if rows == [] then []
    else if rows[0].id >= id then [rows[0]] + RowsFrom(rows[1..], id)
    else RowsFrom(rows[1..], id)
  }

  function EnvelopesOf(rows: seq<Row>): seq<Envelope> {
    seq(|rows|, (i: nat) requires i < |rows| => rows[i].envelope)
  }

  function Observe(l: Ledger, c: Command): Ledger {
    match c
    case Send(e) =>
      var r := Queue(l.relay, e);
      l.(relay := r, inserted := l.inserted + RowsFrom(r.rows, l.relay.nextId))
    case Receive(u, now) =>
      var (r, mail) := Fetch(l.relay, u, now);
      var added := RowsFrom(r.rows, l.relay.nextId);
      Ledger(r, l.inserted + added, l.madeUp + EnvelopesOf(added), l.handovers + [Handover(u, now, mail)])
  }

  function RunRelay(cmds: seq<Command>): Ledger {
    if cmds == [] then Ledger(EMPTY_RELAY, [], [], [])
    else Observe(RunRelay(cmds[..|cmds| - 1]), cmds[|cmds| - 1])
  }

  /** Everything handed to a user, in order. */
  function HandedTo(hs: seq<Handover>, u: User): seq<Envelope> {
    if hs == [] then []
    else
      HandedTo(hs[..|hs| - 1], u) + if hs[|hs| - 1].user == u then hs[|hs| - 1].mail else []
  }

  /** One delivery receipt for each chat message of each handover, and nothing else. */
  function ReceiptsOwed(hs: seq<Handover>): seq<Envelope> {
    if hs == [] then []
    else
      var h := hs[|hs| - 1];
      ReceiptsOwed(hs[..|hs| - 1]) + DeliveryReceipts(h.user, h.mail, h.at)
  }

  /** The ids of all rows are below the counter. */
  predicate Below(rows: seq<Row>, id: nat) {
    forall i :: 0 <= i < |rows| ==> rows[i].id < id
  }

  lemma {:induction false} RowsFromAppend(rows: seq<Row>, extra: seq<Row>, id: nat)
    requires Below(rows, id)
    requires forall i :: 0 <= i < |extra| ==> extra[i].id >= id
    ensures RowsFrom(rows + extra, id) == extra
  {
    if rows != [] {
      RowsFromAppend(rows[1..], extra, id);
      assert (rows + extra)[1..] == rows[1..] + extra;
    } else if extra != [] {
      RowsFromAppend([], extra[1..], id);
      assert rows + extra == extra && [] + extra[1..] == extra[1..];
    }
  }

  /** The rows `QueueAll` appends, one per envelope with consecutive ids. */
  function NewRows(id: nat, es: seq<Envelope>): seq<Row> {
    seq(|es|, (i: nat) requires i < |es| => Row(id + i, es[i].sender, es[i].recipient, es[i]))
  }

  lemma {:induction false} QueueAllRows(r: RelayState, es: seq<Envelope>)
    ensures QueueAll(r, es) == RelayState(r.rows + NewRows(r.nextId, es), r.nextId + |es|)
    ensures EnvelopesOf(NewRows(r.nextId, es)) == es
    decreases |es|
  {
    if es != [] {
      QueueAllRows(Queue(r, es[0]), es[1..]);
      var row := Row(r.nextId, es[0].sender, es[0].recipient, es[0]);
      assert NewRows(r.nextId, es) == [row] + NewRows(r.nextId + 1, es[1..]);
      assert (r.rows + [row]) + NewRows(r.nextId + 1, es[1..]) == r.rows + NewRows(r.nextId, es);
    } else {
      assert r.rows + NewRows(r.nextId, es) == r.rows;
    }
  }

  lemma {:induction false} OthersBelow(rows: seq<Row>, u: User, id: nat)
    requires Below(rows, id)
    ensures Below(RowsOfOthers(rows, u), id)
  {
    if rows != [] {
      OthersBelow(rows[1..], u, id);
    }
  }

  lemma {:induction false} PendingNewRows(id: nat, es: seq<Envelope>, u: User)
    ensures PendingIn(NewRows(id, es), u) == Addressed(es, u)
    decreases |es|
  {
    if es != [] {
      PendingNewRows(id + 1, es[1..], u);
      assert NewRows(id, es)[1..] == NewRows(id + 1, es[1..]);
    }
  }

  /** The envelopes a command puts in the table. */
  function Puts(r: RelayState, c: Command): seq<Envelope> {
    match c
    case Send(e) => [e]
    case Receive(u, now) => DeliveryReceipts(u, Pending(r, u), now)
  }

  /** The rows a command inserts are exactly those envelopes, numbered on from the counter. */
  lemma {:induction false} ObserveInserts(l: Ledger, c: Command)
    requires Below(l.relay.rows, l.relay.nextId)
    ensures var es, l' := Puts(l.relay, c), Observe(l, c);
      && l'.inserted == l.inserted + NewRows(l.relay.nextId, es)
      && l'.madeUp == (if c.Send? then l.madeUp else l.madeUp + es)
      && l'.relay.nextId == l.relay.nextId + |es|
      && Below(l'.relay.rows, l'.relay.nextId)
  {
    var r := l.relay;
    match c
    case Send(e) =>
      var row := Row(r.nextId, e.sender, e.recipient, e);
      RowsFromAppend(r.rows, [row], r.nextId);
      assert NewRows(r.nextId, [e]) == [row];
    case Receive(u, now) =>
      var es := DeliveryReceipts(u, Pending(r, u), now);
      OthersBelow(r.rows, u, r.nextId);
      QueueAllRows(r.(rows := RowsOfOthers(r.rows, u)), es);
      RowsFromAppend(RowsOfOthers(r.rows, u), NewRows(r.nextId, es), r.nextId);
  }

  /** The n-th row ever inserted has id n, so no id is used twice. */
  lemma {:induction false} RelayNumbers(cmds: seq<Command>)
    ensures var l := RunRelay(cmds);
      && Below(l.relay.rows, l.relay.nextId)
      && l.relay.nextId == |l.inserted| + 1
      && (forall i :: 0 <= i < |l.inserted| ==> l.inserted[i].id == i + 1)
  {
    if cmds != [] {
      RelayNumbers(cmds[..|cmds| - 1]);
      ObserveInserts(RunRelay(cmds[..|cmds| - 1]), cmds[|cmds| - 1]);
    }
  }

  /** A command keeps the balance between a user's mail inserted, handed over and pending. */
  lemma {:induction false} ObserveBalances(l: Ledger, c: Command, u: User)
    requires Below(l.relay.rows, l.relay.nextId)
    requires PendingIn(l.inserted, u) == HandedTo(l.handovers, u) + Pending(l.relay, u)
    ensures var l' := Observe(l, c); PendingIn(l'.inserted, u) == HandedTo(l'.handovers, u) + Pending(l'.relay, u)
  {
    var es := Puts(l.relay, c);
    ObserveInserts(l, c);
    PendingConcat(l.inserted, NewRows(l.relay.nextId, es), u);
    PendingNewRows(l.relay.nextId, es, u);
    HandoverBalances(l, c, u);
  }

  /** What is handed over leaves the mail, and what is put in the table joins it. */
  lemma {:induction false} HandoverBalances(l: Ledger, c: Command, u: User)
    ensures var l' := Observe(l, c);
      HandedTo(l.handovers, u) + Pending(l.relay, u) + Addressed(Puts(l.relay, c), u) ==
      HandedTo(l'.handovers, u) + Pending(l'.relay, u)
  {
    match c
    case Send(e) =>
      PendingQueue(l.relay, e, u);
      assert Addressed([e], u) == if e.recipient == u then [e] else [];
    case Receive(w, now) =>
      PendingFetch(l.relay, w, now, u);
      var hs := l.handovers + [Handover(w, now, Pending(l.relay, w))];
      assert hs[..|l.handovers|] == l.handovers;
  }

  /** Over every run and for each user, the mail ever inserted is the mail handed over so far
      followed by the mail pending: nothing is lost, repeated, reordered or handed to anyone
      else. */
  lemma {:induction false} RelayConserves(cmds: seq<Command>, u: User)
    ensures var l := RunRelay(cmds);
      PendingIn(l.inserted, u) == HandedTo(l.handovers, u) + Pending(l.relay, u)
  {
    if cmds != [] {
      RelayConserves(cmds[..|cmds| - 1], u);
      RelayNumbers(cmds[..|cmds| - 1]);
      ObserveBalances(RunRelay(cmds[..|cmds| - 1]), cmds[|cmds| - 1], u);
    }
  }

  /** Over every run the relay itself inserts one delivery receipt for each chat message handed
      over, in that order, and nothing else. */
  lemma {:induction false} RelayReceipts(cmds: seq<Command>)
    ensures var l := RunRelay(cmds); l.madeUp == ReceiptsOwed(l.handovers)
  {
    if cmds != [] {
      var front, c := cmds[..|cmds| - 1], cmds[|cmds| - 1];
      RelayReceipts(front);
      RelayNumbers(front);
      ObserveInserts(RunRelay(front), c);
      if c.Receive? {
        var hs := RunRelay(front).handovers;
        var h := Handover(c.u, c.now, Pending(RunRelay(front).relay, c.u));
        assert (hs + [h])[..|hs|] == hs;
      }
    }
  }

  // ── The receipts, field by field ────────────────────────────────────────

  /** A chat message handed over: to whom and when. */
  datatype Handed = Handed(user: User, at: nat, envelope: Envelope)

  function ChatsIn(u: User, at: nat, mail: seq<Envelope>): seq<Handed> {
    if mail == [] then []
    else
      var b := mail[0].body;
      (if b.Saved? || b.Sealing? || b.PreKeyed? then [Handed(u, at, mail[0])] else []) + ChatsIn(u, at, mail[1..])
  }

  /** All chat messages handed over, in order. */
  function ChatsHanded(hs: seq<Handover>): seq<Handed> {
    if hs == [] then []
    else
      var h := hs[|hs| - 1];
      ChatsHanded(hs[..|hs| - 1]) + ChatsIn(h.user, h.at, h.mail)
  }

  /** The receipt for one of them: from the user who fetched it to its sender, for device 1, stamped
      with the time of the fetch, and about that sender's message with that timestamp. */
  ghost predicate ReceiptFor(e: Envelope, h: Handed) {
    && e.sender == h.user && e.recipient == h.envelope.sender && e.device == 1 && e.timestamp == h.at
    && e.body == Receipting(Delivery, h.envelope.sender, h.envelope.timestamp)
  }

  ghost predicate ReceiptsFor(es: seq<Envelope>, hs: seq<Handed>) {
    |es| == |hs| && forall i :: 0 <= i < |es| ==> ReceiptFor(es[i], hs[i])
  }

  lemma {:induction false} OwedFor(u: User, mail: seq<Envelope>, at: nat)
    ensures ReceiptsFor(DeliveryReceipts(u, mail, at), ChatsIn(u, at, mail))
  {
    if mail != [] {
      OwedFor(u, mail[1..], at);
    }
  }

  lemma {:induction false} AllOwedFor(hs: seq<Handover>)
    ensures ReceiptsFor(ReceiptsOwed(hs), ChatsHanded(hs))
  {
    if hs != [] {
      var h := hs[|hs| - 1];
      AllOwedFor(hs[..|hs| - 1]);
      OwedFor(h.user, h.mail, h.at);
    }
  }

  /** Over every run the rows the relay makes up are, one by one, the receipts for the chat messages
      handed over. */
  lemma {:induction false} ReceiptsExactly(cmds: seq<Command>)
    ensures var l := RunRelay(cmds); ReceiptsFor(l.madeUp, ChatsHanded(l.handovers))
  {
    RelayReceipts(cmds);
    AllOwedFor(RunRelay(cmds).handovers);
  }
}
