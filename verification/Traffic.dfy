/** Receipt traffic dies out: without new messages only boundedly many polls and loop iterations
    find anything to do, and all the mail ever queued is at most three times what users sent.
 */
module Traffic {
  import opened Sequences
  import opened Sessions
  import opened Relays
  import opened Clients
  import opened Messaging

  // ── Weighing the mail of a system ───────────────────────────────────────

  function Weigh(f: Envelope -> nat, es: seq<Envelope>): nat {
    if es == [] then 0 else f(es[0]) + Weigh(f, es[1..])
  }

  function WeighRows(f: Envelope -> nat, rows: seq<Row>): nat {
    if rows == [] then 0 else f(rows[0].envelope) + WeighRows(f, rows[1..])
  }

  ghost function WeighBatches(f: Envelope -> nat, batches: map<User, seq<Envelope>>): nat {
    if batches == map[] then 0
    else
      var u :| u in batches;
      Weigh(f, batches[u]) + WeighBatches(f, batches - {u})
  }

  /** The weight of a system's mail, at the relay by `f` and in batches by `g`. */
  ghost function Load(f: Envelope -> nat, g: Envelope -> nat, sys: System): nat {
    WeighRows(f, sys.relay.rows) + WeighBatches(g, sys.batches)
  }

  lemma {:induction false} WeighConcat(f: Envelope -> nat, xs: seq<Envelope>, ys: seq<Envelope>)
    ensures Weigh(f, xs + ys) == Weigh(f, xs) + Weigh(f, ys)
  {
    if xs == [] {
      assert xs + ys == ys;
    } else {
      WeighConcat(f, xs[1..], ys);
      assert (xs + ys)[1..] == xs[1..] + ys;
    }
  }

  lemma {:induction false} WeighRowsConcat(f: Envelope -> nat, xs: seq<Row>, ys: seq<Row>)
    ensures WeighRows(f, xs + ys) == WeighRows(f, xs) + WeighRows(f, ys)
  {
    if xs == [] {
      assert xs + ys == ys;
    } else {
      WeighRowsConcat(f, xs[1..], ys);
      assert (xs + ys)[1..] == xs[1..] + ys;
    }
  }

  lemma {:induction false} WeighSplit(f: Envelope -> nat, rows: seq<Row>, u: User)
    ensures WeighRows(f, rows) == WeighRows(f, RowsOfOthers(rows, u)) + Weigh(f, PendingIn(rows, u))
  {
    if rows != [] {
      WeighSplit(f, rows[1..], u);
    }
  }

  lemma {:induction false} WeighQueueAll(f: Envelope -> nat, r: RelayState, es: seq<Envelope>)
    ensures WeighRows(f, QueueAll(r, es).rows) == WeighRows(f, r.rows) + Weigh(f, es)
    decreases |es|
  {
    if es != [] {
      WeighQueue(f, r, es[0]);
      WeighQueueAll(f, Queue(r, es[0]), es[1..]);
    }
  }

  lemma {:induction false} WeighQueue(f: Envelope -> nat, r: RelayState, e: Envelope)
    ensures WeighRows(f, Queue(r, e).rows) == WeighRows(f, r.rows) + f(e)
  {
    var row := Row(r.nextId, e.sender, e.recipient, e);
    WeighRowsConcat(f, r.rows, [row]);
    assert [row][1..] == [];
  }

  lemma {:induction false} WeighRemove(f: Envelope -> nat, m: map<User, seq<Envelope>>, u: User)
    requires u in m
    ensures WeighBatches(f, m) == Weigh(f, m[u]) + WeighBatches(f, m - {u})
    decreases m.Keys
  {
    var v :| v in m && WeighBatches(f, m) == Weigh(f, m[v]) + WeighBatches(f, m - {v});
    if v != u {
      WeighRemove(f, m - {v}, u);
      WeighRemove(f, m - {u}, v);
      assert m - {v} - {u} == m - {u} - {v};
    }
  }

  lemma {:induction false} WeighUpdate(f: Envelope -> nat, sys: System, u: User, es: seq<Envelope>)
    ensures WeighBatches(f, sys.batches[u := es]) + Weigh(f, Batch(sys, u)) ==
            WeighBatches(f, sys.batches) + Weigh(f, es)
  {
    var m := sys.batches;
    WeighRemove(f, m[u := es], u);
    if u in m {
      WeighRemove(f, m, u);
      assert m[u := es] - {u} == m - {u};
    } else {
      assert m[u := es] - {u} == m;
    }
  }

  // ── What a step does to the load ────────────────────────────────────────

  lemma {:induction false} LoadAfterPoll(f: Envelope -> nat, g: Envelope -> nat, w: World, u: User, now: nat)
    requires u in w.sys.clients
    ensures var mail := Pending(w.sys.relay, u);
      Load(f, g, Step(w, Polling(u, now)).sys) + Weigh(f, mail) ==
      Load(f, g, w.sys) + Weigh(g, mail) + Weigh(f, DeliveryReceipts(u, mail, now))
  {
    var r, mail := w.sys.relay, Pending(w.sys.relay, u);
    WeighSplit(f, r.rows, u);
    WeighQueueAll(f, r.(rows := RowsOfOthers(r.rows, u)), DeliveryReceipts(u, mail, now));
    WeighUpdate(g, w.sys, u, Batch(w.sys, u) + mail);
    WeighConcat(g, Batch(w.sys, u), mail);
  }

  lemma {:induction false} LoadAfterHandle(f: Envelope -> nat, g: Envelope -> nat, w: World, u: User, now: nat)
    requires u in w.sys.clients && Batch(w.sys, u) != []
    ensures var e, c := Batch(w.sys, u)[0], w.sys.clients[u];
      var event := Handle(c, w.sys.relay, e, now).2;
      Load(f, g, Step(w, Handling(u, now)).sys) + g(e) ==
      Load(f, g, w.sys) + (if event.Opened? && event.result.Ok? then f(ReadReceipt(c.user, e, now)) else 0)
  {
    var e, c := Batch(w.sys, u)[0], w.sys.clients[u];
    HandleRelay(c, w.sys.relay, e, now);
    WeighQueue(f, w.sys.relay, ReadReceipt(c.user, e, now));
    WeighUpdate(g, w.sys, u, Batch(w.sys, u)[1..]);
  }

  // ── Draining ────────────────────────────────────────────────────────────

  function QueuedWeight(): Envelope -> nat {
    (e: Envelope) => if IsChat(e) then 6 else 2
  }

  function BatchWeight(): Envelope -> nat {
    (e: Envelope) => if IsChat(e) then 3 else 1
  }

  ghost function Measure(sys: System): nat {
    Load(QueuedWeight(), BatchWeight(), sys)
  }

  /** A poll or loop iteration that finds something to do. */
  predicate Busy(w: World, act: Action) {
    && act.user in w.sys.clients
    && ((act.Polling? && Pending(w.sys.relay, act.user) != []) || (act.Handling? && Batch(w.sys, act.user) != []))
  }

  lemma {:induction false} MailGetsLighter(u: User, mail: seq<Envelope>, now: nat)
    ensures Weigh(BatchWeight(), mail) + Weigh(QueuedWeight(), DeliveryReceipts(u, mail, now)) + |mail|
         == Weigh(QueuedWeight(), mail)
  {
    if mail != [] {
      MailGetsLighter(u, mail[1..], now);
      if IsChat(mail[0]) {
        var rest := DeliveryReceipts(u, mail[1..], now);
        assert ([DeliveryReceipt(u, mail[0], now)] + rest)[1..] == rest;
      }
    }
  }

  /** Every poll that fetches something and every envelope handled makes the mail lighter, whoever
      sent it and whatever becomes of it; an idle poll changes nothing. */
  lemma {:induction false} TrafficFalls(w: World, act: Action)
    requires act.Polling? || act.Handling?
    ensures Measure(Step(w, act).sys) + (if Busy(w, act) then 1 else 0) <= Measure(w.sys)
  {
    if act.user in w.sys.clients {
      match act
      case Polling(u, now) =>
        LoadAfterPoll(QueuedWeight(), BatchWeight(), w, u, now);
        MailGetsLighter(u, Pending(w.sys.relay, u), now);
      case Handling(u, now) =>
        if Batch(w.sys, u) != [] {
          var e := Batch(w.sys, u)[0];
          LoadAfterHandle(QueuedWeight(), BatchWeight(), w, u, now);
          HandleRelay(w.sys.clients[u], w.sys.relay, e, now);
        }
    }
  }

  /** The busy steps among the actions from `j` to `k`. */
  function BusySteps(ws: seq<World>, acts: seq<Action>, j: nat, k: nat): nat
    requires j <= k <= |acts| && |ws| == |acts| + 1
    decreases k
  {
    if j == k then 0 else BusySteps(ws, acts, j, k - 1) + if Busy(ws[k - 1], acts[k - 1]) then 1 else 0
  }

  /** Once users stop sending, the number of polls that fetch something and of envelopes handled
      is bounded by the mail there was. */
  lemma {:induction false} TrafficDrains(ws: seq<World>, acts: seq<Action>, j: nat, k: nat)
    requires IsRun(ws, acts) && j <= k <= |acts|
    requires forall i :: j <= i < k ==> acts[i].Polling? || acts[i].Handling?
    ensures Measure(ws[k].sys) + BusySteps(ws, acts, j, k) <= Measure(ws[j].sys)
    decreases k
  {
    if j < k {
      TrafficDrains(ws, acts, j, k - 1);
      TrafficFalls(ws[k - 1], acts[k - 1]);
      RunStep(ws, acts, k);
    }
  }

  // ── At most three envelopes per message sent ────────────────────────────

  function SendCount(log: seq<Event>): nat {
    |Collect(SendSel(), log)|
  }

  function SendSel(): Event -> seq<Event> {
    (e: Event) => if e.Queued? then [e] else []
  }

  function TwoPerChat(): Envelope -> nat {
    (e: Envelope) => if IsChat(e) then 2 else 0
  }

  function OnePerChat(): Envelope -> nat {
    (e: Envelope) => if IsChat(e) then 1 else 0
  }

  /** Envelopes queued so far, and the receipts that chat mail under way may still cause. */
  ghost predicate ThreeFold(w: World) {
    w.sys.relay.nextId - 1 + Load(TwoPerChat(), OnePerChat(), w.sys) <= 3 * SendCount(w.log)
  }

  lemma {:induction false} ReceiptsPaidFor(u: User, mail: seq<Envelope>, now: nat)
    ensures |DeliveryReceipts(u, mail, now)| + Weigh(OnePerChat(), mail) == Weigh(TwoPerChat(), mail)
    ensures Weigh(TwoPerChat(), DeliveryReceipts(u, mail, now)) == 0
  {
    if mail != [] {
      ReceiptsPaidFor(u, mail[1..], now);
      if IsChat(mail[0]) {
        var rest := DeliveryReceipts(u, mail[1..], now);
        assert ([DeliveryReceipt(u, mail[0], now)] + rest)[1..] == rest;
      }
    }
  }

  lemma {:induction false} ThreeFoldStep(w: World, act: Action)
    requires Named(w.sys) && ThreeFold(w)
    ensures ThreeFold(Step(w, act))
  {
    match act
    case Polling(u, now) =>
      if u in w.sys.clients {
        var mail := Pending(w.sys.relay, u);
        LoadAfterPoll(TwoPerChat(), OnePerChat(), w, u, now);
        ReceiptsPaidFor(u, mail, now);
        PendingFetch(w.sys.relay, u, now, u);
        CollectFetchEvents(SendSel(), w.log, u, mail);
      }
    case Handling(u, now) =>
      if u in w.sys.clients && Batch(w.sys, u) != [] {
        var e := Batch(w.sys, u)[0];
        LoadAfterHandle(TwoPerChat(), OnePerChat(), w, u, now);
        HandleRelay(w.sys.clients[u], w.sys.relay, e, now);
        CollectSnoc(SendSel(), w.log, Handle(w.sys.clients[u], w.sys.relay, e, now).2);
      }
    case _ =>
      if act.user in w.sys.clients {
        OutgoingMail(w.sys, act);
        if Reachable(w.sys, act) {
          WeighQueue(TwoPerChat(), w.sys.relay, Posting(w.sys, act));
          CollectSnoc(SendSel(), w.log, Queued(act.user, act.to, act.text, act.timestamp));
        }
      }
  }

  /** In every run, everything ever queued (messages, delivery and read receipts) is at most three
      envelopes per message users sent. */
  lemma {:induction false} AtMostThreeFold(ws: seq<World>, acts: seq<Action>, k: nat)
    requires IsRun(ws, acts) && k <= |acts|
    ensures ThreeFold(ws[k])
    ensures ws[k].sys.relay.nextId - 1 <= 3 * SendCount(ws[k].log)
  {
    if k > 0 {
      AtMostThreeFold(ws, acts, k - 1);
      RunKeepsClients(ws, acts, k - 1);
      ThreeFoldStep(ws[k - 1], acts[k - 1]);
      RunStep(ws, acts, k);
    }
  }
}
