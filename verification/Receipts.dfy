/** Receipts and the status of sent messages: every receipt earned is queued, applied once and
    in order, so a status only advances and says only what happened.
 */
module Receipts {
  import opened Sequences
  import opened Sessions
  import opened Relays
  import opened Clients
  import opened Messaging

  // ── What is followed, for a message from u to v with one timestamp ──────

  /** Events that earn the sender a receipt. */
  function EarnSel(u: User, v: User, ts: nat): Event -> seq<ReceiptKind> {
    (e: Event) =>
      if e.Fetched? && e.from == u && e.to == v && e.timestamp == ts then [Delivery]
      else if e.Opened? && e.result.Ok? && e.from == u && e.to == v && e.timestamp == ts then [Reading]
      else []
  }

  /** Receipts the sender has applied. */
  function AckSel(u: User, v: User, ts: nat): Event -> seq<ReceiptKind> {
    (e: Event) => if e.Acked? && e.from == v && e.to == u && e.timestamp == ts then [e.kind] else []
  }

  /** Receipts on their way. */
  function ReceiptSel(v: User, ts: nat): Envelope -> seq<ReceiptKind> {
    (e: Envelope) => if e.body.Receipting? && e.sender == v && e.body.originalTimestamp == ts then [e.body.kind] else []
  }

  function Earned(w: World, u: User, v: User, ts: nat): seq<ReceiptKind> {
    Collect(EarnSel(u, v, ts), w.log)
  }

  function Applied(w: World, u: User, v: User, ts: nat): seq<ReceiptKind> {
    Collect(AckSel(u, v, ts), w.log)
  }

  function UnderWay(sys: System, u: User, v: User, ts: nat): seq<ReceiptKind> {
    InTransit(ReceiptSel(v, ts), sys, u)
  }

  // ── Conservation of receipts ────────────────────────────────────────────

  ghost predicate Balanced(w: World, u: User, v: User, ts: nat) {
    Applied(w, u, v, ts) + UnderWay(w.sys, u, v, ts) == Earned(w, u, v, ts)
  }

  lemma {:induction false} LogEvent(w: World, event: Event, u: User, v: User, ts: nat)
    ensures var w' := World(w.sys, w.log + [event]);
      && Earned(w', u, v, ts) == Earned(w, u, v, ts) + EarnSel(u, v, ts)(event)
      && Applied(w', u, v, ts) == Applied(w, u, v, ts) + AckSel(u, v, ts)(event)
  {
    CollectSnoc(EarnSel(u, v, ts), w.log, event);
    CollectSnoc(AckSel(u, v, ts), w.log, event);
  }

  /** The delivery receipts a fetch sends to `u` are those its events earn. */
  lemma {:induction false} FetchEarns(x: User, es: seq<Envelope>, now: nat, u: User, v: User, ts: nat)
    ensures Collect(ReceiptSel(v, ts), Addressed(DeliveryReceipts(x, es, now), u)) ==
            Collect(EarnSel(u, v, ts), FetchEvents(x, es))
  {
    if es != [] {
      FetchEarns(x, es[1..], now, u, v, ts);
      if IsChat(es[0]) {
        var rest := DeliveryReceipts(x, es[1..], now);
        var d, f := DeliveryReceipt(x, es[0], now), Fetched(es[0].sender, x, es[0].timestamp);
        assert ([d] + rest)[1..] == rest;
        CollectConcat(EarnSel(u, v, ts), [f], FetchEvents(x, es[1..]));
        CollectOne(EarnSel(u, v, ts), f);
        if d.recipient == u {
          CollectConcat(ReceiptSel(v, ts), [d], Addressed(rest, u));
          CollectOne(ReceiptSel(v, ts), d);
        } else {
          assert EarnSel(u, v, ts)(f) == [];
        }
      }
    }
  }

  /** A send puts no receipt under way. */
  lemma {:induction false} SendUnderWay(w: World, act: Action, u: User, v: User, ts: nat)
    requires (act.Chat? || act.Pushing?) && Named(w.sys)
    ensures UnderWay(Step(w, act).sys, u, v, ts) == UnderWay(w.sys, u, v, ts)
    ensures Step(w, act).log ==
            if Reachable(w.sys, act) then w.log + [Queued(act.user, act.to, act.text, act.timestamp)] else w.log
  {
    TransitAfterSend(ReceiptSel(v, ts), w, act, u);
    if Reachable(w.sys, act) {
      OutgoingMail(w.sys, act);
      assert ReceiptSel(v, ts)(Posting(w.sys, act)) == [];
      assert UnderWay(w.sys, u, v, ts) + [] == UnderWay(w.sys, u, v, ts);
    }
  }

  lemma {:induction false} SendBalances(w: World, act: Action, u: User, v: User, ts: nat)
    requires (act.Chat? || act.Pushing?) && Named(w.sys) && Balanced(w, u, v, ts)
    ensures Balanced(Step(w, act), u, v, ts)
  {
    SendUnderWay(w, act, u, v, ts);
    if Reachable(w.sys, act) {
      LogEvent(w, Queued(act.user, act.to, act.text, act.timestamp), u, v, ts);
    }
  }

  lemma {:induction false} PollBalances(w: World, x: User, now: nat, u: User, v: User, ts: nat)
    requires Balanced(w, u, v, ts)
    ensures Balanced(Step(w, Polling(x, now)), u, v, ts)
  {
    if x in w.sys.clients {
      var mail := Pending(w.sys.relay, x);
      FetchEarns(x, mail, now, u, v, ts);
      TransitAfterPoll(ReceiptSel(v, ts), w, x, now, u);
      PollLogs(w, x, mail, u, v, ts);
      AppendBoth(Earned(w, u, v, ts), Applied(w, u, v, ts), UnderWay(w.sys, u, v, ts),
                 Collect(EarnSel(u, v, ts), FetchEvents(x, mail)));
    }
  }

  lemma {:induction false} PollLogs(w: World, x: User, mail: seq<Envelope>, u: User, v: User, ts: nat)
    ensures var w' := World(w.sys, w.log + FetchEvents(x, mail));
      && Earned(w', u, v, ts) == Earned(w, u, v, ts) + Collect(EarnSel(u, v, ts), FetchEvents(x, mail))
      && Applied(w', u, v, ts) == Applied(w, u, v, ts)
  {
    CollectConcat(EarnSel(u, v, ts), w.log, FetchEvents(x, mail));
    CollectFetchEvents(AckSel(u, v, ts), w.log, x, mail);
  }

  lemma {:induction false} AppendBoth<T>(whole: seq<T>, left: seq<T>, right: seq<T>, more: seq<T>)
    requires whole == left + right
    ensures whole + more == left + (right + more)
  {
  }

  lemma {:induction false} Rebalance<T>(a: seq<T>, t: seq<T>, e: seq<T>, h: seq<T>, t': seq<T>, r: seq<T>)
    requires a + t == e && t + r == h + t'
    ensures (a + h) + t' == e + r
  {
    assert (a + h) + t' == a + (h + t') == a + (t + r) == (a + t) + r;
  }

  lemma {:induction false} HandleBalances(w: World, x: User, now: nat, u: User, v: User, ts: nat)
    requires Named(w.sys) && Balanced(w, u, v, ts)
    ensures Balanced(Step(w, Handling(x, now)), u, v, ts)
  {
    if x in w.sys.clients && Batch(w.sys, x) != [] {
      var e, c := Batch(w.sys, x)[0], w.sys.clients[x];
      var event := Handle(c, w.sys.relay, e, now).2;
      HandleRelay(c, w.sys.relay, e, now);
      LogEvent(w, event, u, v, ts);
      TransitAfterHandle(ReceiptSel(v, ts), w, x, now, u);
      var h, r := AckSel(u, v, ts)(event), EarnSel(u, v, ts)(event);
      assert h == if x == u then ReceiptSel(v, ts)(e) else [];
      var w' := Step(w, Handling(x, now));
      Rebalance(Applied(w, u, v, ts), UnderWay(w.sys, u, v, ts), Earned(w, u, v, ts), h, UnderWay(w'.sys, u, v, ts), r);
    }
  }

  lemma {:induction false} ReceiptsConserved(ws: seq<World>, acts: seq<Action>, k: nat, u: User, v: User, ts: nat)
    requires IsRun(ws, acts) && k <= |acts|
    ensures Balanced(ws[k], u, v, ts)
  {
    if k > 0 {
      ReceiptsConserved(ws, acts, k - 1, u, v, ts);
      RunKeepsClients(ws, acts, k - 1);
      RunStep(ws, acts, k);
      match acts[k - 1]
      case Polling(x, now) => PollBalances(ws[k - 1], x, now, u, v, ts);
      case Handling(x, now) => HandleBalances(ws[k - 1], x, now, u, v, ts);
      case act => SendBalances(ws[k - 1], acts[k - 1], u, v, ts);
    }
  }

  // ── Timestamps: each message is queued, fetched and handled in order ────

  function StampSel(u: User): Envelope -> seq<nat> {
    (e: Envelope) => if IsChat(e) && e.sender == u then [e.timestamp] else []
  }

  function QueuedSel(u: User, v: User): Event -> seq<nat> {
    (e: Event) => if e.Queued? && e.from == u && e.to == v then [e.timestamp] else []
  }

  function FetchedSel(u: User, v: User): Event -> seq<nat> {
    (e: Event) => if e.Fetched? && e.from == u && e.to == v then [e.timestamp] else []
  }

  /** Mail that was handled, whatever came of it. */
  function HandledSel(u: User, v: User): Event -> seq<nat> {
    (e: Event) =>
      if (e.Opened? || e.Dropped?) && e.from == u && e.to == v then [e.timestamp]
      else if e.Filed? && e.user == u == v then [e.timestamp]
      else []
  }

  function ReadSel(u: User, v: User): Event -> seq<nat> {
    (e: Event) => if e.Opened? && e.result.Ok? && e.from == u && e.to == v then [e.timestamp] else []
  }

  /** The timestamps of the messages from `u` to `v` that went through each stage. */
  datatype Stamps = Stamps(queued: seq<nat>, fetched: seq<nat>, handled: seq<nat>, read: seq<nat>)

  function StampsOf(log: seq<Event>, u: User, v: User): Stamps {
    Stamps(Collect(QueuedSel(u, v), log), Collect(FetchedSel(u, v), log),
           Collect(HandledSel(u, v), log), Collect(ReadSel(u, v), log))
  }

  lemma {:induction false} StampsAfter(log: seq<Event>, event: Event, u: User, v: User)
    ensures var s, s' := StampsOf(log, u, v), StampsOf(log + [event], u, v);
      && s'.queued == s.queued + QueuedSel(u, v)(event)
      && s'.fetched == s.fetched + FetchedSel(u, v)(event)
      && s'.handled == s.handled + HandledSel(u, v)(event)
      && s'.read == s.read + ReadSel(u, v)(event)
  {
    CollectSnoc(QueuedSel(u, v), log, event);
    CollectSnoc(FetchedSel(u, v), log, event);
    CollectSnoc(HandledSel(u, v), log, event);
    CollectSnoc(ReadSel(u, v), log, event);
  }

  lemma {:induction false} FetchStamps(x: User, es: seq<Envelope>, u: User, v: User)
    ensures Collect(FetchedSel(u, v), FetchEvents(x, es)) == if x == v then Collect(StampSel(u), es) else []
  {
    if es != [] {
      FetchStamps(x, es[1..], u, v);
      if IsChat(es[0]) {
        var f := Fetched(es[0].sender, x, es[0].timestamp);
        assert ([f] + FetchEvents(x, es[1..]))[1..] == FetchEvents(x, es[1..]);
      }
    }
  }

  lemma {:induction false} StampsAfterFetch(log: seq<Event>, x: User, es: seq<Envelope>, u: User, v: User)
    ensures var s, s' := StampsOf(log, u, v), StampsOf(log + FetchEvents(x, es), u, v);
      s' == if x == v then s.(fetched := s.fetched + Collect(StampSel(u), es)) else s
  {
    CollectFetchEvents(QueuedSel(u, v), log, x, es);
    CollectFetchEvents(HandledSel(u, v), log, x, es);
    CollectFetchEvents(ReadSel(u, v), log, x, es);
    CollectConcat(FetchedSel(u, v), log, FetchEvents(x, es));
    FetchStamps(x, es, u, v);
  }

  /** Queued means handled, in the batch, or at the relay, in that order; fetched means handled or
      in the batch. */
  ghost predicate Staged(w: World, u: User, v: User) {
    var s := StampsOf(w.log, u, v);
    && s.queued == s.handled + InTransit(StampSel(u), w.sys, v)
    && s.fetched == s.handled + Collect(StampSel(u), Batch(w.sys, v))
  }

  /** Whatever was read was handled. */
  lemma {:induction false} ReadIsHandled(log: seq<Event>, u: User, v: User, ts: nat)
    ensures Count(Collect(ReadSel(u, v), log), ts) <= Count(Collect(HandledSel(u, v), log), ts)
  {
    if log != [] {
      var e, rest := log[0], log[1..];
      ReadIsHandled(rest, u, v, ts);
      CountConcat(ReadSel(u, v)(e), Collect(ReadSel(u, v), rest), ts);
      CountConcat(HandledSel(u, v)(e), Collect(HandledSel(u, v), rest), ts);
    }
  }

  lemma {:induction false} SendStages(w: World, act: Action, u: User, v: User)
    requires (act.Chat? || act.Pushing?) && Named(w.sys) && Staged(w, u, v)
    ensures Staged(Step(w, act), u, v)
  {
    TransitAfterSend(StampSel(u), w, act, v);
    if Reachable(w.sys, act) {
      PostedStamp(w.sys, act, u);
      var s, x := StampsOf(w.log, u, v), if act.user == u && act.to == v then [act.timestamp] else [];
      QueuedStamp(w.log, act, u, v);
      assert InTransit(StampSel(u), Step(w, act).sys, v) == InTransit(StampSel(u), w.sys, v) + x;
      AppendBoth(s.queued, s.handled, InTransit(StampSel(u), w.sys, v), x);
    }
  }

  lemma {:induction false} PostedStamp(sys: System, act: Action, u: User)
    requires (act.Chat? || act.Pushing?) && Named(sys) && Reachable(sys, act)
    ensures StampSel(u)(Posting(sys, act)) == if act.user == u then [act.timestamp] else []
  {
    OutgoingMail(sys, act);
  }

  lemma {:induction false} QueuedStamp(log: seq<Event>, act: Action, u: User, v: User)
    requires act.Chat? || act.Pushing?
    ensures var s := StampsOf(log, u, v);
      StampsOf(log + [Queued(act.user, act.to, act.text, act.timestamp)], u, v) ==
      s.(queued := s.queued + if act.user == u && act.to == v then [act.timestamp] else [])
  {
    StampsAfter(log, Queued(act.user, act.to, act.text, act.timestamp), u, v);
  }

  /** `w'` is `w` after `x` fetched `mail`, as far as messages from `u` to `v` go. */
  predicate FetchedBy(w: World, w': World, x: User, mail: seq<Envelope>, u: User, v: User) {
    && w'.log == w.log + FetchEvents(x, mail)
    && InTransit(StampSel(u), w'.sys, v) == InTransit(StampSel(u), w.sys, v)
    && Collect(StampSel(u), Batch(w'.sys, v)) ==
       if x == v then Collect(StampSel(u), Batch(w.sys, v)) + Collect(StampSel(u), mail)
       else Collect(StampSel(u), Batch(w.sys, v))
  }

  lemma {:induction false} FetchStages(w: World, w': World, x: User, mail: seq<Envelope>, u: User, v: User)
    requires Staged(w, u, v) && FetchedBy(w, w', x, mail, u, v)
    ensures Staged(w', u, v)
  {
    StampsAfterFetch(w.log, x, mail, u, v);
    var s, batch := StampsOf(w.log, u, v), Collect(StampSel(u), Batch(w.sys, v));
    var more := Collect(StampSel(u), mail);
    AppendBoth(s.fetched, s.handled, batch, more);
  }

  lemma {:induction false} PollStages(w: World, x: User, now: nat, u: User, v: User)
    requires Staged(w, u, v)
    ensures Staged(Step(w, Polling(x, now)), u, v)
  {
    if x in w.sys.clients {
      PollTransit(w, x, now, u, v);
      FetchStages(w, Step(w, Polling(x, now)), x, Pending(w.sys.relay, x), u, v);
    }
  }

  lemma {:induction false} PollTransit(w: World, x: User, now: nat, u: User, v: User)
    requires x in w.sys.clients
    ensures FetchedBy(w, Step(w, Polling(x, now)), x, Pending(w.sys.relay, x), u, v)
  {
    var mail := Pending(w.sys.relay, x);
    TransitAfterPoll(StampSel(u), w, x, now, v);
    ReceiptsNotSelected(StampSel(u), x, mail, now, v);
    CollectConcat(StampSel(u), Batch(w.sys, x), mail);
  }

  /** Handling reports chat mail under its own sender and timestamp, and nothing else. */
  lemma {:induction false} HandleStamp(c: ClientState, r: RelayState, e: Envelope, now: nat, u: User, v: User)
    ensures var event := Handle(c, r, e, now).2;
      && HandledSel(u, v)(event) == (if c.user == v then StampSel(u)(e) else [])
      && (ReadSel(u, v)(event) == [] || ReadSel(u, v)(event) == HandledSel(u, v)(event))
      && QueuedSel(u, v)(event) == [] && FetchedSel(u, v)(event) == []
  {
  }

  lemma {:induction false} HandleStages(w: World, x: User, now: nat, u: User, v: User)
    requires Named(w.sys) && Staged(w, u, v)
    ensures Staged(Step(w, Handling(x, now)), u, v)
  {
    if x in w.sys.clients && Batch(w.sys, x) != [] {
      var e, c := Batch(w.sys, x)[0], w.sys.clients[x];
      var event := Handle(c, w.sys.relay, e, now).2;
      var h := HandledSel(u, v)(event);
      HandleStamp(c, w.sys.relay, e, now, u, v);
      StampsAfter(w.log, event, u, v);
      TransitAfterHandle(StampSel(u), w, x, now, v);
      assert StampSel(u)(ReadReceipt(c.user, e, now)) == [];
      var w' := Step(w, Handling(x, now));
      assert Collect(StampSel(u), Batch(w.sys, v)) == h + Collect(StampSel(u), Batch(w'.sys, v));
      assert InTransit(StampSel(u), w.sys, v) + [] == InTransit(StampSel(u), w.sys, v);
      TakenStages(StampsOf(w.log, u, v), StampsOf(w'.log, u, v), h,
                  InTransit(StampSel(u), w.sys, v), InTransit(StampSel(u), w'.sys, v),
                  Collect(StampSel(u), Batch(w.sys, v)), Collect(StampSel(u), Batch(w'.sys, v)));
    }
  }

  lemma {:induction false} TakenStages(s: Stamps, s': Stamps, taken: seq<nat>, transit: seq<nat>, transit': seq<nat>,
                                       batch: seq<nat>, batch': seq<nat>)
    requires s.queued == s.handled + transit && s.fetched == s.handled + batch
    requires transit == taken + transit' && batch == taken + batch'
    requires s'.queued == s.queued && s'.fetched == s.fetched && s'.handled == s.handled + taken
    ensures s'.queued == s'.handled + transit' && s'.fetched == s'.handled + batch'
  {
    assert s.handled + (taken + transit') == (s.handled + taken) + transit';
    assert s.handled + (taken + batch') == (s.handled + taken) + batch';
  }

  lemma {:induction false} StagesConserved(ws: seq<World>, acts: seq<Action>, k: nat, u: User, v: User)
    requires IsRun(ws, acts) && k <= |acts|
    ensures Staged(ws[k], u, v)
  {
    if k > 0 {
      StagesConserved(ws, acts, k - 1, u, v);
      RunKeepsClients(ws, acts, k - 1);
      RunStep(ws, acts, k);
      match acts[k - 1]
      case Polling(x, now) => PollStages(ws[k - 1], x, now, u, v);
      case Handling(x, now) => HandleStages(ws[k - 1], x, now, u, v);
      case act => SendStages(ws[k - 1], acts[k - 1], u, v);
    }
  }
}
