/** The account of one timestamp between two users: how often it was queued, fetched and read, what
    receipts that earned, and exactly when deliveries are earned before readings.
 */
module Accounts {
  import opened Sequences
  import opened Sessions
  import opened Relays
  import opened Clients
  import opened Messaging
  import opened Receipts

  // ── One timestamp of one pair through its stages ────────────────────────

  /** How often a timestamp from `u` to `v` was queued, fetched and read, and the receipts that
      earned. */
  datatype Account = Account(queued: nat, fetched: nat, read: nat, earned: seq<ReceiptKind>)

  function AccountOf(w: World, u: User, v: User, ts: nat): Account {
    var s := StampsOf(w.log, u, v);
    Account(Count(s.queued, ts), Count(s.fetched, ts), Count(s.read, ts), Earned(w, u, v, ts))
  }

  predicate Sends(act: Action, u: User, v: User, ts: nat) {
    (act.Chat? || act.Pushing?) && act.user == u && act.to == v && act.timestamp == ts
  }

  function Deliveries(n: nat): seq<ReceiptKind> {
    if n == 0 then [] else [Delivery] + Deliveries(n - 1)
  }

  function Readings(n: nat): seq<ReceiptKind> {
    if n == 0 then [] else Readings(n - 1) + [Reading]
  }

  /** The counts of one timestamp through the stages. */
  lemma {:induction false} StageCounts(w: World, u: User, v: User, ts: nat)
    requires Staged(w, u, v)
    ensures var s := StampsOf(w.log, u, v);
      && Count(s.queued, ts) == Count(s.fetched, ts) + Count(Collect(StampSel(u), Pending(w.sys.relay, v)), ts)
      && Count(s.fetched, ts) == Count(s.handled, ts) + Count(Collect(StampSel(u), Batch(w.sys, v)), ts)
      && Count(s.read, ts) <= Count(s.handled, ts)
  {
    ReadIsHandled(w.log, u, v, ts);
    StageArithmetic(StampsOf(w.log, u, v), Collect(StampSel(u), Batch(w.sys, v)),
                    Collect(StampSel(u), Pending(w.sys.relay, v)), ts);
  }

  lemma {:induction false} StageArithmetic(s: Stamps, batch: seq<nat>, pending: seq<nat>, ts: nat)
    requires s.queued == s.handled + (batch + pending)
    requires s.fetched == s.handled + batch
    ensures Count(s.queued, ts) == Count(s.fetched, ts) + Count(pending, ts)
    ensures Count(s.fetched, ts) == Count(s.handled, ts) + Count(batch, ts)
  {
    CountConcat(s.handled, batch, ts);
    CountConcat(s.handled, batch + pending, ts);
    CountConcat(batch, pending, ts);
  }

  lemma {:induction false} FetchEarnsDeliveries(x: User, es: seq<Envelope>, u: User, v: User, ts: nat)
    ensures Collect(EarnSel(u, v, ts), FetchEvents(x, es)) ==
            if x == v then Deliveries(Count(Collect(StampSel(u), es), ts)) else []
  {
    if es != [] {
      var e, rest := es[0], es[1..];
      FetchEarnsDeliveries(x, rest, u, v, ts);
      assert es == [e] + rest;
      CollectCons(StampSel(u), e, rest);
      CountConcat(StampSel(u)(e), Collect(StampSel(u), rest), ts);
      HeadStamp(e, u, ts);
      HeadEarns(x, e, FetchEvents(x, rest), u, v, ts);
      assert [Delivery] + Deliveries(Count(Collect(StampSel(u), rest), ts)) ==
             Deliveries(1 + Count(Collect(StampSel(u), rest), ts));
      assert FetchEvents(x, es) == if IsChat(e) then [Fetched(e.sender, x, e.timestamp)] + FetchEvents(x, rest)
                                   else FetchEvents(x, rest);
    }
  }

  lemma {:induction false} HeadEarns(x: User, e: Envelope, events: seq<Event>, u: User, v: User, ts: nat)
    ensures Collect(EarnSel(u, v, ts), [Fetched(e.sender, x, e.timestamp)] + events) ==
            if x == v && e.sender == u && e.timestamp == ts then [Delivery] + Collect(EarnSel(u, v, ts), events)
            else Collect(EarnSel(u, v, ts), events)
  {
    CollectCons(EarnSel(u, v, ts), Fetched(e.sender, x, e.timestamp), events);
    assert [] + Collect(EarnSel(u, v, ts), events) == Collect(EarnSel(u, v, ts), events);
  }

  lemma {:induction false} HeadStamp(e: Envelope, u: User, ts: nat)
    ensures Count(StampSel(u)(e), ts) == if IsChat(e) && e.sender == u && e.timestamp == ts then 1 else 0
  {
  }

  /** A poll of `v` fetches all that is queued. */
  lemma {:induction false} PollAccount(w: World, x: User, now: nat, w': World, u: User, v: User, ts: nat)
    requires x in w.sys.clients && Staged(w, u, v) && w' == Step(w, Polling(x, now))
    ensures var acc := AccountOf(w, u, v, ts);
      && acc.queued >= acc.fetched
      && AccountOf(w', u, v, ts) ==
         if x == v then acc.(fetched := acc.queued, earned := acc.earned + Deliveries(acc.queued - acc.fetched))
         else acc
  {
    var mail, s := Pending(w.sys.relay, x), StampsOf(w.log, u, v);
    assert w'.log == w.log + FetchEvents(x, mail);
    FetchAccount(w, w', x, u, v, ts);
  }

  lemma {:induction false} FetchAccount(w: World, w': World, x: User, u: User, v: User, ts: nat)
    requires Staged(w, u, v) && w'.log == w.log + FetchEvents(x, Pending(w.sys.relay, x))
    ensures var acc := AccountOf(w, u, v, ts);
      && acc.queued >= acc.fetched
      && AccountOf(w', u, v, ts) ==
         if x == v then acc.(fetched := acc.queued, earned := acc.earned + Deliveries(acc.queued - acc.fetched))
         else acc
  {
    var acc, acc' := AccountOf(w, u, v, ts), AccountOf(w', u, v, ts);
    var n := Count(Collect(StampSel(u), Pending(w.sys.relay, x)), ts);
    StageCounts(w, u, v, ts);
    FetchEarned(w, w', x, u, v, ts);
    FetchCounts(w, w', x, u, v, ts);
    if x == v {
      assert acc'.fetched == acc.queued && n == acc.queued - acc.fetched;
      assert acc' == Account(acc.queued, acc.queued, acc.read, acc.earned + Deliveries(n));
    } else {
      assert acc.earned + [] == acc.earned;
      assert acc' == Account(acc.queued, acc.fetched, acc.read, acc.earned);
    }
  }

  lemma {:induction false} FetchCounts(w: World, w': World, x: User, u: User, v: User, ts: nat)
    requires w'.log == w.log + FetchEvents(x, Pending(w.sys.relay, x))
    ensures var acc, acc' := AccountOf(w, u, v, ts), AccountOf(w', u, v, ts);
      && acc'.queued == acc.queued && acc'.read == acc.read
      && acc'.fetched == acc.fetched +
                         (if x == v then Count(Collect(StampSel(u), Pending(w.sys.relay, x)), ts) else 0)
  {
    var mail := Pending(w.sys.relay, x);
    StampsAfterFetch(w.log, x, mail, u, v);
    CountConcat(StampsOf(w.log, u, v).fetched, Collect(StampSel(u), mail), ts);
  }

  lemma {:induction false} FetchEarned(w: World, w': World, x: User, u: User, v: User, ts: nat)
    requires w'.log == w.log + FetchEvents(x, Pending(w.sys.relay, x))
    ensures Earned(w', u, v, ts) == Earned(w, u, v, ts) +
            if x == v then Deliveries(Count(Collect(StampSel(u), Pending(w.sys.relay, x)), ts)) else []
  {
    CollectConcat(EarnSel(u, v, ts), w.log, FetchEvents(x, Pending(w.sys.relay, x)));
    FetchEarnsDeliveries(x, Pending(w.sys.relay, x), u, v, ts);
  }

  /** What an event other than a fetch says of one timestamp. */
  lemma {:induction false} EventSelects(event: Event, u: User, v: User, ts: nat)
    requires !event.Fetched?
    ensures var read, queued := ReadSel(u, v)(event), QueuedSel(u, v)(event);
      && |read| <= 1 && |queued| <= 1 && FetchedSel(u, v)(event) == [] && (read == [] || queued == [])
      && EarnSel(u, v, ts)(event) == (if read == [ts] then [Reading] else [])
  {
  }

  /** What an event other than a fetch adds. */
  lemma {:induction false} EventAccount(w: World, w': World, event: Event, u: User, v: User, ts: nat)
    requires !event.Fetched? && w'.log == w.log + [event]
    ensures var acc := AccountOf(w, u, v, ts);
      AccountOf(w', u, v, ts) ==
        if ReadSel(u, v)(event) == [ts] then acc.(read := acc.read + 1, earned := acc.earned + [Reading])
        else if QueuedSel(u, v)(event) == [ts] then acc.(queued := acc.queued + 1)
        else acc
  {
    var acc, acc' := AccountOf(w, u, v, ts), AccountOf(w', u, v, ts);
    EventSelects(event, u, v, ts);
    EventCounts(w, w', event, u, v, ts);
    CollectSnoc(EarnSel(u, v, ts), w.log, event);
    assert acc.earned + [] == acc.earned;
    assert acc' == Account(acc'.queued, acc'.fetched, acc'.read, acc'.earned);
  }

  lemma {:induction false} EventCounts(w: World, w': World, event: Event, u: User, v: User, ts: nat)
    requires !event.Fetched? && w'.log == w.log + [event]
    ensures var acc, acc' := AccountOf(w, u, v, ts), AccountOf(w', u, v, ts);
      && acc'.read == acc.read + (if ReadSel(u, v)(event) == [ts] then 1 else 0)
      && acc'.queued == acc.queued + (if QueuedSel(u, v)(event) == [ts] then 1 else 0)
      && acc'.fetched == acc.fetched
  {
    CountSelected(ReadSel(u, v), w.log, event, ts);
    CountSelected(QueuedSel(u, v), w.log, event, ts);
    CountSelected(FetchedSel(u, v), w.log, event, ts);
  }

  lemma {:induction false} HandleAccount(w: World, x: User, now: nat, w': World, u: User, v: User, ts: nat)
    requires x in w.sys.clients && Batch(w.sys, x) != [] && Named(w.sys) && w' == Step(w, Handling(x, now))
    ensures var acc, acc' := AccountOf(w, u, v, ts), AccountOf(w', u, v, ts);
      acc' == acc || (x == v && acc' == acc.(read := acc.read + 1, earned := acc.earned + [Reading]))
  {
    var e, c := Batch(w.sys, x)[0], w.sys.clients[x];
    HandleRelay(c, w.sys.relay, e, now);
    EventAccount(w, w', Handle(c, w.sys.relay, e, now).2, u, v, ts);
  }

  lemma {:induction false} SendAccount(w: World, act: Action, w': World, u: User, v: User, ts: nat)
    requires (act.Chat? || act.Pushing?) && Named(w.sys) && w' == Step(w, act)
    ensures var acc, acc' := AccountOf(w, u, v, ts), AccountOf(w', u, v, ts);
      acc' == if Sends(act, u, v, ts) && Reachable(w.sys, act) then acc.(queued := acc.queued + 1) else acc
  {
    TransitAfterSend(StampSel(u), w, act, v);
    if Reachable(w.sys, act) {
      EventAccount(w, w', Queued(act.user, act.to, act.text, act.timestamp), u, v, ts);
    }
  }

  /** What a step does to an account: a poll of `v` fetches all that is queued, handling at `v` may
      read one, a send of `u` to `v` with this timestamp queues one, and nothing else changes it. */
  lemma {:induction false} AccountStep(w: World, act: Action, w': World, u: User, v: User, ts: nat)
    requires Named(w.sys) && Staged(w, u, v) && w' == Step(w, act)
    ensures var acc, acc' := AccountOf(w, u, v, ts), AccountOf(w', u, v, ts);
      && acc.queued >= acc.fetched >= acc.read
      && if act.Polling? && act.user == v && v in w.sys.clients
         then acc' == acc.(fetched := acc.queued, earned := acc.earned + Deliveries(acc.queued - acc.fetched))
         else if act.Handling? && act.user == v
         then acc' == acc || acc' == acc.(read := acc.read + 1, earned := acc.earned + [Reading])
         else if Sends(act, u, v, ts) then acc' == acc || acc' == acc.(queued := acc.queued + 1)
         else acc' == acc
  {
    StageCounts(w, u, v, ts);
    match act
    case Polling(x, now) =>
      if x in w.sys.clients {
        PollAccount(w, x, now, w', u, v, ts);
      }
    case Handling(x, now) =>
      if x in w.sys.clients && Batch(w.sys, x) != [] {
        HandleAccount(w, x, now, w', u, v, ts);
      }
    case _ =>
      SendAccount(w, act, w', u, v, ts);
  }

  lemma {:induction false} RunAccountStep(ws: seq<World>, acts: seq<Action>, i: nat, u: User, v: User, ts: nat)
    requires IsRun(ws, acts) && i < |acts|
    ensures Named(ws[i].sys) && Staged(ws[i], u, v) && ws[i + 1] == Step(ws[i], acts[i])
  {
    RunKeepsClients(ws, acts, i);
    StagesConserved(ws, acts, i, u, v);
  }

  // ── Timestamps in time ──────────────────────────────────────────────────

  /** A send may carry a timestamp as long as none of the pair with that timestamp was fetched. */
  predicate InTime(w: World, act: Action, u: User, v: User, ts: nat) {
    Sends(act, u, v, ts) ==> ts !in StampsOf(w.log, u, v).fetched
  }

  /** The first `k` actions reuse a timestamp of a pair only while the earlier ones wait at the
      relay. */
  ghost predicate NoLateReuse(ws: seq<World>, acts: seq<Action>, k: nat, u: User, v: User, ts: nat)
    requires IsRun(ws, acts) && k <= |acts|
  {
    forall i :: 0 <= i < k ==> InTime(ws[i], acts[i], u, v, ts)
  }

  /** All deliveries were earned before all readings. */
  predicate Sorted(acc: Account) {
    acc.earned == Deliveries(acc.fetched) + Readings(acc.read)
  }

  predicate AllFetched(acc: Account) {
    acc.fetched > 0 ==> acc.queued == acc.fetched
  }

  lemma {:induction false} SortedStep(acc: Account, acc': Account)
    requires Sorted(acc) && AllFetched(acc) && acc.queued >= acc.fetched >= acc.read
    requires || acc' == acc
             || acc' == acc.(fetched := acc.queued, earned := acc.earned + Deliveries(acc.queued - acc.fetched))
             || acc' == acc.(read := acc.read + 1, earned := acc.earned + [Reading])
             || (acc.fetched == 0 && acc' == acc.(queued := acc.queued + 1))
    ensures Sorted(acc') && AllFetched(acc')
  {
    assert Readings(acc.read) + [Reading] == Readings(acc.read + 1);
    assert acc.earned + [] == acc.earned;
    assert [] + Deliveries(acc.queued) == Deliveries(acc.queued) + [];
    assert (Deliveries(acc.fetched) + Readings(acc.read)) + [Reading] ==
           Deliveries(acc.fetched) + (Readings(acc.read) + [Reading]);
  }

  /** Without late reuse, deliveries are earned before readings. */
  lemma {:induction false} EarnedSorted(ws: seq<World>, acts: seq<Action>, k: nat, u: User, v: User, ts: nat)
    requires IsRun(ws, acts) && k <= |acts| && NoLateReuse(ws, acts, k, u, v, ts)
    ensures Sorted(AccountOf(ws[k], u, v, ts)) && AllFetched(AccountOf(ws[k], u, v, ts))
  {
    if k == 0 {
      StartSorted(ws[0], u, v, ts);
    } else {
      var i := k - 1;
      EarnedSorted(ws, acts, i, u, v, ts);
      RunAccountStep(ws, acts, i, u, v, ts);
      assert ws[i + 1] == ws[k] && InTime(ws[i], acts[i], u, v, ts);
      NextSorted(ws[i], acts[i], ws[k], u, v, ts);
    }
  }

  lemma {:induction false} StartSorted(w: World, u: User, v: User, ts: nat)
    requires Initial(w)
    ensures AccountOf(w, u, v, ts) == Account(0, 0, 0, [])
  {
  }

  lemma {:induction false} NextSorted(w: World, act: Action, w': World, u: User, v: User, ts: nat)
    requires Named(w.sys) && Staged(w, u, v) && w' == Step(w, act) && InTime(w, act, u, v, ts)
    requires Sorted(AccountOf(w, u, v, ts)) && AllFetched(AccountOf(w, u, v, ts))
    ensures Sorted(AccountOf(w', u, v, ts)) && AllFetched(AccountOf(w', u, v, ts))
  {
    var acc, acc' := AccountOf(w, u, v, ts), AccountOf(w', u, v, ts);
    AccountStep(w, act, w', u, v, ts);
    if Sends(act, u, v, ts) {
      NoneFetched(w, u, v, ts);
    }
    SortedStep(acc, acc');
  }

  lemma {:induction false} NoneFetched(w: World, u: User, v: User, ts: nat)
    requires ts !in StampsOf(w.log, u, v).fetched
    ensures AccountOf(w, u, v, ts).fetched == 0
  {
    CountPositive(StampsOf(w.log, u, v).fetched, ts);
  }
}
