/** Continuing a run: every run goes on, and a client can always catch up with its mail. */
module Runs {
  import opened Sequences
  import opened Sessions
  import opened Relays
  import opened Clients
  import opened Messaging

  /** The second run continues the first. */
  ghost predicate Extends(ws: seq<World>, acts: seq<Action>, ws': seq<World>, acts': seq<Action>) {
    IsRun(ws, acts) && IsRun(ws', acts') && ws <= ws' && acts <= acts'
  }

  lemma {:induction false} Extend(ws: seq<World>, acts: seq<Action>, act: Action)
    returns (ws': seq<World>, acts': seq<Action>)
    requires IsRun(ws, acts)
    ensures Extends(ws, acts, ws', acts') && acts' == acts + [act] && ws' == ws + [Step(ws[|acts|], act)]
  {
    ws', acts' := ws + [Step(ws[|acts|], act)], acts + [act];
    forall i | 0 <= i < |acts'| ensures ws'[i + 1] == Step(ws'[i], acts'[i]) {
      if i < |acts| {
        assert ws[i + 1] == Step(ws[i], acts[i]);
      }
    }
  }

  lemma {:induction false} LogGrows(w: World, act: Action)
    requires Named(w.sys)
    ensures w.log <= Step(w, act).log
  {
    if act.Chat? || act.Pushing? {
      TransitAfterSend(ChatSel(act.user), w, act, act.to);
    }
  }

  /** Nothing that happened is forgotten. */
  lemma {:induction false} LogPrefix(ws: seq<World>, acts: seq<Action>, j: nat, k: nat)
    requires IsRun(ws, acts) && j <= k <= |acts|
    ensures ws[j].log <= ws[k].log
    decreases k
  {
    if j < k {
      var i := k - 1;
      LogPrefix(ws, acts, j, i);
      RunKeepsClients(ws, acts, i);
      RunStep(ws, acts, k);
      LogGrows(ws[i], acts[i]);
    }
  }

  /** What was selected from the log stays selected. */
  lemma {:induction false} SelectionGrows<T>(ws: seq<World>, acts: seq<Action>, j: nat, k: nat, f: Event -> seq<T>)
    requires IsRun(ws, acts) && j <= k <= |acts|
    ensures Collect(f, ws[j].log) <= Collect(f, ws[k].log)
  {
    LogPrefix(ws, acts, j, k);
    CollectGrows(f, ws[j].log, ws[k].log);
  }

  // ── Catching up ─────────────────────────────────────────────────────────

  /** All mail waiting for a user at the relay is the user's own. */
  ghost predicate OnlyOwn(sys: System, u: User) {
    forall i :: 0 <= i < |Pending(sys.relay, u)| ==> Pending(sys.relay, u)[i].sender == u
  }

  /** From position `n` on, actions are loop iterations of one client. */
  predicate OnlyHandling(acts: seq<Action>, n: nat, u: User) {
    forall i :: n <= i < |acts| ==> acts[i].Handling? && acts[i].user == u
  }

  /** From position `n` on, actions are polls and loop iterations of one client. */
  predicate OnlyReceiving(acts: seq<Action>, n: nat, u: User) {
    forall i :: n <= i < |acts| ==> (acts[i].Polling? || acts[i].Handling?) && acts[i].user == u
  }

  lemma {:induction false} HandlingTakes(w: World, u: User, now: nat)
    requires u in w.sys.clients && Batch(w.sys, u) != [] && Named(w.sys)
    ensures var w' := Step(w, Handling(u, now));
      && Batch(w'.sys, u) == Batch(w.sys, u)[1..]
      && (OnlyOwn(w.sys, u) ==> OnlyOwn(w'.sys, u))
  {
    var e, c := Batch(w.sys, u)[0], w.sys.clients[u];
    HandleRelay(c, w.sys.relay, e, now);
    PendingQueue(w.sys.relay, ReadReceipt(c.user, e, now), u);
  }

  /** A client handles all it has fetched. */
  lemma {:induction false} HandleBatch(ws: seq<World>, acts: seq<Action>, u: User)
    returns (ws': seq<World>, acts': seq<Action>)
    requires IsRun(ws, acts) && u in ws[0].sys.clients
    ensures Extends(ws, acts, ws', acts') && OnlyHandling(acts', |acts|, u)
    ensures Batch(ws'[|acts'|].sys, u) == []
    ensures OnlyOwn(ws[|acts|].sys, u) ==> OnlyOwn(ws'[|acts'|].sys, u)
    decreases |Batch(ws[|acts|].sys, u)|
  {
    ws', acts' := ws, acts;
    if Batch(ws[|acts|].sys, u) != [] {
      RunKeepsClients(ws, acts, |acts|);
      HandlingTakes(ws[|acts|], u, 0);
      var ws1, acts1 := Extend(ws, acts, Handling(u, 0));
      ws', acts' := HandleBatch(ws1, acts1, u);
    }
  }

  lemma {:induction false} ReceiptsOwn(u: User, es: seq<Envelope>, now: nat, v: User)
    ensures forall e :: e in Addressed(DeliveryReceipts(u, es, now), v) ==> e.sender == u
  {
    if es != [] {
      ReceiptsOwn(u, es[1..], now, v);
      var rest := DeliveryReceipts(u, es[1..], now);
      if IsChat(es[0]) {
        assert ([DeliveryReceipt(u, es[0], now)] + rest)[1..] == rest;
      }
    }
  }

  lemma {:induction false} PollingLeavesOwn(w: World, u: User, now: nat)
    requires u in w.sys.clients
    ensures OnlyOwn(Step(w, Polling(u, now)).sys, u)
  {
    PendingFetch(w.sys.relay, u, now, u);
    ReceiptsOwn(u, Pending(w.sys.relay, u), now, u);
    var mine := Addressed(DeliveryReceipts(u, Pending(w.sys.relay, u), now), u);
    assert [] + mine == mine;
    assert forall i :: 0 <= i < |mine| ==> mine[i] in mine;
  }

  /** A client polls and handles everything: no mail from anyone else is left for it. */
  lemma {:induction false} Drain(ws: seq<World>, acts: seq<Action>, u: User)
    returns (ws': seq<World>, acts': seq<Action>)
    requires IsRun(ws, acts) && u in ws[0].sys.clients
    ensures Extends(ws, acts, ws', acts') && OnlyReceiving(acts', |acts|, u) && |acts| < |acts'|
    ensures Batch(ws'[|acts'|].sys, u) == [] && OnlyOwn(ws'[|acts'|].sys, u)
  {
    RunKeepsClients(ws, acts, |acts|);
    PollingLeavesOwn(ws[|acts|], u, 0);
    var ws1, acts1 := Extend(ws, acts, Polling(u, 0));
    ws', acts' := HandleBatch(ws1, acts1, u);
    assert acts' == acts1 + acts'[|acts1|..];
  }

  /** Then a selector that picks only mail of others finds nothing on its way. */
  lemma {:induction false} DrainedIsEmpty<T>(sel: Envelope -> seq<T>, sys: System, u: User)
    requires Batch(sys, u) == [] && OnlyOwn(sys, u)
    requires forall e: Envelope :: e.sender == u ==> sel(e) == []
    ensures InTransit(sel, sys, u) == []
  {
    CollectNothing(sel, Pending(sys.relay, u));
  }

  // ── Receiving sends nothing ─────────────────────────────────────────────

  lemma {:induction false} ReceivingSendsNothing(w: World, act: Action, a: User, b: User)
    requires (act.Polling? || act.Handling?) && Named(w.sys)
    ensures SentLetters(Step(w, act), a, b) == SentLetters(w, a, b)
  {
    if act.user in w.sys.clients {
      match act
      case Polling(u, now) =>
        CollectFetchEvents(SentSel(a, b), w.log, u, Pending(w.sys.relay, u));
      case Handling(u, now) =>
        if Batch(w.sys, u) != [] {
          var e, c := Batch(w.sys, u)[0], w.sys.clients[u];
          HandleRelay(c, w.sys.relay, e, now);
          CollectSnoc(SentSel(a, b), w.log, Handle(c, w.sys.relay, e, now).2);
        }
    }
  }

  lemma {:induction false} NothingSent(ws: seq<World>, acts: seq<Action>, j: nat, k: nat, a: User, b: User)
    requires IsRun(ws, acts) && j <= k <= |acts|
    requires forall i :: j <= i < k ==> acts[i].Polling? || acts[i].Handling?
    ensures SentLetters(ws[k], a, b) == SentLetters(ws[j], a, b)
    decreases k
  {
    if j < k {
      var i := k - 1;
      NothingSent(ws, acts, j, i, a, b);
      RunKeepsClients(ws, acts, i);
      RunStep(ws, acts, k);
      ReceivingSendsNothing(ws[i], acts[i], a, b);
    }
  }
}
