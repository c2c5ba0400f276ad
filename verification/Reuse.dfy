/** Exactly when a timestamp may be used again, and what can happen otherwise: a second message with
    the timestamp of one that was fetched, and is read first, sets its status back from Read to
    Delivered.
 */
module Reuse {
  import opened Sequences
  import opened Crypto
  import opened Sessions
  import opened Relays
  import opened Clients
  import opened Messaging
  import opened EndToEnd
  import opened Crossing
  import opened Receipts
  import opened Runs
  import opened Accounts
  import opened Statuses
  import opened Settled
  import opened OwnMail

  /** A message from `u` to `v` with this timestamp was fetched, and either was read or will be when
      it is handled.  Between two users that is a letter that arrives; to oneself only the message
      that opens a session is ever decrypted. */
  ghost predicate MayBeRead(ws: seq<World>, acts: seq<Action>, n: nat, u: User, v: User, ts: nat)
    requires IsRun(ws, acts) && n <= |acts|
  {
    if u != v then FetchedArrives(ws, acts, n, u, v, ts)
    else ts in StampsOf(ws[n].log, u, u).read || OpensOwn(Batch(ws[n].sys, u), u, ts)
  }

  ghost predicate FetchedArrives(ws: seq<World>, acts: seq<Action>, n: nat, u: User, v: User, ts: nat)
    requires IsRun(ws, acts) && n <= |acts|
  {
    var fetched := StampsOf(ws[n].log, u, v).fetched;
    exists p :: 0 <= p < |fetched| && fetched[p] == ts && Arrives(ws, acts, n, u, v, p)
  }

  /** A continuation that does not reuse this timestamp of the pair late. */
  ghost predicate ContinuesInTime(ws: seq<World>, acts: seq<Action>, ws': seq<World>, acts': seq<Action>, u: User,
                                  v: User, ts: nat)
  {
    && Extends(ws, acts, ws', acts')
    && forall i :: |acts| <= i < |acts'| ==> InTime(ws'[i], acts'[i], u, v, ts)
  }

  /** From position `n` on, the status of a record only advances. */
  ghost predicate Advances(ws: seq<World>, n: nat, u: User, i: nat) {
    && (forall j :: n <= j < |ws| ==> HasRecord(ws[j], u, i))
    && (forall j, k :: n <= j <= k < |ws| ==> Rank(Record(ws[j], u, i).status) <= Rank(Record(ws[k], u, i).status))
  }

  /** From position `n` on, nothing is sent. */
  predicate OnlyReceipts(acts: seq<Action>, n: nat) {
    forall i :: n <= i < |acts| ==> acts[i].Handling? || acts[i].Polling?
  }

  /** The record of a pair that the receipts for its timestamp find. */
  ghost predicate Watched(w: World, u: User, v: User, i: nat, ts: nat) {
    && HasRecord(w, u, i) && ShowsAt(w, u, i) && IsFirst(w.sys.clients[u].sent, i)
    && IsRecord(Record(w, u, i), v, ts)
  }

  lemma {:induction false} WatchedOn(ws: seq<World>, acts: seq<Action>, ws': seq<World>, acts': seq<Action>, u: User,
                                     v: User, i: nat, ts: nat)
    requires Extends(ws, acts, ws', acts') && Watched(ws[|acts|], u, v, i, ts)
    ensures Watched(ws'[|acts'|], u, v, i, ts)
  {
    assert ws'[|acts|] == ws[|acts|];
    ShowsOn(ws', acts', |acts|, |acts'|, u, i);
  }

  // ── Accounts along a continuation ───────────────────────────────────────

  /** Sorted, and more can only have been read. */
  predicate Holds(acc: Account, acc': Account) {
    Sorted(acc') && acc'.fetched == acc.fetched && acc'.queued == acc.queued && acc'.read >= acc.read
  }

  /** While `v` does not poll and `u` does not reuse the timestamp, an account stays sorted and
      nothing more is fetched or queued. */
  lemma {:induction false} AccountHolds(ws: seq<World>, acts: seq<Action>, j: nat, k: nat, u: User, v: User, ts: nat)
    requires IsRun(ws, acts) && j <= k <= |acts| && Sorted(AccountOf(ws[j], u, v, ts))
    requires forall i :: j <= i < k ==> Waits(acts, i, v)
    ensures Holds(AccountOf(ws[j], u, v, ts), AccountOf(ws[k], u, v, ts))
    decreases k
  {
    if j < k {
      var i := k - 1;
      AccountHolds(ws, acts, j, i, u, v, ts);
      RunAccountStep(ws, acts, i, u, v, ts);
      assert ws[i + 1] == ws[k] && Waits(acts, i, v);
      StepHolds(ws[i], acts[i], ws[k], u, v, ts);
      HoldsOn(AccountOf(ws[j], u, v, ts), AccountOf(ws[i], u, v, ts), AccountOf(ws[k], u, v, ts));
    }
  }

  predicate Waits(acts: seq<Action>, i: nat, v: User) {
    i < |acts| && (acts[i].Handling? || (acts[i].Polling? && acts[i].user != v))
  }

  lemma {:induction false} HoldsOn(acc: Account, acc1: Account, acc2: Account)
    requires Holds(acc, acc1) && Holds(acc1, acc2)
    ensures Holds(acc, acc2)
  {
  }

  lemma {:induction false} StepHolds(w: World, act: Action, w': World, u: User, v: User, ts: nat)
    requires Named(w.sys) && Staged(w, u, v) && w' == Step(w, act) && Sorted(AccountOf(w, u, v, ts))
    requires act.Handling? || (act.Polling? && act.user != v)
    ensures Holds(AccountOf(w, u, v, ts), AccountOf(w', u, v, ts))
  {
    AccountStep(w, act, w', u, v, ts);
    OneMoreReading(AccountOf(w, u, v, ts));
  }

  lemma {:induction false} OneMoreReading(acc: Account)
    requires Sorted(acc)
    ensures Sorted(acc.(read := acc.read + 1, earned := acc.earned + [Reading]))
  {
    assert (Deliveries(acc.fetched) + Readings(acc.read)) + [Reading] ==
           Deliveries(acc.fetched) + (Readings(acc.read) + [Reading]);
  }

  predicate ByOther(acts: seq<Action>, i: nat, v: User) {
    i < |acts| && (acts[i].Handling? || acts[i].Polling?) && acts[i].user != v
  }

  /** Only actions of `v` and late sends change an account. */
  lemma {:induction false} AccountSame(ws: seq<World>, acts: seq<Action>, j: nat, k: nat, u: User, v: User, ts: nat)
    requires IsRun(ws, acts) && j <= k <= |acts|
    requires forall i :: j <= i < k ==> ByOther(acts, i, v)
    ensures AccountOf(ws[k], u, v, ts) == AccountOf(ws[j], u, v, ts)
    decreases k
  {
    if j < k {
      var i := k - 1;
      AccountSame(ws, acts, j, i, u, v, ts);
      RunAccountStep(ws, acts, i, u, v, ts);
      assert ws[i + 1] == ws[k] && ByOther(acts, i, v);
      AccountStep(ws[i], acts[i], ws[k], u, v, ts);
    }
  }

  /** When `u` has caught up with its mail, the record shows the last receipt earned. */
  lemma {:induction false} ShowsLastEarned(ws: seq<World>, acts: seq<Action>, u: User, v: User, i: nat, ts: nat)
    requires IsRun(ws, acts) && u != v && Watched(ws[|acts|], u, v, i, ts)
    requires Batch(ws[|acts|].sys, u) == [] && OnlyOwn(ws[|acts|].sys, u)
    ensures Record(ws[|acts|], u, i).status == Top(AccountOf(ws[|acts|], u, v, ts).earned)
  {
    var w := ws[|acts|];
    ReceiptsConserved(ws, acts, |acts|, u, v, ts);
    DrainedIsEmpty(ReceiptSel(v, ts), w.sys, u);
    assert Applied(w, u, v, ts) + [] == Applied(w, u, v, ts);
  }

  // ── A late reuse can set a status back ──────────────────────────────────

  /** `u` catches up with its mail. */
  lemma {:induction false} CatchUp(ws: seq<World>, acts: seq<Action>, u: User, v: User, i: nat, ts: nat)
    returns (ws': seq<World>, acts': seq<Action>)
    requires IsRun(ws, acts) && u != v && u in ws[0].sys.clients && Watched(ws[|acts|], u, v, i, ts)
    ensures Extends(ws, acts, ws', acts') && OnlyReceipts(acts', |acts|) && Watched(ws'[|acts'|], u, v, i, ts)
    ensures AccountOf(ws'[|acts'|], u, v, ts) == AccountOf(ws[|acts|], u, v, ts)
    ensures Record(ws'[|acts'|], u, i).status == Top(AccountOf(ws[|acts|], u, v, ts).earned)
  {
    ws', acts' := Drain(ws, acts, u);
    assert ws'[|acts|] == ws[|acts|];
    WatchedOn(ws, acts, ws', acts', u, v, i, ts);
    AccountSame(ws', acts', |acts|, |acts'|, u, v, ts);
    ShowsLastEarned(ws', acts', u, v, i, ts);
  }

  /** `v` handles all it has fetched, so a letter that was fetched and arrives is read. */
  lemma {:induction false} ReadAll(ws: seq<World>, acts: seq<Action>, u: User, v: User, ts: nat)
    returns (ws': seq<World>, acts': seq<Action>)
    requires IsRun(ws, acts) && u != v && u in ws[0].sys.clients && v in ws[0].sys.clients
    requires FetchedArrives(ws, acts, |acts|, u, v, ts) && Sorted(AccountOf(ws[|acts|], u, v, ts))
    ensures Extends(ws, acts, ws', acts') && OnlyHandling(acts', |acts|, v)
    ensures var acc, acc' := AccountOf(ws[|acts|], u, v, ts), AccountOf(ws'[|acts'|], u, v, ts);
      Sorted(acc') && acc'.read > 0 && acc'.fetched == acc.fetched && acc'.queued == acc.queued
  {
    ws', acts' := HandleBatch(ws, acts, v);
    assert ws'[|acts|] == ws[|acts|];
    AccountHolds(ws', acts', |acts|, |acts'|, u, v, ts);
    FetchedIsRead(ws, acts, ws', acts', u, v, ts);
    CountPositive(StampsOf(ws'[|acts'|].log, u, v).read, ts);
  }

  lemma {:induction false} FetchedIsRead(ws: seq<World>, acts: seq<Action>, ws': seq<World>, acts': seq<Action>,
                                         u: User, v: User, ts: nat)
    requires Extends(ws, acts, ws', acts') && OnlyHandling(acts', |acts|, v) && Batch(ws'[|acts'|].sys, v) == []
    requires u != v && u in ws[0].sys.clients && v in ws[0].sys.clients
    requires FetchedArrives(ws, acts, |acts|, u, v, ts)
    ensures ts in StampsOf(ws'[|acts'|].log, u, v).read
  {
    var k := |acts'|;
    var fetched, s := StampsOf(ws[|acts|].log, u, v).fetched, StampsOf(ws'[k].log, u, v);
    var p :| 0 <= p < |fetched| && fetched[p] == ts && Arrives(ws, acts, |acts|, u, v, p);
    assert ws'[|acts|] == ws[|acts|];
    SelectionGrows(ws', acts', |acts|, k, FetchedSel(u, v));
    StagesConserved(ws', acts', k, u, v);
    assert s.handled == s.fetched && s.handled[p] == ts;
    LogPrefix(ws', acts', |acts|, k);
    UnheardGrows(ws[|acts|], ws'[k], u, v);
    if OneStarts(ws, acts, |acts|, u, v) {
      StillOneStarts(ws, acts, ws', acts', u, v);
    }
    assert Arrives(ws', acts', k, u, v, p);
    ReadExactly(ws', acts', k, u, v, ts);
  }

  lemma {:induction false} StillOneStarts(ws: seq<World>, acts: seq<Action>, ws': seq<World>, acts': seq<Action>,
                                          u: User, v: User)
    requires Extends(ws, acts, ws', acts') && OneStarts(ws, acts, |acts|, u, v)
    requires forall i :: |acts| <= i < |acts'| ==> acts'[i].Handling? || acts'[i].Polling?
    ensures OneStarts(ws', acts', |acts'|, u, v)
  {
    forall i | 0 <= i < |acts'| && Between(acts'[i], u, v) ensures OneInitiator(ws'[i], acts'[i]) {
      assert i < |acts| && ws'[i] == ws[i] && acts'[i] == acts[i];
    }
  }

  /** `v` polls and fetches what is queued, so that the last receipt earned is a delivery. */
  lemma {:induction false} FetchRest(ws: seq<World>, acts: seq<Action>, u: User, v: User, ts: nat)
    returns (ws': seq<World>, acts': seq<Action>)
    requires IsRun(ws, acts) && v in ws[0].sys.clients
    requires AccountOf(ws[|acts|], u, v, ts).queued > AccountOf(ws[|acts|], u, v, ts).fetched
    ensures Extends(ws, acts, ws', acts') && OnlyReceipts(acts', |acts|)
    ensures Top(AccountOf(ws'[|acts'|], u, v, ts).earned) == Delivered
  {
    var w := ws[|acts|];
    RunKeepsClients(ws, acts, |acts|);
    StagesConserved(ws, acts, |acts|, u, v);
    ws', acts' := Extend(ws, acts, Polling(v, 0));
    var w' := ws'[|acts'|];
    assert w' == Step(w, Polling(v, 0));
    PollAccount(w, v, 0, w', u, v, ts);
    LastIsDelivery(AccountOf(w, u, v, ts).earned, AccountOf(w, u, v, ts).queued - AccountOf(w, u, v, ts).fetched);
  }

  lemma {:induction false} LastIsDelivery(earned: seq<ReceiptKind>, n: nat)
    requires n > 0
    ensures Top(earned + Deliveries(n)) == Delivered
  {
    DeliveriesAre(n);
  }

  /** The first part: what was fetched is read, and `u` learns of it. */
  lemma {:induction false} ToRead(ws: seq<World>, acts: seq<Action>, u: User, v: User, i: nat, ts: nat)
    returns (ws': seq<World>, acts': seq<Action>)
    requires IsRun(ws, acts) && u != v && u in ws[0].sys.clients && v in ws[0].sys.clients
    requires FetchedArrives(ws, acts, |acts|, u, v, ts) && Watched(ws[|acts|], u, v, i, ts)
    requires var acc := AccountOf(ws[|acts|], u, v, ts); Sorted(acc) && acc.queued > acc.fetched > 0
    ensures Extends(ws, acts, ws', acts') && OnlyReceipts(acts', |acts|)
    ensures Watched(ws'[|acts'|], u, v, i, ts) && Record(ws'[|acts'|], u, i).status == Read
    ensures AccountOf(ws'[|acts'|], u, v, ts).queued > AccountOf(ws'[|acts'|], u, v, ts).fetched
  {
    var ws1, acts1 := ReadAll(ws, acts, u, v, ts);
    WatchedOn(ws, acts, ws1, acts1, u, v, i, ts);
    LastIsReading(AccountOf(ws1[|acts1|], u, v, ts));
    ws', acts' := CatchUp(ws1, acts1, u, v, i, ts);
    ReceiptsOnly(acts, acts1, acts');
  }

  /** The second part: `v` fetches the second message, and `u` learns of that. */
  lemma {:induction false} ToDelivered(ws: seq<World>, acts: seq<Action>, u: User, v: User, i: nat, ts: nat)
    returns (ws': seq<World>, acts': seq<Action>)
    requires IsRun(ws, acts) && u != v && u in ws[0].sys.clients && v in ws[0].sys.clients
    requires Watched(ws[|acts|], u, v, i, ts)
    requires AccountOf(ws[|acts|], u, v, ts).queued > AccountOf(ws[|acts|], u, v, ts).fetched
    ensures Extends(ws, acts, ws', acts') && OnlyReceipts(acts', |acts|)
    ensures HasRecord(ws'[|acts'|], u, i) && Record(ws'[|acts'|], u, i).status == Delivered
  {
    var ws1, acts1 := FetchRest(ws, acts, u, v, ts);
    WatchedOn(ws, acts, ws1, acts1, u, v, i, ts);
    ws', acts' := CatchUp(ws1, acts1, u, v, i, ts);
    ReceiptsOnly(acts, acts1, acts');
  }

  lemma {:induction false} ReceiptsOnly(acts: seq<Action>, acts1: seq<Action>, acts2: seq<Action>)
    requires acts <= acts1 <= acts2 && OnlyReceipts(acts1, |acts|) && OnlyReceipts(acts2, |acts1|)
    ensures OnlyReceipts(acts2, |acts|)
  {
    forall i | |acts| <= i < |acts2| ensures acts2[i].Handling? || acts2[i].Polling? {
      if i < |acts1| {
        assert acts2[i] == acts1[i];
      }
    }
  }

  lemma {:induction false} ReceivesInTime(ws: seq<World>, acts: seq<Action>, ws': seq<World>, acts': seq<Action>,
                                          u: User, v: User, ts: nat)
    requires Extends(ws, acts, ws', acts') && OnlyReceipts(acts', |acts|)
    ensures ContinuesInTime(ws, acts, ws', acts', u, v, ts)
  {
  }

  /** From a world in which a fetched timestamp is queued again, a run can go on to show a message
      first as Read and then as Delivered. */
  lemma {:induction false} SetBack(ws: seq<World>, acts: seq<Action>, u: User, v: User, i: nat, ts: nat)
    returns (ws': seq<World>, acts': seq<Action>, j: nat)
    requires IsRun(ws, acts) && u != v && u in ws[0].sys.clients && v in ws[0].sys.clients
    requires FetchedArrives(ws, acts, |acts|, u, v, ts) && Watched(ws[|acts|], u, v, i, ts)
    requires var acc := AccountOf(ws[|acts|], u, v, ts); Sorted(acc) && acc.queued > acc.fetched > 0
    ensures ContinuesInTime(ws, acts, ws', acts', u, v, ts)
    ensures |acts| <= j <= |acts'| && HasRecord(ws'[j], u, i) && HasRecord(ws'[|acts'|], u, i)
    ensures Record(ws'[j], u, i).status == Read && Record(ws'[|acts'|], u, i).status == Delivered
  {
    var ws1, acts1 := ToRead(ws, acts, u, v, i, ts);
    ws', acts' := ToDelivered(ws1, acts1, u, v, i, ts);
    j := |acts1|;
    assert ws'[j] == ws1[|acts1|];
    ReceiptsOnly(acts, acts1, acts');
    ReceivesInTime(ws, acts, ws', acts', u, v, ts);
  }

  lemma {:induction false} LastIsReading(acc: Account)
    requires Sorted(acc) && acc.read > 0
    ensures Top(acc.earned) == Read
  {
    DeliveriesAre(acc.fetched);
    ReadingsAre(acc.read);
  }

  // ── Receipts a client has in its batch ──────────────────────────────────

  /** Receipts applied and those in the batch: handling moves one to the other. */
  function InHand(w: World, u: User, v: User, ts: nat): seq<ReceiptKind> {
    Applied(w, u, v, ts) + Collect(ReceiptSel(v, ts), Batch(w.sys, u))
  }

  lemma {:induction false} HandlingMoves(w: World, u: User, now: nat, w': World, v: User, ts: nat)
    requires Named(w.sys) && u in w.sys.clients && w' == Step(w, Handling(u, now))
    ensures InHand(w', u, v, ts) == InHand(w, u, v, ts)
  {
    if Batch(w.sys, u) != [] {
      var e, rest := Batch(w.sys, u)[0], Batch(w.sys, u)[1..];
      AppliedAfterHandle(w, u, now, u, v, ts);
      assert Batch(w'.sys, u) == rest && Batch(w.sys, u) == [e] + rest;
      CollectCons(ReceiptSel(v, ts), e, rest);
      MoveOne(Applied(w, u, v, ts), ReceiptSel(v, ts)(e), Collect(ReceiptSel(v, ts), rest));
      assert Applied(w', u, v, ts) == Applied(w, u, v, ts) + ReceiptSel(v, ts)(e);
    }
  }

  lemma {:induction false} MoveOne(a: seq<ReceiptKind>, b: seq<ReceiptKind>, c: seq<ReceiptKind>)
    ensures (a + b) + c == a + (b + c)
  {
  }

  lemma {:induction false} BatchApplies(ws: seq<World>, acts: seq<Action>, j: nat, k: nat, u: User, v: User, ts: nat)
    requires IsRun(ws, acts) && j <= k <= |acts| && u in ws[0].sys.clients
    requires forall i :: j <= i < k ==> acts[i].Handling? && acts[i].user == u
    ensures InHand(ws[k], u, v, ts) == InHand(ws[j], u, v, ts)
    decreases k
  {
    if j < k {
      var i := k - 1;
      BatchApplies(ws, acts, j, i, u, v, ts);
      RunKeepsClients(ws, acts, i);
      RunStep(ws, acts, k);
      HandlingMoves(ws[i], u, acts[i].now, ws[k], v, ts);
    }
  }

  lemma {:induction false} PollingTakes(ws: seq<World>, acts: seq<Action>, u: User, now: nat, w': World, v: User,
                                        ts: nat)
    requires IsRun(ws, acts) && u in ws[0].sys.clients && Batch(ws[|acts|].sys, u) == []
    requires w' == Step(ws[|acts|], Polling(u, now))
    ensures InHand(w', u, v, ts) == Earned(ws[|acts|], u, v, ts)
  {
    var w := ws[|acts|];
    RunKeepsClients(ws, acts, |acts|);
    ReceiptsConserved(ws, acts, |acts|, u, v, ts);
    AppliedAfter(w, Polling(u, now), u, v, ts);
    BatchAfterPoll(w, u, now, w');
    EmptyBatch(w.sys, u, v, ts);
  }

  lemma {:induction false} BatchAfterPoll(w: World, u: User, now: nat, w': World)
    requires u in w.sys.clients && Batch(w.sys, u) == [] && w' == Step(w, Polling(u, now))
    ensures Batch(w'.sys, u) == Pending(w.sys.relay, u)
  {
    assert [] + Pending(w.sys.relay, u) == Pending(w.sys.relay, u);
  }

  lemma {:induction false} EmptyBatch(sys: System, u: User, v: User, ts: nat)
    requires Batch(sys, u) == []
    ensures UnderWay(sys, u, v, ts) == Collect(ReceiptSel(v, ts), Pending(sys.relay, u))
  {
    var pending := Collect(ReceiptSel(v, ts), Pending(sys.relay, u));
    assert [] + pending == pending;
  }

  /** A client with nothing in its batch polls and handles everything: all receipts earned before
      have been applied, and no later ones. */
  lemma {:induction false} ApplyAll(ws: seq<World>, acts: seq<Action>, u: User, v: User, ts: nat)
    returns (ws': seq<World>, acts': seq<Action>)
    requires IsRun(ws, acts) && u in ws[0].sys.clients && Batch(ws[|acts|].sys, u) == []
    ensures Extends(ws, acts, ws', acts') && OnlyReceipts(acts', |acts|) && |acts| < |acts'|
    ensures acts'[|acts|] == Polling(u, 0)
    ensures Batch(ws'[|acts'|].sys, u) == [] && Applied(ws'[|acts'|], u, v, ts) == Earned(ws[|acts|], u, v, ts)
  {
    var ws1, acts1 := Extend(ws, acts, Polling(u, 0));
    PollingTakes(ws, acts, u, 0, ws1[|acts1|], v, ts);
    ws', acts' := HandleBatch(ws1, acts1, u);
    assert ws'[|acts1|] == ws1[|acts1|];
    BatchApplies(ws', acts', |acts1|, |acts'|, u, v, ts);
    assert Applied(ws'[|acts'|], u, v, ts) + [] == Applied(ws'[|acts'|], u, v, ts);
    assert acts'[|acts|] == acts1[|acts|];
  }

  /** Receipts are applied one at a time. */
  lemma {:induction false} AppliedOneByOne(ws: seq<World>, acts: seq<Action>, j: nat, k: nat, u: User, v: User, ts: nat,
                                           n: nat) returns (t: nat)
    requires IsRun(ws, acts) && j <= k <= |acts|
    requires |Applied(ws[j], u, v, ts)| <= n <= |Applied(ws[k], u, v, ts)|
    ensures j <= t <= k && |Applied(ws[t], u, v, ts)| == n
    decreases k
  {
    if |Applied(ws[k], u, v, ts)| == n {
      t := k;
    } else {
      var i := k - 1;
      RunKeepsClients(ws, acts, i);
      RunStep(ws, acts, k);
      AppliedAfter(ws[i], acts[i], u, v, ts);
      t := AppliedOneByOne(ws, acts, j, i, u, v, ts, n);
    }
  }

  /** The same for a message to oneself, first part: what was fetched is read and shown, and the
      next receipt earned is a delivery. */
  lemma {:induction false} OwnToRead(ws: seq<World>, acts: seq<Action>, u: User, i: nat, ts: nat)
    returns (ws': seq<World>, acts': seq<Action>)
    requires IsRun(ws, acts) && u in ws[0].sys.clients && Watched(ws[|acts|], u, u, i, ts)
    requires AccountOf(ws[|acts|], u, u, ts).read > 0 || OpensOwn(Batch(ws[|acts|].sys, u), u, ts)
    requires var acc := AccountOf(ws[|acts|], u, u, ts); Sorted(acc) && acc.queued > acc.fetched > 0
    ensures Extends(ws, acts, ws', acts') && OnlyReceipts(acts', |acts|) && Batch(ws'[|acts'|].sys, u) == []
    ensures Watched(ws'[|acts'|], u, u, i, ts) && Record(ws'[|acts'|], u, i).status == Read
    ensures DeliveryNext(ws'[|acts'|], u, ts)
  {
    var ws1, acts1 := ReadOwn(ws, acts, u, ts);
    assert ws1[|acts|] == ws[|acts|];
    AccountHolds(ws1, acts1, |acts|, |acts1|, u, u, ts);
    LastIsReading(AccountOf(ws1[|acts1|], u, u, ts));
    ws', acts' := ApplyAll(ws1, acts1, u, u, ts);
    FetchedLater(ws1, acts1, ws', acts', u, ts);
    ReceiptsOnly(acts, acts1, acts');
    WatchedOn(ws, acts, ws', acts', u, u, i, ts);
  }

  /** The first receipt not applied yet is a delivery. */
  predicate DeliveryNext(w: World, u: User, ts: nat) {
    var n := |Applied(w, u, u, ts)|;
    n < |Earned(w, u, u, ts)| && Earned(w, u, u, ts)[n] == Delivery
  }

  lemma {:induction false} OwnToDelivered(ws: seq<World>, acts: seq<Action>, u: User, i: nat, ts: nat)
    returns (ws': seq<World>, acts': seq<Action>, k: nat)
    requires IsRun(ws, acts) && u in ws[0].sys.clients && Watched(ws[|acts|], u, u, i, ts)
    requires Batch(ws[|acts|].sys, u) == [] && DeliveryNext(ws[|acts|], u, ts)
    ensures Extends(ws, acts, ws', acts') && OnlyReceipts(acts', |acts|) && |acts| <= k <= |acts'|
    ensures HasRecord(ws'[k], u, i) && Record(ws'[k], u, i).status == Delivered
  {
    var m, n := |acts|, |Applied(ws[|acts|], u, u, ts)|;
    ws', acts' := ApplyAll(ws, acts, u, u, ts);
    assert ws'[m] == ws[m];
    k := AppliedOneByOne(ws', acts', m, |acts'|, u, u, ts, n + 1);
    ShowsOn(ws', acts', m, k, u, i);
    SelectionGrows(ws', acts', k, |acts'|, AckSel(u, u, ts));
    assert Applied(ws'[k], u, u, ts)[n] == Delivery;
  }

  lemma {:induction false} SetBackOwn(ws: seq<World>, acts: seq<Action>, u: User, i: nat, ts: nat)
    returns (ws': seq<World>, acts': seq<Action>, j: nat, k: nat)
    requires IsRun(ws, acts) && u in ws[0].sys.clients && Watched(ws[|acts|], u, u, i, ts)
    requires AccountOf(ws[|acts|], u, u, ts).read > 0 || OpensOwn(Batch(ws[|acts|].sys, u), u, ts)
    requires var acc := AccountOf(ws[|acts|], u, u, ts); Sorted(acc) && acc.queued > acc.fetched > 0
    ensures ContinuesInTime(ws, acts, ws', acts', u, u, ts)
    ensures |acts| <= j <= k <= |acts'| && HasRecord(ws'[j], u, i) && HasRecord(ws'[k], u, i)
    ensures Record(ws'[j], u, i).status == Read && Record(ws'[k], u, i).status == Delivered
  {
    var ws1, acts1 := OwnToRead(ws, acts, u, i, ts);
    ws', acts', k := OwnToDelivered(ws1, acts1, u, i, ts);
    j := |acts1|;
    assert ws'[j] == ws1[|acts1|];
    ReceiptsOnly(acts, acts1, acts');
    ReceivesInTime(ws, acts, ws', acts', u, u, ts);
  }

  /** The poll that follows earns a delivery. */
  lemma {:induction false} FetchedLater(ws: seq<World>, acts: seq<Action>, ws': seq<World>, acts': seq<Action>, u: User,
                                        ts: nat)
    requires Extends(ws, acts, ws', acts') && |acts| < |acts'| && acts'[|acts|] == Polling(u, 0)
    requires u in ws[0].sys.clients
    requires AccountOf(ws[|acts|], u, u, ts).queued > AccountOf(ws[|acts|], u, u, ts).fetched
    ensures var earned, earned' := Earned(ws[|acts|], u, u, ts), Earned(ws'[|acts'|], u, u, ts);
      |earned'| > |earned| && earned'[|earned|] == Delivery
  {
    var n := |acts|;
    var w, acc := ws[n], AccountOf(ws[n], u, u, ts);
    assert ws'[n] == w;
    RunKeepsClients(ws', acts', n);
    StagesConserved(ws', acts', n, u, u);
    assert ws'[n + 1] == Step(ws'[n], acts'[n]);
    PollAccount(w, u, 0, ws'[n + 1], u, u, ts);
    DeliveriesAre(acc.queued - acc.fetched);
    SelectionGrows(ws', acts', n + 1, |acts'|, EarnSel(u, u, ts));
  }

  // ── No reading before a delivery ────────────────────────────────────────

  /** If an account is sorted all along, the status of its record only advances. */
  lemma {:induction false} SortedRunAdvances(ws: seq<World>, acts: seq<Action>, m: nat, u: User, v: User, i: nat,
                                             ts: nat)
    requires IsRun(ws, acts) && m <= |acts| && Watched(ws[m], u, v, i, ts)
    requires forall k :: m <= k <= |acts| ==> Sorted(AccountOf(ws[k], u, v, ts))
    ensures Advances(ws, m, u, i)
  {
    forall j | m <= j < |ws| ensures HasRecord(ws[j], u, i) {
      ShowsOn(ws, acts, m, j, u, i);
    }
    forall j, k | m <= j <= k < |ws|
      ensures Rank(Record(ws[j], u, i).status) <= Rank(Record(ws[k], u, i).status)
    {
      SortedPairAdvances(ws, acts, m, j, k, u, v, i, ts);
    }
  }

  lemma {:induction false} SortedPairAdvances(ws: seq<World>, acts: seq<Action>, m: nat, j: nat, k: nat, u: User,
                                              v: User, i: nat, ts: nat)
    requires IsRun(ws, acts) && m <= j <= k <= |acts| && Watched(ws[m], u, v, i, ts)
    requires Sorted(AccountOf(ws[k], u, v, ts))
    ensures HasRecord(ws[j], u, i) && HasRecord(ws[k], u, i)
    ensures Rank(Record(ws[j], u, i).status) <= Rank(Record(ws[k], u, i).status)
  {
    ShowsOn(ws, acts, m, j, u, i);
    ShowsOn(ws, acts, j, k, u, i);
    ReceiptsConserved(ws, acts, k, u, v, ts);
    SelectionGrows(ws, acts, j, k, AckSel(u, v, ts));
    var acc := AccountOf(ws[k], u, v, ts);
    SortedAdvances(acc.fetched, acc.read, Applied(ws[j], u, v, ts), Applied(ws[k], u, v, ts));
  }

  lemma {:induction false} DeliveriesConcat(m: nat, n: nat)
    ensures Deliveries(m) + Deliveries(n) == Deliveries(m + n)
  {
    if m > 0 {
      DeliveriesConcat(m - 1, n);
      assert ([Delivery] + Deliveries(m - 1)) + Deliveries(n) == [Delivery] + (Deliveries(m - 1) + Deliveries(n));
    } else {
      assert [] + Deliveries(n) == Deliveries(n);
    }
  }

  /** As long as nothing is read, an account stays sorted. */
  lemma {:induction false} UnreadSorted(acc: Account, acc': Account)
    requires Sorted(acc) && acc.read == 0 && acc.queued >= acc.fetched
    requires || acc' == acc || acc' == acc.(queued := acc.queued + 1)
             || acc' == acc.(fetched := acc.queued, earned := acc.earned + Deliveries(acc.queued - acc.fetched))
    ensures Sorted(acc')
  {
    DeliveriesConcat(acc.fetched, acc.queued - acc.fetched);
    assert Deliveries(acc.fetched) + [] == Deliveries(acc.fetched);
    assert Deliveries(acc.queued) + [] == Deliveries(acc.queued);
  }

  predicate Unread(ws: seq<World>, i: nat, u: User, v: User, ts: nat) {
    i < |ws| && AccountOf(ws[i], u, v, ts).read == 0
  }

  lemma {:induction false} UnreadRunSorted(ws: seq<World>, acts: seq<Action>, m: nat, k: nat, u: User, v: User, ts: nat)
    requires IsRun(ws, acts) && m <= k <= |acts| && Sorted(AccountOf(ws[m], u, v, ts))
    requires forall i :: m <= i <= k ==> Unread(ws, i, u, v, ts)
    ensures Sorted(AccountOf(ws[k], u, v, ts))
    decreases k
  {
    if m < k {
      var i := k - 1;
      UnreadRunSorted(ws, acts, m, i, u, v, ts);
      RunAccountStep(ws, acts, i, u, v, ts);
      assert ws[i + 1] == ws[k] && Unread(ws, i, u, v, ts) && Unread(ws, k, u, v, ts);
      UnreadStep(ws[i], acts[i], ws[k], u, v, ts);
    }
  }

  lemma {:induction false} UnreadStep(w: World, act: Action, w': World, u: User, v: User, ts: nat)
    requires Named(w.sys) && Staged(w, u, v) && w' == Step(w, act) && Sorted(AccountOf(w, u, v, ts))
    requires AccountOf(w, u, v, ts).read == 0 && AccountOf(w', u, v, ts).read == 0
    ensures Sorted(AccountOf(w', u, v, ts))
  {
    AccountStep(w, act, w', u, v, ts);
    UnreadSorted(AccountOf(w, u, v, ts), AccountOf(w', u, v, ts));
  }

  /** If no letter that was fetched arrives, none with that timestamp ever will: both users had
      started a session and the sender had heard. */
  lemma {:induction false} NeverRead(ws: seq<World>, acts: seq<Action>, n: nat, k: nat, u: User, v: User, ts: nat)
    requires IsRun(ws, acts) && n <= k <= |acts| && u != v && u in ws[0].sys.clients && v in ws[0].sys.clients
    requires ts in StampsOf(ws[n].log, u, v).fetched && !FetchedArrives(ws, acts, n, u, v, ts)
    ensures AccountOf(ws[k], u, v, ts).read == 0
  {
    var s, s' := StampsOf(ws[n].log, u, v), StampsOf(ws[k].log, u, v);
    CountPositive(s'.read, ts);
    if ts in s'.read {
      ReadExactly(ws, acts, k, u, v, ts);
      var q :| 0 <= q < |s'.handled| && s'.handled[q] == ts && Arrives(ws, acts, k, u, v, q);
      var p :| 0 <= p < |s.fetched| && s.fetched[p] == ts;
      assert !Arrives(ws, acts, n, u, v, p);
      assert !OneStarts(ws, acts, k, u, v);
      LostStays(ws, acts, n, k, u, v, p);
      SameStage(ws, acts, n, k, u, v, q);
      assert s.fetched[q] == ts && Arrives(ws, acts, n, u, v, q);
    }
  }

  lemma {:induction false} LostStays(ws: seq<World>, acts: seq<Action>, n: nat, k: nat, u: User, v: User, p: nat)
    requires IsRun(ws, acts) && n <= k <= |acts| && p < |StampsOf(ws[n].log, u, v).fetched|
    requires p >= SentUnheard(ws[n], u, v)
    ensures SentUnheard(ws[k], u, v) == SentUnheard(ws[n], u, v) < |StampsOf(ws[n].log, u, v).fetched|
  {
    StagesConserved(ws, acts, n, u, v);
    StampsOfLetters(ws[n].log, u, v);
    LogPrefix(ws, acts, n, k);
    UnheardGrows(ws[n], ws[k], u, v);
  }

  /** What was fetched once is handled later at the same position. */
  lemma {:induction false} SameStage(ws: seq<World>, acts: seq<Action>, n: nat, k: nat, u: User, v: User, q: nat)
    requires IsRun(ws, acts) && n <= k <= |acts|
    requires q < |StampsOf(ws[n].log, u, v).fetched| && q < |StampsOf(ws[k].log, u, v).handled|
    ensures StampsOf(ws[n].log, u, v).fetched[q] == StampsOf(ws[k].log, u, v).handled[q]
  {
    var s, s' := StampsOf(ws[n].log, u, v), StampsOf(ws[k].log, u, v);
    StagesConserved(ws, acts, n, u, v);
    StagesConserved(ws, acts, k, u, v);
    SelectionGrows(ws, acts, n, k, QueuedSel(u, v));
    assert s.queued[q] == s.fetched[q] && s'.queued[q] == s'.handled[q];
  }

  /** To oneself: until the next poll nothing with the timestamp is read, and after it all of them
      are fetched. */
  ghost predicate OwnSafe(w: World, u: User, ts: nat) {
    var acc := AccountOf(w, u, u, ts);
    && Sorted(acc) && acc.fetched > 0
    && (acc.queued == acc.fetched || (acc.read == 0 && !OpensOwn(Batch(w.sys, u), u, ts)))
  }

  lemma {:induction false} OwnSafeHandling(w: World, now: nat, w': World, u: User, pre: KeyPair, ts: nat)
    requires Named(w.sys) && OwnFits(w, u, pre) && w' == Step(w, Handling(u, now)) && OwnSafe(w, u, ts)
    ensures OwnSafe(w', u, ts)
  {
    if Batch(w.sys, u) != [] {
      OwnIsRead(w, u, now, w', pre, ts);
      OwnLeft(Batch(w.sys, u), u, ts);
      OneMoreReading(AccountOf(w, u, u, ts));
    }
  }

  lemma {:induction false} OwnSafePolling(w: World, now: nat, w': World, u: User, ts: nat)
    requires u in w.sys.clients && Staged(w, u, u) && w' == Step(w, Polling(u, now)) && OwnSafe(w, u, ts)
    ensures OwnSafe(w', u, ts)
  {
    var acc := AccountOf(w, u, u, ts);
    PollAccount(w, u, now, w', u, u, ts);
    assert acc.earned + Deliveries(0) == acc.earned;
    if acc.read == 0 {
      UnreadSorted(acc, AccountOf(w', u, u, ts));
    }
  }

  lemma {:induction false} OwnSafeStep(w: World, act: Action, w': World, u: User, pre: KeyPair, ts: nat)
    requires Named(w.sys) && Staged(w, u, u) && OwnFits(w, u, pre) && w' == Step(w, act)
    requires OwnSafe(w, u, ts) && InTime(w, act, u, u, ts)
    ensures OwnSafe(w', u, ts)
  {
    if act.Handling? && act.user == u {
      OwnSafeHandling(w, act.now, w', u, pre, ts);
    } else if act.Polling? && act.user == u {
      OwnSafePolling(w, act.now, w', u, ts);
    } else {
      AccountStep(w, act, w', u, u, ts);
      CountPositive(StampsOf(w.log, u, u).fetched, ts);
      OthersBatch(w, act, w', u);
    }
  }

  lemma {:induction false} OthersBatch(w: World, act: Action, w': World, u: User)
    requires Named(w.sys) && w' == Step(w, act)
    requires !(act.Handling? && act.user == u) && !(act.Polling? && act.user == u)
    ensures Batch(w'.sys, u) == Batch(w.sys, u)
  {
    if act.Chat? || act.Pushing? {
      TransitAfterSend(ChatSel(u), w, act, u);
    }
  }

  lemma {:induction false} OwnSafeRun(ws: seq<World>, acts: seq<Action>, m: nat, k: nat, u: User, ts: nat)
    requires IsRun(ws, acts) && m <= k <= |acts| && u in ws[0].sys.clients && OwnSafe(ws[m], u, ts)
    requires forall i :: m <= i < k ==> InTime(ws[i], acts[i], u, u, ts)
    ensures OwnSafe(ws[k], u, ts)
    decreases k
  {
    if m < k {
      var i := k - 1;
      OwnSafeRun(ws, acts, m, i, u, ts);
      RunAccountStep(ws, acts, i, u, u, ts);
      AlwaysFits(ws, acts, i, u);
      assert ws[i + 1] == ws[k];
      OwnSafeStep(ws[i], acts[i], ws[k], u, ws[0].sys.clients[u].preKey, ts);
    }
  }

  // ── Exactly ─────────────────────────────────────────────────────────────

  /** The situation: a message of `u` to `v` is recorded, its timestamp was never reused late, and
      as the latest action `u` sends to `v` with that timestamp again. */
  ghost predicate Reused(ws: seq<World>, acts: seq<Action>, u: User, v: User, i: nat, ts: nat) {
    && IsRun(ws, acts) && acts != []
    && HasRecord(ws[|acts| - 1], u, i) && IsFirst(ws[|acts| - 1].sys.clients[u].sent, i)
    && IsRecord(Record(ws[|acts| - 1], u, i), v, ts)
    && Sends(acts[|acts| - 1], u, v, ts) && NoLateReuse(ws, acts, |acts| - 1, u, v, ts)
  }

  lemma {:induction false} ReusedWatched(ws: seq<World>, acts: seq<Action>, u: User, v: User, i: nat, ts: nat)
    requires Reused(ws, acts, u, v, i, ts)
    ensures Watched(ws[|acts|], u, v, i, ts) && u in ws[0].sys.clients
  {
    var n := |acts| - 1;
    RunKeepsClients(ws, acts, n);
    AlwaysShows(ws, acts, n, u, i);
    ShowsOn(ws, acts, n, |acts|, u, i);
  }

  /** What the second send does. */
  lemma {:induction false} ReusedAccount(ws: seq<World>, acts: seq<Action>, u: User, v: User, i: nat, ts: nat)
    requires Reused(ws, acts, u, v, i, ts)
    ensures var n := |acts| - 1;
      var acc, acc' := AccountOf(ws[n], u, v, ts), AccountOf(ws[|acts|], u, v, ts);
      && Sorted(acc) && AllFetched(acc) && acc.queued >= acc.fetched >= acc.read
      && acc' == acc.(queued := acc'.queued) && Batch(ws[|acts|].sys, v) == Batch(ws[n].sys, v)
      && StampsOf(ws[|acts|].log, u, v).fetched == StampsOf(ws[n].log, u, v).fetched
      && (acc.fetched > 0 <==> ts in StampsOf(ws[n].log, u, v).fetched)
      && (acc.fetched > 0 ==> v in ws[0].sys.clients && acc'.queued == acc.queued + 1)
  {
    var n := |acts| - 1;
    RunStep(ws, acts, |acts|);
    RunKeepsClients(ws, acts, n);
    ReusedWatched(ws, acts, u, v, i, ts);
    EarnedSorted(ws, acts, n, u, v, ts);
    StagesConserved(ws, acts, n, u, v);
    StageCounts(ws[n], u, v, ts);
    SendAccount(ws[n], acts[n], ws[|acts|], u, v, ts);
    TransitAfterSend(StampSel(u), ws[n], acts[n], v);
    CountPositive(StampsOf(ws[n].log, u, v).fetched, ts);
    CollectSnoc(FetchedSel(u, v), ws[n].log, Queued(acts[n].user, acts[n].to, acts[n].text, acts[n].timestamp));
    if v !in ws[0].sys.clients {
      AbsentFetchNothing(ws, acts, n, u, v, ts);
    }
  }

  /** Between two users the second send starts no session, so what arrives still does. */
  lemma {:induction false} StillArrives(ws: seq<World>, acts: seq<Action>, u: User, v: User, i: nat, ts: nat)
    requires Reused(ws, acts, u, v, i, ts) && u != v && u in ws[0].sys.clients && v in ws[0].sys.clients
    requires FetchedArrives(ws, acts, |acts| - 1, u, v, ts)
    ensures FetchedArrives(ws, acts, |acts|, u, v, ts)
  {
    var n := |acts| - 1;
    ReusedAccount(ws, acts, u, v, i, ts);
    var fetched := StampsOf(ws[n].log, u, v).fetched;
    var p :| 0 <= p < |fetched| && fetched[p] == ts && Arrives(ws, acts, n, u, v, p);
    LogPrefix(ws, acts, n, |acts|);
    UnheardGrows(ws[n], ws[|acts|], u, v);
    if OneStarts(ws, acts, n, u, v) {
      NoNewSession(ws, acts, u, v, i, ts);
    }
    assert Arrives(ws, acts, |acts|, u, v, p);
  }

  lemma {:induction false} NoNewSession(ws: seq<World>, acts: seq<Action>, u: User, v: User, i: nat, ts: nat)
    requires Reused(ws, acts, u, v, i, ts) && u != v && u in ws[0].sys.clients && v in ws[0].sys.clients
    requires OneStarts(ws, acts, |acts| - 1, u, v)
    ensures OneStarts(ws, acts, |acts|, u, v)
  {
    var n := |acts| - 1;
    EndToEndDelivery(ws, acts, n, u, v);
    AlwaysShows(ws, acts, n, u, i);
    assert ViewOf(ws[n], u, v).sentAB != [] && RatchetOf(ws[n].sys, u, v).Some?;
    assert OneInitiator(ws[n], acts[n]);
  }

  /** If nothing fetched may be read, the account is sorted in every continuation. */
  lemma {:induction false} StaysSorted(ws: seq<World>, acts: seq<Action>, ws': seq<World>, acts': seq<Action>, k: nat,
                                       u: User, v: User, i: nat, ts: nat)
    requires Reused(ws, acts, u, v, i, ts) && ContinuesInTime(ws, acts, ws', acts', u, v, ts)
    requires !MayBeRead(ws, acts, |acts| - 1, u, v, ts) && |acts| <= k <= |acts'|
    ensures Sorted(AccountOf(ws'[k], u, v, ts))
  {
    var n := |acts| - 1;
    ReusedAccount(ws, acts, u, v, i, ts);
    ReusedWatched(ws, acts, u, v, i, ts);
    assert ws'[|acts|] == ws[|acts|] && ws'[n] == ws[n];
    if ts !in StampsOf(ws[n].log, u, v).fetched {
      InTimeStill(ws, acts, ws', acts', u, v, i, ts);
      EarnedSorted(ws', acts', k, u, v, ts);
    } else if u != v {
      forall j | |acts| <= j <= k ensures Unread(ws', j, u, v, ts) {
        ArrivesSame(ws, acts, ws', acts', n, u, v, ts);
        NeverRead(ws', acts', n, j, u, v, ts);
      }
      UnreadRunSorted(ws', acts', |acts|, k, u, v, ts);
    } else {
      CountPositive(StampsOf(ws[n].log, u, u).read, ts);
      OwnSafeRun(ws', acts', |acts|, k, u, ts);
    }
  }

  lemma {:induction false} InTimeStill(ws: seq<World>, acts: seq<Action>, ws': seq<World>, acts': seq<Action>, u: User,
                                       v: User, i: nat, ts: nat)
    requires Reused(ws, acts, u, v, i, ts) && ContinuesInTime(ws, acts, ws', acts', u, v, ts)
    requires ts !in StampsOf(ws[|acts| - 1].log, u, v).fetched
    ensures NoLateReuse(ws', acts', |acts'|, u, v, ts)
  {
    forall p | 0 <= p < |acts'| ensures InTime(ws'[p], acts'[p], u, v, ts) {
      if p < |acts| {
        assert ws'[p] == ws[p] && acts'[p] == acts[p];
      }
    }
  }

  lemma {:induction false} ArrivesSame(ws: seq<World>, acts: seq<Action>, ws': seq<World>, acts': seq<Action>, n: nat,
                                       u: User, v: User, ts: nat)
    requires Extends(ws, acts, ws', acts') && n <= |acts|
    ensures FetchedArrives(ws', acts', n, u, v, ts) <==> FetchedArrives(ws, acts, n, u, v, ts)
  {
    assert ws'[n] == ws[n];
    assert OneStarts(ws', acts', n, u, v) <==> OneStarts(ws, acts, n, u, v) by {
      assert forall i :: 0 <= i < n ==> ws'[i] == ws[i] && acts'[i] == acts[i];
    }
  }

  /** A recorded message's timestamp, never reused late so far, is used again.  From then on the
      message's status only advances in all continuations that do not reuse the timestamp late, if
      and only if, when the second message was sent, no message of the pair with that timestamp had
      been fetched that was read or will be when it is handled.  This holds of any two users,
      whoever started sessions, and of messages to oneself. */
  lemma {:induction false} ReuseExactly(ws: seq<World>, acts: seq<Action>, u: User, v: User, i: nat, ts: nat)
    requires Reused(ws, acts, u, v, i, ts)
    ensures !MayBeRead(ws, acts, |acts| - 1, u, v, ts) <==>
            forall ws', acts' :: ContinuesInTime(ws, acts, ws', acts', u, v, ts) ==> Advances(ws', |acts|, u, i)
  {
    ReusedWatched(ws, acts, u, v, i, ts);
    if MayBeRead(ws, acts, |acts| - 1, u, v, ts) {
      var ws', acts' := Regresses(ws, acts, u, v, i, ts);
      assert !Advances(ws', |acts|, u, i);
    } else {
      forall ws', acts' | ContinuesInTime(ws, acts, ws', acts', u, v, ts) ensures Advances(ws', |acts|, u, i) {
        forall k | |acts| <= k <= |acts'| ensures Sorted(AccountOf(ws'[k], u, v, ts)) {
          StaysSorted(ws, acts, ws', acts', k, u, v, i, ts);
        }
        assert ws'[|acts|] == ws[|acts|];
        SortedRunAdvances(ws', acts', |acts|, u, v, i, ts);
      }
    }
  }

  lemma {:induction false} Regresses(ws: seq<World>, acts: seq<Action>, u: User, v: User, i: nat, ts: nat)
    returns (ws': seq<World>, acts': seq<Action>)
    requires Reused(ws, acts, u, v, i, ts) && MayBeRead(ws, acts, |acts| - 1, u, v, ts)
    ensures ContinuesInTime(ws, acts, ws', acts', u, v, ts) && !Advances(ws', |acts|, u, i)
  {
    var n := |acts| - 1;
    ReusedAccount(ws, acts, u, v, i, ts);
    ReusedWatched(ws, acts, u, v, i, ts);
    if u == v {
      OwnFetched(ws, acts, n, u, ts);
      var j, k;
      ws', acts', j, k := SetBackOwn(ws, acts, u, i, ts);
      assert Rank(Record(ws'[j], u, i).status) > Rank(Record(ws'[k], u, i).status);
    } else {
      StillArrives(ws, acts, u, v, i, ts);
      var j;
      ws', acts', j := SetBack(ws, acts, u, v, i, ts);
      assert Rank(Record(ws'[j], u, i).status) > Rank(Record(ws'[|acts'|], u, i).status);
    }
  }

  /** What was read or is in the batch was fetched. */
  lemma {:induction false} OwnFetched(ws: seq<World>, acts: seq<Action>, n: nat, u: User, ts: nat)
    requires IsRun(ws, acts) && n <= |acts|
    requires ts in StampsOf(ws[n].log, u, u).read || OpensOwn(Batch(ws[n].sys, u), u, ts)
    ensures AccountOf(ws[n], u, u, ts).fetched > 0
    ensures AccountOf(ws[n], u, u, ts).read > 0 || OpensOwn(Batch(ws[n].sys, u), u, ts)
  {
    var w := ws[n];
    StagesConserved(ws, acts, n, u, u);
    StageCounts(w, u, u, ts);
    CountPositive(StampsOf(w.log, u, u).read, ts);
    CountPositive(Collect(StampSel(u), Batch(w.sys, u)), ts);
    if OpensOwn(Batch(w.sys, u), u, ts) {
      var i :| 0 <= i < |Batch(w.sys, u)| && IsOwn(Batch(w.sys, u)[i], u, ts);
      CollectMember(StampSel(u), Batch(w.sys, u), Batch(w.sys, u)[i], ts);
    }
  }

  lemma {:induction false} ThreeActs(w: World, x: Action, y: Action, z: Action)
    returns (ws: seq<World>, acts: seq<Action>)
    requires Initial(w)
    ensures IsRun(ws, acts) && ws[0] == w && acts == [x, y, z]
  {
    ws, acts := [w], [];
    ws, acts := Extend(ws, acts, x);
    ws, acts := Extend(ws, acts, y);
    ws, acts := Extend(ws, acts, z);
  }

  /** From any beginning: a message, a poll by its recipient, and a second message in the same
      millisecond can set the first one's status back from Read to Delivered. */
  lemma {:induction false} SetBackRun(w: World, u: User, v: User) returns (ws: seq<World>, acts: seq<Action>, j: nat)
    requires Initial(w) && u != v && u in w.sys.clients && v in w.sys.clients
    ensures IsRun(ws, acts) && ws[0] == w && j <= |acts|
    ensures HasRecord(ws[j], u, 0) && Record(ws[j], u, 0).status == Read
    ensures HasRecord(ws[|acts|], u, 0) && Record(ws[|acts|], u, 0).status == Delivered
  {
    var act := Chat(u, v, "", 0, KeyPair(0), 0);
    var ws3, acts3 := ThreeActs(w, act, Polling(v, 0), act);
    SecondSend(ws3, acts3, u, v, act);
    FetchedFirst(ws3, acts3, u, v);
    ws, acts, j := SetBack(ws3, acts3, u, v, 0, 0);
  }

  lemma {:induction false} FirstSend(w: World, act: Action, w': World)
    requires Initial(w) && act.Chat? && act.user != act.to && act.user in w.sys.clients && act.to in w.sys.clients
    requires w' == Step(w, act)
    ensures HasRecord(w', act.user, 0) && Record(w', act.user, 0) == SentMessage(act.to, act.text, act.timestamp, Sent)
    ensures act.user in w'.sys.clients && RatchetOf(w'.sys, act.user, act.to).Some?
    ensures AccountOf(w', act.user, act.to, act.timestamp) == Account(1, 0, 0, [])
  {
    OutgoingMail(w.sys, act);
    SendSessions(w, act, act.user, act.to);
    StartSorted(w, act.user, act.to, act.timestamp);
    SendAccount(w, act, w', act.user, act.to, act.timestamp);
  }

  /** The timestamp is fetched, and then queued again. */
  lemma {:induction false} SecondSend(ws: seq<World>, acts: seq<Action>, u: User, v: User, act: Action)
    requires IsRun(ws, acts) && acts == [act, Polling(v, 0), act] && act.Chat? && act.user == u && act.to == v
    requires u != v && u in ws[0].sys.clients && v in ws[0].sys.clients
    ensures OneStarts(ws, acts, 3, u, v) && Watched(ws[3], u, v, 0, act.timestamp)
    ensures var acc := AccountOf(ws[3], u, v, act.timestamp); Sorted(acc) && acc.queued > acc.fetched > 0
  {
    RunStep(ws, acts, 1);
    RunStep(ws, acts, 2);
    RunStep(ws, acts, 3);
    RunKeepsClients(ws, acts, 1);
    RunKeepsClients(ws, acts, 2);
    FirstSend(ws[0], act, ws[1]);
    StagesConserved(ws, acts, 1, u, v);
    FetchedThenQueued(ws[1], ws[2], ws[3], act);
    FirstWatched(ws, acts, u, v, act.timestamp);
    SessionStays(ws[1], v, u, ws[2]);
    OnlyOneStarts(ws, acts, u, v);
  }

  lemma {:induction false} FetchedFirst(ws: seq<World>, acts: seq<Action>, u: User, v: User)
    requires IsRun(ws, acts) && |acts| == 3 && OneStarts(ws, acts, 3, u, v)
    requires AccountOf(ws[3], u, v, 0).fetched > 0
    ensures FetchedArrives(ws, acts, 3, u, v, 0)
  {
    var fetched := StampsOf(ws[3].log, u, v).fetched;
    CountPositive(fetched, 0);
    var p :| 0 <= p < |fetched| && fetched[p] == 0;
    assert Arrives(ws, acts, 3, u, v, p);
  }

  lemma {:induction false} FirstWatched(ws: seq<World>, acts: seq<Action>, u: User, v: User, ts: nat)
    requires IsRun(ws, acts) && |acts| == 3 && HasRecord(ws[1], u, 0) && IsRecord(Record(ws[1], u, 0), v, ts)
    ensures Watched(ws[3], u, v, 0, ts)
  {
    assert InTime(ws[0], acts[0], u, v, ts) by {
      assert StampsOf(ws[0].log, u, v).fetched == [];
    }
    AlwaysShows(ws, acts, 1, u, 0);
    ShowsOn(ws, acts, 1, 3, u, 0);
  }

  lemma {:induction false} OnlyOneStarts(ws: seq<World>, acts: seq<Action>, u: User, v: User)
    requires IsRun(ws, acts) && |acts| == 3 && acts[1].Polling? && acts[2].user == u && acts[0].user == u
    requires u in ws[2].sys.clients && RatchetOf(ws[2].sys, u, v).Some?
    ensures u != v ==> OneStarts(ws, acts, 3, u, v)
  {
    forall i | u != v && 0 <= i < 3 && Between(acts[i], u, v) ensures OneInitiator(ws[i], acts[i]) {
      if i == 0 {
        assert v in ws[0].sys.clients ==> RatchetOf(ws[0].sys, v, u).None?;
      } else {
        assert i == 2;
      }
    }
  }

  lemma {:induction false} SessionStays(w: World, v: User, u: User, w': World)
    requires u in w.sys.clients && v in w.sys.clients && w' == Step(w, Polling(v, 0)) && RatchetOf(w.sys, u, v).Some?
    ensures u in w'.sys.clients && v in w'.sys.clients && RatchetOf(w'.sys, u, v).Some?
  {
  }

  lemma {:induction false} FetchedThenQueued(w1: World, w2: World, w3: World, act: Action)
    requires act.Chat? && act.user != act.to && act.user in w1.sys.clients && act.to in w1.sys.clients
    requires Named(w1.sys) && Named(w2.sys) && Staged(w1, act.user, act.to)
    requires act.user in w2.sys.clients && act.to in w2.sys.clients
    requires w2 == Step(w1, Polling(act.to, 0)) && w3 == Step(w2, act)
    requires AccountOf(w1, act.user, act.to, act.timestamp) == Account(1, 0, 0, [])
    ensures AccountOf(w3, act.user, act.to, act.timestamp) == Account(2, 1, 0, Deliveries(1) + Readings(0))
  {
    PollAccount(w1, act.to, 0, w2, act.user, act.to, act.timestamp);
    SendAccount(w2, act, w3, act.user, act.to, act.timestamp);
    assert [] + Deliveries(1) == Deliveries(1) + Readings(0);
  }
}
