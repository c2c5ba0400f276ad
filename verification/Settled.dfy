/** Which messages are read, exactly; and what status each shows when the mail has settled. */
module Settled {
  import opened Sequences
  import opened Sessions
  import opened Relays
  import opened Clients
  import opened Messaging
  import opened EndToEnd
  import opened Crossing
  import opened Receipts
  import opened Accounts
  import opened Statuses

  // ── Which messages are read ─────────────────────────────────────────────

  lemma {:induction false} SameChats(es: seq<Envelope>, u: User)
    ensures |Collect(ChatSel(u), es)| == |Collect(StampSel(u), es)|
  {
    if es != [] {
      SameChats(es[1..], u);
    }
  }

  /** The messages of a pair that were handled are those put through decryption, in order. */
  lemma {:induction false} HandledIsOpened(ws: seq<World>, acts: seq<Action>, k: nat, u: User, v: User)
    requires IsRun(ws, acts) && k <= |acts| && u != v && u in ws[0].sys.clients && v in ws[0].sys.clients
    ensures var handled, done := StampsOf(ws[k].log, u, v).handled, Openings(ws[k], u, v);
      |handled| == |done| && forall i :: 0 <= i < |done| ==> done[i].timestamp == handled[i]
  {
    var w := ws[k];
    var s, done := StampsOf(w.log, u, v), Openings(w, u, v);
    DeliveryExactly(ws, acts, k, u, v);
    StagesConserved(ws, acts, k, u, v);
    SameChats(Batch(w.sys, v), u);
    SameChats(Pending(w.sys.relay, v), u);
    StampsOfLetters(w.log, u, v);
    forall i | 0 <= i < |done| ensures done[i].timestamp == s.handled[i] {
      assert s.queued[i] == s.handled[i];
    }
  }

  /** The letter with number `p` comes out as sent, or will if it is still on its way. */
  ghost predicate Arrives(ws: seq<World>, acts: seq<Action>, k: nat, u: User, v: User, p: nat)
    requires IsRun(ws, acts) && k <= |acts|
  {
    OneStarts(ws, acts, k, u, v) || p < SentUnheard(ws[k], u, v)
  }

  lemma {:induction false} OpenedIsRead(w: World, u: User, v: User, o: Opening)
    requires o in Openings(w, u, v) && o.result.Ok?
    ensures o.timestamp in StampsOf(w.log, u, v).read
  {
    var event := CollectSource(OpenSel(u, v), w.log, o);
    CollectMember(ReadSel(u, v), w.log, event, o.timestamp);
  }

  lemma {:induction false} ReadIsOpened(w: World, u: User, v: User, ts: nat) returns (p: nat)
    requires ts in StampsOf(w.log, u, v).read
    ensures p < |Openings(w, u, v)| && Openings(w, u, v)[p].result.Ok? && Openings(w, u, v)[p].timestamp == ts
  {
    var event := CollectSource(ReadSel(u, v), w.log, ts);
    var o := Opening(ts, event.result, event.stepped);
    CollectMember(OpenSel(u, v), w.log, event, o);
    p :| 0 <= p < |Openings(w, u, v)| && Openings(w, u, v)[p] == o;
  }

  /** In every run at all, a timestamp from one user to another was read if and only if some letter
      with it was handled that arrives. */
  lemma {:induction false} ReadExactly(ws: seq<World>, acts: seq<Action>, k: nat, u: User, v: User, ts: nat)
    requires IsRun(ws, acts) && k <= |acts| && u != v && u in ws[0].sys.clients && v in ws[0].sys.clients
    ensures var s := StampsOf(ws[k].log, u, v);
      ts in s.read <==> exists p :: 0 <= p < |s.handled| && s.handled[p] == ts && Arrives(ws, acts, k, u, v, p)
  {
    var w := ws[k];
    var s, done := StampsOf(w.log, u, v), Openings(w, u, v);
    HandledIsOpened(ws, acts, k, u, v);
    DeliveryExactly(ws, acts, k, u, v);
    if ts in s.read {
      var p := ReadIsOpened(w, u, v, ts);
      assert done[p].result.Ok?;
      assert s.handled[p] == ts && Arrives(ws, acts, k, u, v, p);
    }
    if p :| 0 <= p < |s.handled| && s.handled[p] == ts && Arrives(ws, acts, k, u, v, p) {
      assert done[p].result.Ok?;
      OpenedIsRead(w, u, v, done[p]);
    }
  }

  // ── Messages to oneself ─────────────────────────────────────────────────

  /** Encrypted mail to oneself with one timestamp. */
  function UnsavedSel(u: User, ts: nat): Envelope -> seq<nat> {
    (e: Envelope) => if IsChat(e) && e.sender == u && e.timestamp == ts && !e.body.Saved? then [ts] else []
  }

  function SelfReadSel(u: User, ts: nat): Event -> seq<nat> {
    (e: Event) => if e.Opened? && e.result.Ok? && e.from == u && e.to == u && e.timestamp == ts then [ts] else []
  }

  /** No encrypted mail to oneself with this timestamp is under way or was read. */
  ghost predicate Plain(w: World, u: User, ts: nat) {
    InTransit(UnsavedSel(u, ts), w.sys, u) == [] && Collect(SelfReadSel(u, ts), w.log) == []
  }

  lemma {:induction false} HandlePlain(w: World, x: User, now: nat, u: User, ts: nat)
    requires Named(w.sys) && x in w.sys.clients && Batch(w.sys, x) != [] && Plain(w, u, ts)
    ensures Plain(Step(w, Handling(x, now)), u, ts)
  {
    var e, c := Batch(w.sys, x)[0], w.sys.clients[x];
    var event := Handle(c, w.sys.relay, e, now).2;
    TransitAfterHandle(UnsavedSel(u, ts), w, x, now, u);
    HandleRelay(c, w.sys.relay, e, now);
    assert UnsavedSel(u, ts)(ReadReceipt(c.user, e, now)) == [];
    if x == u {
      assert UnsavedSel(u, ts)(e) == [];
    }
    assert SelfReadSel(u, ts)(event) == [];
    CollectSnoc(SelfReadSel(u, ts), w.log, event);
  }

  lemma {:induction false} PollPlain(w: World, x: User, now: nat, u: User, ts: nat)
    requires x in w.sys.clients && Plain(w, u, ts)
    ensures Plain(Step(w, Polling(x, now)), u, ts)
  {
    var mail := Pending(w.sys.relay, x);
    TransitAfterPoll(UnsavedSel(u, ts), w, x, now, u);
    ReceiptsNotSelected(UnsavedSel(u, ts), x, mail, now, u);
    CollectFetchEvents(SelfReadSel(u, ts), w.log, x, mail);
  }

  lemma {:induction false} SendPlain(w: World, act: Action, u: User, ts: nat)
    requires (act.Chat? || (act.Pushing? && !Sends(act, u, u, ts))) && Named(w.sys) && Plain(w, u, ts)
    ensures Plain(Step(w, act), u, ts)
  {
    TransitAfterSend(UnsavedSel(u, ts), w, act, u);
    CollectSnoc(SelfReadSel(u, ts), w.log, Queued(act.user, act.to, act.text, act.timestamp));
  }

  lemma {:induction false} StepPlain(w: World, act: Action, w': World, u: User, ts: nat)
    requires Named(w.sys) && Plain(w, u, ts) && w' == Step(w, act)
    requires act.Chat? || !Sends(act, u, u, ts)
    ensures Plain(w', u, ts)
  {
    match act
    case Polling(x, now) =>
      if x in w.sys.clients {
        PollPlain(w, x, now, u, ts);
      }
    case Handling(x, now) =>
      if x in w.sys.clients && Batch(w.sys, x) != [] {
        HandlePlain(w, x, now, u, ts);
      }
    case _ => SendPlain(w, act, u, ts);
  }

  lemma {:induction false} UnusedSelects(es: seq<Envelope>, u: User, ts: nat)
    requires ts !in Collect(StampSel(u), es)
    ensures Collect(UnsavedSel(u, ts), es) == []
  {
    if es != [] {
      assert es == [es[0]] + es[1..];
      CollectCons(StampSel(u), es[0], es[1..]);
      UnusedSelects(es[1..], u, ts);
    }
  }

  lemma {:induction false} UnreadSelects(log: seq<Event>, u: User, ts: nat)
    requires ts !in Collect(ReadSel(u, u), log)
    ensures Collect(SelfReadSel(u, ts), log) == []
  {
    if log != [] {
      assert log == [log[0]] + log[1..];
      CollectCons(ReadSel(u, u), log[0], log[1..]);
      UnreadSelects(log[1..], u, ts);
    }
  }

  /** A timestamp never used to oneself. */
  lemma {:induction false} UnusedPlain(w: World, u: User, ts: nat)
    requires Staged(w, u, u) && ts !in StampsOf(w.log, u, u).queued
    ensures Plain(w, u, ts)
  {
    var s := StampsOf(w.log, u, u);
    StageCounts(w, u, u, ts);
    CountPositive(s.queued, ts);
    CountPositive(s.read, ts);
    CountPositive(Collect(StampSel(u), Batch(w.sys, u)), ts);
    CountPositive(Collect(StampSel(u), Pending(w.sys.relay, u)), ts);
    UnusedSelects(Batch(w.sys, u), u, ts);
    UnusedSelects(Pending(w.sys.relay, u), u, ts);
    UnreadSelects(w.log, u, ts);
  }

  /** A recorded message to oneself, alone with its timestamp, went out in the clear. */
  lemma {:induction false} SelfPlain(ws: seq<World>, acts: seq<Action>, k: nat, u: User, i: nat)
    requires IsRun(ws, acts) && k <= |acts| && HasRecord(ws[k], u, i) && Record(ws[k], u, i).recipient == u
    requires AccountOf(ws[k], u, u, Record(ws[k], u, i).timestamp).queued <= 1
    ensures Plain(ws[k], u, Record(ws[k], u, i).timestamp)
  {
    RunKeepsClients(ws, acts, k);
    if k > 0 {
      var p, ts := k - 1, Record(ws[k], u, i).timestamp;
      RunAccountStep(ws, acts, p, u, u, ts);
      assert ws[p + 1] == ws[k];
      RunKeepsClients(ws, acts, p);
      OnlyChatAddsRecords(ws[p], acts[p], ws[k], u);
      AccountStep(ws[p], acts[p], ws[k], u, u, ts);
      if HasRecord(ws[p], u, i) {
        RecordsKept(ws[p], acts[p], ws[k], u, i);
        SelfPlain(ws, acts, p, u, i);
        RecordIsQueued(ws, acts, p, u, i);
        if Sends(acts[p], u, u, ts) && acts[p].Pushing? {
          SelfReaches(ws[p], acts[p], ws[k], u, ts);
        }
      } else {
        SendAccount(ws[p], acts[p], ws[k], u, u, ts);
        CountPositive(StampsOf(ws[p].log, u, u).queued, ts);
        UnusedPlain(ws[p], u, ts);
      }
      StepPlain(ws[p], acts[p], ws[k], u, ts);
    }
  }

  lemma {:induction false} SelfReaches(w: World, act: Action, w': World, u: User, ts: nat)
    requires Named(w.sys) && u in w.sys.clients && Sends(act, u, u, ts) && w' == Step(w, act)
    ensures AccountOf(w', u, u, ts).queued == AccountOf(w, u, u, ts).queued + 1
  {
    SendAccount(w, act, w', u, u, ts);
  }

  lemma {:induction false} RecordIsQueued(ws: seq<World>, acts: seq<Action>, k: nat, u: User, i: nat)
    requires IsRun(ws, acts) && k <= |acts| && HasRecord(ws[k], u, i)
    requires AccountOf(ws[k], u, Record(ws[k], u, i).recipient, Record(ws[k], u, i).timestamp).queued <= 1
    ensures AccountOf(ws[k], u, Record(ws[k], u, i).recipient, Record(ws[k], u, i).timestamp).queued == 1
  {
    var m := Record(ws[k], u, i);
    RunKeepsClients(ws, acts, k);
    OnceIsInTime(ws, acts, k, u, m.recipient, m.timestamp);
    AlwaysShows(ws, acts, k, u, i);
    LetterIsQueued(ws[k].log, u, m.recipient, Letter(m.text, m.timestamp));
    CountPositive(StampsOf(ws[k].log, u, m.recipient).queued, m.timestamp);
  }

  // ── The theorem ─────────────────────────────────────────────────────────

  /** A record alone with its timestamp is the first with it. */
  lemma {:induction false} AloneIsFirst(ws: seq<World>, acts: seq<Action>, k: nat, u: User, i: nat)
    requires IsRun(ws, acts) && k <= |acts| && HasRecord(ws[k], u, i)
    requires AccountOf(ws[k], u, Record(ws[k], u, i).recipient, Record(ws[k], u, i).timestamp).queued <= 1
    ensures IsFirst(ws[k].sys.clients[u].sent, i)
  {
    RunKeepsClients(ws, acts, k);
    if k > 0 {
      var p, m := k - 1, Record(ws[k], u, i);
      RunAccountStep(ws, acts, p, u, m.recipient, m.timestamp);
      assert ws[p + 1] == ws[k];
      RunKeepsClients(ws, acts, p);
      OnlyChatAddsRecords(ws[p], acts[p], ws[k], u);
      AccountStep(ws[p], acts[p], ws[k], u, m.recipient, m.timestamp);
      if HasRecord(ws[p], u, i) {
        RecordsKept(ws[p], acts[p], ws[k], u, i);
        AloneIsFirst(ws, acts, p, u, i);
      } else {
        SendAccount(ws[p], acts[p], ws[k], u, m.recipient, m.timestamp);
        forall j | 0 <= j < i ensures !IsRecord(ws[k].sys.clients[u].sent[j], m.recipient, m.timestamp) {
          assert ws[k].sys.clients[u].sent[j] == Record(ws[p], u, j);
          if IsRecord(Record(ws[p], u, j), m.recipient, m.timestamp) {
            RecordIsQueued(ws, acts, p, u, j);
          }
        }
      }
    }
  }

  /** Neither user of a pair has mail under way. */
  predicate NoMail(sys: System, u: User, v: User) {
    && Batch(sys, u) == [] && Pending(sys.relay, u) == []
    && Batch(sys, v) == [] && Pending(sys.relay, v) == []
  }

  /** Once no mail is under way to either, a message alone with its timestamp that went to another
      user shows Read if it arrived, and Delivered if it was lost because both had started a
      session; one that went to oneself shows Delivered. */
  lemma {:induction false} SettledStatus(ws: seq<World>, acts: seq<Action>, k: nat, u: User, i: nat)
    requires IsRun(ws, acts) && k <= |acts| && HasRecord(ws[k], u, i)
    requires var m := Record(ws[k], u, i);
      AccountOf(ws[k], u, m.recipient, m.timestamp).queued <= 1 && NoMail(ws[k].sys, u, m.recipient)
    ensures var m := Record(ws[k], u, i);
      && (m.recipient == u ==> m.status == Delivered)
      && (m.recipient != u ==>
            exists p :: IsLetter(ws[k], u, m, p) && m.status == if Arrives(ws, acts, k, u, m.recipient, p) then Read
                                                                else Delivered)
  {
    var m := Record(ws[k], u, i);
    var v, ts := m.recipient, m.timestamp;
    RunKeepsClients(ws, acts, k);
    OnceIsInTime(ws, acts, k, u, v, ts);
    AlwaysShows(ws, acts, k, u, i);
    AloneIsFirst(ws, acts, k, u, i);
    RecordIsQueued(ws, acts, k, u, i);
    ReceiptsConserved(ws, acts, k, u, v, ts);
    EarnedSorted(ws, acts, k, u, v, ts);
    StagesConserved(ws, acts, k, u, v);
    StageCounts(ws[k], u, v, ts);
    assert AccountOf(ws[k], u, v, ts).fetched == 1;
    assert Applied(ws[k], u, v, ts) + [] == Applied(ws[k], u, v, ts);
    LastOf(AccountOf(ws[k], u, v, ts).read);
    if u == v {
      SelfUnread(ws, acts, k, u, i);
    } else {
      var p := SettledLetter(ws, acts, k, u, i);
    }
  }

  /** The letter with number `p` is the one a record is about. */
  predicate IsLetter(w: World, u: User, m: SentMessage, p: nat) {
    p < |SentLetters(w, u, m.recipient)| && SentLetters(w, u, m.recipient)[p] == Letter(m.text, m.timestamp)
  }

  lemma {:induction false} LastOf(r: nat)
    ensures Top(Deliveries(1) + Readings(r)) == if r > 0 then Read else Delivered
  {
    DeliveriesAre(1);
    ReadingsAre(r);
  }

  lemma {:induction false} SelfUnread(ws: seq<World>, acts: seq<Action>, k: nat, u: User, i: nat)
    requires IsRun(ws, acts) && k <= |acts| && HasRecord(ws[k], u, i) && Record(ws[k], u, i).recipient == u
    requires AccountOf(ws[k], u, u, Record(ws[k], u, i).timestamp).queued <= 1
    ensures AccountOf(ws[k], u, u, Record(ws[k], u, i).timestamp).read == 0
  {
    var ts, s := Record(ws[k], u, i).timestamp, StampsOf(ws[k].log, u, u);
    SelfPlain(ws, acts, k, u, i);
    CountPositive(s.read, ts);
    if ts in s.read {
      var event := CollectSource(ReadSel(u, u), ws[k].log, ts);
      CollectMember(SelfReadSel(u, ts), ws[k].log, event, ts);
    }
  }

  /** The one letter with the timestamp was read if and only if it arrived. */
  lemma {:induction false} SettledLetter(ws: seq<World>, acts: seq<Action>, k: nat, u: User, i: nat) returns (p: nat)
    requires IsRun(ws, acts) && k <= |acts| && HasRecord(ws[k], u, i) && ShowsAt(ws[k], u, i)
    requires var m := Record(ws[k], u, i);
      && m.recipient != u && NoMail(ws[k].sys, u, m.recipient)
      && AccountOf(ws[k], u, m.recipient, m.timestamp).queued == 1
      && AccountOf(ws[k], u, m.recipient, m.timestamp).fetched == 1
    ensures var m := Record(ws[k], u, i);
      && IsLetter(ws[k], u, m, p)
      && (AccountOf(ws[k], u, m.recipient, m.timestamp).read > 0 <==> Arrives(ws, acts, k, u, m.recipient, p))
  {
    var m := Record(ws[k], u, i);
    var v, ts, ls := m.recipient, m.timestamp, SentLetters(ws[k], u, m.recipient);
    var s := StampsOf(ws[k].log, u, v);
    RunKeepsClients(ws, acts, k);
    if v !in ws[0].sys.clients {
      AbsentFetchNothing(ws, acts, k, u, v, ts);
    }
    p :| 0 <= p < |ls| && ls[p] == Letter(m.text, ts);
    StampsOfLetters(ws[k].log, u, v);
    StagesConserved(ws, acts, k, u, v);
    assert s.queued == s.handled;
    CountPositive(s.read, ts);
    ReadExactly(ws, acts, k, u, v, ts);
    forall q | 0 <= q < |s.handled| && s.handled[q] == ts ensures q == p {
      if q < p {
        CountTwice(s.queued, q, p);
      } else if p < q {
        CountTwice(s.queued, p, q);
      }
    }
  }
}
