/** The status shown for a sent message, over every run: it only advances, and it is truthful. */
module Statuses {
  import opened Sequences
  import opened Crypto
  import opened Sessions
  import opened Relays
  import opened Clients
  import opened Messaging
  import opened Receipts
  import opened Accounts
  import opened Runs

  // ── The status shown ────────────────────────────────────────────────────

  /** The status a record shows after some receipts: that of the last one. */
  function Top(acks: seq<ReceiptKind>): Status {
    if acks == [] then Sent else StatusFor(acks[|acks| - 1])
  }

  predicate IsRecord(m: SentMessage, v: User, ts: nat) {
    m.recipient == v && m.timestamp == ts
  }

  /** No earlier record has this one's recipient and timestamp, so receipts for them find this one. */
  ghost predicate IsFirst(sent: seq<SentMessage>, i: nat)
    requires i < |sent|
  {
    forall j :: 0 <= j < i ==> !IsRecord(sent[j], sent[i].recipient, sent[i].timestamp)
  }

  /** Marking changes the status of the first record it is for. */
  lemma {:induction false} MarkAt(sent: seq<SentMessage>, v: User, ts: nat, status: Status, i: nat)
    requires i < |sent|
    ensures |Mark(sent, v, ts, status)| == |sent|
    ensures Mark(sent, v, ts, status)[i] ==
            if IsRecord(sent[i], v, ts) && IsFirst(sent, i) then sent[i].(status := status) else sent[i]
  {
    MarkLength(sent, v, ts, status);
    if i > 0 && !IsRecord(sent[0], v, ts) {
      var rest, j := sent[1..], i - 1;
      MarkAt(rest, v, ts, status, j);
      assert rest[j] == sent[i];
      assert IsRecord(sent[i], v, ts) ==> (IsFirst(sent, i) <==> IsFirst(rest, j)) by {
        assert forall p :: 0 <= p < j ==> rest[p] == sent[p + 1];
        assert forall p :: 1 <= p < i ==> sent[p] == rest[p - 1];
      }
    }
  }

  lemma {:induction false} MarkLength(sent: seq<SentMessage>, v: User, ts: nat, status: Status)
    ensures |Mark(sent, v, ts, status)| == |sent|
  {
    if sent != [] {
      MarkLength(sent[1..], v, ts, status);
    }
  }

  /** The receipt an action applies at `u`, if it does. */
  function AckNow(w: World, act: Action, u: User): Option<(User, nat, ReceiptKind)> {
    if && act.Handling? && act.user == u && u in w.sys.clients
       && Batch(w.sys, u) != [] && Batch(w.sys, u)[0].body.Receipting?
    then
      var e := Batch(w.sys, u)[0];
      Some((e.sender, e.body.originalTimestamp, e.body.kind))
    else None
  }

  /** Only handling a receipt applies one, to the mail it names. */
  lemma {:induction false} HandleAcks(c: ClientState, r: RelayState, e: Envelope, now: nat, u: User, v: User, ts: nat)
    ensures AckSel(u, v, ts)(Handle(c, r, e, now).2) ==
            if e.body.Receipting? && c.user == u && e.sender == v && e.body.originalTimestamp == ts then [e.body.kind]
            else []
  {
  }

  lemma {:induction false} AppliedAfterHandle(w: World, x: User, now: nat, u: User, v: User, ts: nat)
    requires Named(w.sys) && x in w.sys.clients && Batch(w.sys, x) != []
    ensures var e := Batch(w.sys, x)[0];
      Applied(Step(w, Handling(x, now)), u, v, ts) ==
        if e.body.Receipting? && x == u && e.sender == v && e.body.originalTimestamp == ts
        then Applied(w, u, v, ts) + [e.body.kind] else Applied(w, u, v, ts)
  {
    var c, e := w.sys.clients[x], Batch(w.sys, x)[0];
    var event := Handle(c, w.sys.relay, e, now).2;
    HandleAcks(c, w.sys.relay, e, now, u, v, ts);
    LogEvent(w, event, u, v, ts);
    assert Step(w, Handling(x, now)).log == w.log + [event];
    assert Applied(w, u, v, ts) + [] == Applied(w, u, v, ts);
  }

  lemma {:induction false} AppliedAfter(w: World, act: Action, u: User, v: User, ts: nat)
    requires Named(w.sys)
    ensures Applied(Step(w, act), u, v, ts) ==
      match AckNow(w, act, u)
      case Some((v', ts', kind)) =>
        if v' == v && ts' == ts then Applied(w, u, v, ts) + [kind] else Applied(w, u, v, ts)
      case None => Applied(w, u, v, ts)
  {
    var acks := Applied(w, u, v, ts);
    assert acks + [] == acks;
    match act
    case Polling(x, now) =>
      if x in w.sys.clients {
        PollLogs(w, x, Pending(w.sys.relay, x), u, v, ts);
      }
    case Handling(x, now) =>
      if x in w.sys.clients && Batch(w.sys, x) != [] {
        AppliedAfterHandle(w, x, now, u, v, ts);
      }
    case _ =>
      TransitAfterSend(ChatSel(u), w, act, v);
      LogEvent(w, Queued(act.user, act.to, act.text, act.timestamp), u, v, ts);
  }

  lemma {:induction false} RecordsAfter(w: World, act: Action, u: User)
    requires Named(w.sys) && u in w.sys.clients
    ensures u in Step(w, act).sys.clients
    ensures var sent, sent' := w.sys.clients[u].sent, Step(w, act).sys.clients[u].sent;
      match AckNow(w, act, u)
      case Some((v, ts, kind)) => sent' == Mark(sent, v, ts, StatusFor(kind))
      case None =>
        sent' == if act.Chat? && act.user == u && Reachable(w.sys, act)
                 then sent + [SentMessage(act.to, act.text, act.timestamp, Sent)] else sent
  {
    if (act.Chat? || act.Pushing?) && act.user in w.sys.clients {
      OutgoingMail(w.sys, act);
    }
  }

  /** The first record for a recipient and timestamp shows what the receipts say, a later one stays
      as it was recorded; and what a record says was sent. */
  ghost predicate ShowsAt(w: World, u: User, i: nat)
    requires u in w.sys.clients && i < |w.sys.clients[u].sent|
  {
    var sent := w.sys.clients[u].sent;
    var m := sent[i];
    && m.status == (if IsFirst(sent, i) then Top(Applied(w, u, m.recipient, m.timestamp)) else Sent)
    && Letter(m.text, m.timestamp) in SentLetters(w, u, m.recipient)
  }

  ghost predicate HasRecord(w: World, u: User, i: nat) {
    u in w.sys.clients && i < |w.sys.clients[u].sent|
  }

  function Record(w: World, u: User, i: nat): SentMessage
    requires u in w.sys.clients && i < |w.sys.clients[u].sent|
  {
    w.sys.clients[u].sent[i]
  }

  lemma {:induction false} LetterIsQueued(log: seq<Event>, u: User, v: User, l: Letter)
    requires l in Collect(SentSel(u, v), log)
    ensures l.timestamp in Collect(QueuedSel(u, v), log)
  {
    if l !in SentSel(u, v)(log[0]) {
      LetterIsQueued(log[1..], u, v, l);
    }
  }

  /** What a step does to the records there are: all keep their place and what they say, and the
      first one a receipt is for takes its status. */
  lemma {:induction false} RecordsKept(w: World, act: Action, w': World, u: User, i: nat)
    requires Named(w.sys) && HasRecord(w, u, i) && w' == Step(w, act)
    ensures HasRecord(w', u, i)
    ensures var m, m' := Record(w, u, i), Record(w', u, i);
      && (IsFirst(w'.sys.clients[u].sent, i) <==> IsFirst(w.sys.clients[u].sent, i))
      && m' == match AckNow(w, act, u)
               case Some((v, ts, kind)) =>
                 if IsRecord(m, v, ts) && IsFirst(w.sys.clients[u].sent, i) then m.(status := StatusFor(kind)) else m
               case None => m
  {
    RecordsAfter(w, act, u);
    var sent, sent' := w.sys.clients[u].sent, w'.sys.clients[u].sent;
    if AckNow(w, act, u).Some? {
      var (v, ts, kind) := AckNow(w, act, u).value;
      forall j | 0 <= j <= i
        ensures |sent'| == |sent|
        ensures sent'[j] == if IsRecord(sent[j], v, ts) && IsFirst(sent, j) then sent[j].(status := StatusFor(kind))
                            else sent[j]
      {
        MarkAt(sent, v, ts, StatusFor(kind), j);
      }
    } else {
      assert forall j :: 0 <= j <= i ==> sent'[j] == sent[j];
    }
  }

  /** A record keeps showing what its receipts say. */
  lemma {:induction false} RecordKeepsShowing(w: World, act: Action, w': World, u: User, i: nat)
    requires Named(w.sys) && HasRecord(w, u, i) && ShowsAt(w, u, i) && w' == Step(w, act)
    ensures HasRecord(w', u, i) && ShowsAt(w', u, i)
    ensures Record(w', u, i).(status := Sent) == Record(w, u, i).(status := Sent)
  {
    var m := Record(w, u, i);
    RecordsKept(w, act, w', u, i);
    AppliedAfter(w, act, u, m.recipient, m.timestamp);
    LogGrows(w, act);
    CollectGrows(SentSel(u, m.recipient), w.log, w'.log);
  }

  lemma {:induction false} ShowsOn(ws: seq<World>, acts: seq<Action>, j: nat, k: nat, u: User, i: nat)
    requires IsRun(ws, acts) && j <= k <= |acts| && HasRecord(ws[j], u, i) && ShowsAt(ws[j], u, i)
    ensures HasRecord(ws[k], u, i) && ShowsAt(ws[k], u, i)
    ensures Record(ws[k], u, i).(status := Sent) == Record(ws[j], u, i).(status := Sent)
    ensures IsFirst(ws[k].sys.clients[u].sent, i) <==> IsFirst(ws[j].sys.clients[u].sent, i)
    decreases k
  {
    if j < k {
      var p := k - 1;
      ShowsOn(ws, acts, j, p, u, i);
      RunKeepsClients(ws, acts, p);
      RunStep(ws, acts, k);
      RecordsKept(ws[p], acts[p], ws[k], u, i);
      RecordKeepsShowing(ws[p], acts[p], ws[k], u, i);
    }
  }

  lemma {:induction false} OnlyChatAddsRecords(w: World, act: Action, w': World, u: User)
    requires Named(w.sys) && u in w.sys.clients && w' == Step(w, act)
    ensures u in w'.sys.clients
    ensures var sent, sent' := w.sys.clients[u].sent, w'.sys.clients[u].sent;
      || |sent'| == |sent|
      || (act.Chat? && act.user == u && Reachable(w.sys, act) &&
          sent' == sent + [SentMessage(act.to, act.text, act.timestamp, Sent)])
  {
    RecordsAfter(w, act, u);
    if AckNow(w, act, u).Some? {
      var (v, ts, kind) := AckNow(w, act, u).value;
      MarkLength(w.sys.clients[u].sent, v, ts, StatusFor(kind));
    }
  }

  /** A new record whose timestamp has earned nothing shows what its receipts say. */
  lemma {:induction false} NewRecordShows(w: World, act: Action, w': World, u: User)
    requires Named(w.sys) && act.Chat? && act.user == u && Reachable(w.sys, act) && w' == Step(w, act)
    requires Balanced(w, u, act.to, act.timestamp) && Earned(w, u, act.to, act.timestamp) == []
    requires HasRecord(w', u, |w.sys.clients[u].sent|)
    requires w'.sys.clients[u].sent == w.sys.clients[u].sent + [SentMessage(act.to, act.text, act.timestamp, Sent)]
    ensures ShowsAt(w', u, |w.sys.clients[u].sent|)
  {
    AppliedAfter(w, act, u, act.to, act.timestamp);
    TransitAfterSend(ChatSel(u), w, act, act.to);
    CollectSnoc(SentSel(u, act.to), w.log, Queued(u, act.to, act.text, act.timestamp));
  }

  /** A record whose timestamp is not reused late always shows what its receipts say. */
  lemma {:induction false} AlwaysShows(ws: seq<World>, acts: seq<Action>, k: nat, u: User, i: nat)
    requires IsRun(ws, acts) && k <= |acts| && HasRecord(ws[k], u, i)
    requires NoLateReuse(ws, acts, k, u, Record(ws[k], u, i).recipient, Record(ws[k], u, i).timestamp)
    ensures ShowsAt(ws[k], u, i)
  {
    RunKeepsClients(ws, acts, k);
    if k > 0 {
      var p := k - 1;
      RunKeepsClients(ws, acts, p);
      RunStep(ws, acts, k);
      OnlyChatAddsRecords(ws[p], acts[p], ws[k], u);
      if HasRecord(ws[p], u, i) {
        RecordsKept(ws[p], acts[p], ws[k], u, i);
        AlwaysShows(ws, acts, p, u, i);
        RecordKeepsShowing(ws[p], acts[p], ws[k], u, i);
      } else {
        NothingEarned(ws, acts, p, u);
        NewRecordShows(ws[p], acts[p], ws[k], u);
      }
    }
  }

  /** A message sent in time has earned nothing yet. */
  lemma {:induction false} NothingEarned(ws: seq<World>, acts: seq<Action>, p: nat, u: User)
    requires IsRun(ws, acts) && p < |acts| && acts[p].Chat? && acts[p].user == u
    requires NoLateReuse(ws, acts, p + 1, u, acts[p].to, acts[p].timestamp)
    ensures Balanced(ws[p], u, acts[p].to, acts[p].timestamp) && Earned(ws[p], u, acts[p].to, acts[p].timestamp) == []
  {
    var v, ts := acts[p].to, acts[p].timestamp;
    ReceiptsConserved(ws, acts, p, u, v, ts);
    EarnedSorted(ws, acts, p, u, v, ts);
    StagesConserved(ws, acts, p, u, v);
    StageCounts(ws[p], u, v, ts);
    assert InTime(ws[p], acts[p], u, v, ts);
    CountPositive(StampsOf(ws[p].log, u, v).fetched, ts);
  }

  // ── It only advances ────────────────────────────────────────────────────

  function Rank(s: Status): nat {
    match s
    case Sent => 0
    case Delivered => 1
    case Read => 2
  }

  lemma {:induction false} DeliveriesAre(n: nat)
    ensures |Deliveries(n)| == n && forall i :: 0 <= i < n ==> Deliveries(n)[i] == Delivery
  {
    if n > 0 {
      DeliveriesAre(n - 1);
    }
  }

  lemma {:induction false} ReadingsAre(n: nat)
    ensures |Readings(n)| == n && forall i :: 0 <= i < n ==> Readings(n)[i] == Reading
  {
    if n > 0 {
      ReadingsAre(n - 1);
    }
  }

  /** Along a sorted list of receipts the status only advances. */
  lemma {:induction false} SortedAdvances(f: nat, r: nat, acks: seq<ReceiptKind>, acks': seq<ReceiptKind>)
    requires acks <= acks' <= Deliveries(f) + Readings(r)
    ensures Rank(Top(acks)) <= Rank(Top(acks'))
    ensures Top(acks') != Sent ==> f + r > 0
    ensures Top(acks') == Read ==> r > 0
  {
    DeliveriesAre(f);
    ReadingsAre(r);
  }

  lemma {:induction false} AppliedSorted(ws: seq<World>, acts: seq<Action>, k: nat, u: User, v: User, ts: nat)
    requires IsRun(ws, acts) && k <= |acts| && NoLateReuse(ws, acts, k, u, v, ts)
    ensures var acc := AccountOf(ws[k], u, v, ts);
      Applied(ws[k], u, v, ts) <= Deliveries(acc.fetched) + Readings(acc.read)
  {
    ReceiptsConserved(ws, acts, k, u, v, ts);
    EarnedSorted(ws, acts, k, u, v, ts);
  }

  /** In every run, from any point to any later one, a sent message keeps its place, recipient, text
      and timestamp, and its status only moves Sent, Delivered, Read, if its timestamp is not reused
      late; sessions may cross. */
  lemma {:induction false} StatusOnlyAdvances(ws: seq<World>, acts: seq<Action>, j: nat, k: nat, u: User, i: nat)
    requires IsRun(ws, acts) && j <= k <= |acts| && HasRecord(ws[j], u, i)
    requires NoLateReuse(ws, acts, k, u, Record(ws[j], u, i).recipient, Record(ws[j], u, i).timestamp)
    ensures HasRecord(ws[k], u, i)
    ensures Record(ws[k], u, i).(status := Sent) == Record(ws[j], u, i).(status := Sent)
    ensures Rank(Record(ws[j], u, i).status) <= Rank(Record(ws[k], u, i).status)
  {
    var v, ts := Record(ws[j], u, i).recipient, Record(ws[j], u, i).timestamp;
    AlwaysShows(ws, acts, j, u, i);
    ShowsOn(ws, acts, j, k, u, i);
    AppliedSorted(ws, acts, k, u, v, ts);
    SelectionGrows(ws, acts, j, k, AckSel(u, v, ts));
    var acc := AccountOf(ws[k], u, v, ts);
    SortedAdvances(acc.fetched, acc.read, Applied(ws[j], u, v, ts), Applied(ws[k], u, v, ts));
  }

  /** No single step protects a status: a delivery receipt handled late sets a message shown as
      Read back to Delivered. */
  lemma {:induction false} AssignmentIsUnconditional(c: ClientState, r: RelayState, e: Envelope, now: nat, i: nat)
    requires e.body.Receipting? && i < |c.sent| && IsFirst(c.sent, i)
    requires IsRecord(c.sent[i], e.sender, e.body.originalTimestamp)
    ensures Handle(c, r, e, now).0.sent == c.sent[i := c.sent[i].(status := StatusFor(e.body.kind))]
  {
    var sent, ts, status := c.sent, e.body.originalTimestamp, StatusFor(e.body.kind);
    MarkLength(sent, e.sender, ts, status);
    forall j | 0 <= j < |sent|
      ensures Mark(sent, e.sender, ts, status)[j] == if j == i then sent[j].(status := status) else sent[j]
    {
      MarkAt(sent, e.sender, ts, status, j);
    }
  }

  // ── Read is truthful ────────────────────────────────────────────────────

  lemma {:induction false} StampsOfLetters(log: seq<Event>, u: User, v: User)
    ensures var ls, q := Collect(SentSel(u, v), log), Collect(QueuedSel(u, v), log);
      |ls| == |q| && forall i :: 0 <= i < |q| ==> q[i] == ls[i].timestamp
  {
    if log != [] {
      StampsOfLetters(log[1..], u, v);
    }
  }

  /** If a timestamp was queued once, two letters with it are one. */
  lemma {:induction false} OneLetterPerStamp(w: World, u: User, v: User, x: Letter, y: Letter)
    requires x in SentLetters(w, u, v) && y in SentLetters(w, u, v) && x.timestamp == y.timestamp
    requires Count(Collect(QueuedSel(u, v), w.log), x.timestamp) <= 1
    ensures x == y
  {
    var ls, q := SentLetters(w, u, v), Collect(QueuedSel(u, v), w.log);
    StampsOfLetters(w.log, u, v);
    var i :| 0 <= i < |ls| && ls[i] == x;
    var j :| 0 <= j < |ls| && ls[j] == y;
    if i < j {
      CountTwice(q, i, j);
    } else if j < i {
      CountTwice(q, j, i);
    }
  }

  /** What an encrypted envelope from `u` carries. */
  function CarriedSel(u: User): Envelope -> seq<Letter> {
    (e: Envelope) =>
      if e.body.PreKeyed? && e.sender == u then [Letter(e.body.first.ciphertext.plaintext, e.timestamp)]
      else if e.body.Sealing? && e.sender == u then [Letter(e.body.msg.ciphertext.plaintext, e.timestamp)]
      else []
  }

  /** What `v` decrypted from `u`. */
  function ReadLetterSel(u: User, v: User): Event -> seq<Letter> {
    (e: Event) =>
      if e.Opened? && e.result.Ok? && e.from == u && e.to == v then [Letter(e.result.value, e.timestamp)] else []
  }

  ghost predicate AllIn(xs: seq<Letter>, ys: seq<Letter>) {
    forall i :: 0 <= i < |xs| ==> xs[i] in ys
  }

  /** What is on its way from `u` to `v`, and what `v` has decrypted, was sent by `u` to `v`. */
  ghost predicate Genuine(w: World, u: User, v: User) {
    && AllIn(InTransit(CarriedSel(u), w.sys, v), SentLetters(w, u, v))
    && AllIn(Collect(ReadLetterSel(u, v), w.log), SentLetters(w, u, v))
  }

  lemma {:induction false} PostingCarries(sys: System, act: Action, u: User)
    requires (act.Chat? || act.Pushing?) && Reachable(sys, act)
    ensures var carried := CarriedSel(u)(Posting(sys, act));
      carried == [] || (act.user == u && carried == [Letter(act.text, act.timestamp)])
  {
  }

  /** A send puts in the mail what it logs. */
  lemma {:induction false} SendGenuine(w: World, act: Action, u: User, v: User)
    requires (act.Chat? || act.Pushing?) && Named(w.sys) && Genuine(w, u, v)
    ensures Genuine(Step(w, act), u, v)
  {
    var event := Queued(act.user, act.to, act.text, act.timestamp);
    TransitAfterSend(CarriedSel(u), w, act, v);
    if Reachable(w.sys, act) {
      CollectSnoc(SentSel(u, v), w.log, event);
      CollectSnoc(ReadLetterSel(u, v), w.log, event);
      PostingCarries(w.sys, act, u);
      var sent, transit := SentLetters(w, u, v), InTransit(CarriedSel(u), w.sys, v);
      var carried := if act.to == v then CarriedSel(u)(Posting(w.sys, act)) else [];
      assert transit + [] == transit;
      SentMore(transit, carried, sent, SentSel(u, v)(event));
      SentMore(Collect(ReadLetterSel(u, v), w.log), [], sent, SentSel(u, v)(event));
      assert Collect(ReadLetterSel(u, v), w.log) + [] == Collect(ReadLetterSel(u, v), w.log);
    }
  }

  lemma {:induction false} SentMore(xs: seq<Letter>, more: seq<Letter>, sent: seq<Letter>, added: seq<Letter>)
    requires AllIn(xs, sent) && AllIn(more, added)
    ensures AllIn(xs + more, sent + added)
  {
  }

  lemma {:induction false} PollGenuine(w: World, x: User, now: nat, u: User, v: User)
    requires x in w.sys.clients && Genuine(w, u, v)
    ensures Genuine(Step(w, Polling(x, now)), u, v)
  {
    var mail := Pending(w.sys.relay, x);
    TransitAfterPoll(CarriedSel(u), w, x, now, v);
    ReceiptsNotSelected(CarriedSel(u), x, mail, now, v);
    CollectFetchEvents(SentSel(u, v), w.log, x, mail);
    CollectFetchEvents(ReadLetterSel(u, v), w.log, x, mail);
  }

  /** Decryption yields what the envelope carries, or fails. */
  lemma {:induction false} HandleReads(c: ClientState, r: RelayState, e: Envelope, now: nat, u: User, v: User)
    ensures var event := Handle(c, r, e, now).2;
      && SentSel(u, v)(event) == []
      && (ReadLetterSel(u, v)(event) == [] || (c.user == v && ReadLetterSel(u, v)(event) == CarriedSel(u)(e)))
  {
  }

  lemma {:induction false} HandleGenuine(w: World, x: User, now: nat, u: User, v: User)
    requires x in w.sys.clients && Batch(w.sys, x) != [] && Named(w.sys) && Genuine(w, u, v)
    ensures Genuine(Step(w, Handling(x, now)), u, v)
  {
    var e, c := Batch(w.sys, x)[0], w.sys.clients[x];
    var event := Handle(c, w.sys.relay, e, now).2;
    HandleReads(c, w.sys.relay, e, now, u, v);
    TransitAfterHandle(CarriedSel(u), w, x, now, v);
    assert CarriedSel(u)(ReadReceipt(c.user, e, now)) == [];
    assert InTransit(CarriedSel(u), w.sys, v) + [] == InTransit(CarriedSel(u), w.sys, v);
    EventGenuine(w, Step(w, Handling(x, now)), event, if x == v then CarriedSel(u)(e) else [], u, v);
  }

  lemma {:induction false} EventGenuine(w: World, w': World, event: Event, taken: seq<Letter>, u: User, v: User)
    requires Genuine(w, u, v) && w'.log == w.log + [event]
    requires InTransit(CarriedSel(u), w.sys, v) == taken + InTransit(CarriedSel(u), w'.sys, v)
    requires SentSel(u, v)(event) == []
    requires ReadLetterSel(u, v)(event) == [] || ReadLetterSel(u, v)(event) == taken
    ensures Genuine(w', u, v)
  {
    CollectSnoc(SentSel(u, v), w.log, event);
    CollectSnoc(ReadLetterSel(u, v), w.log, event);
    TakenGenuine(InTransit(CarriedSel(u), w.sys, v), taken, InTransit(CarriedSel(u), w'.sys, v), SentLetters(w, u, v));
  }

  lemma {:induction false} TakenGenuine(before: seq<Letter>, taken: seq<Letter>, after: seq<Letter>, sent: seq<Letter>)
    requires AllIn(before, sent) && before == taken + after
    ensures AllIn(taken, sent) && AllIn(after, sent)
  {
    assert forall i :: 0 <= i < |taken| ==> taken[i] == before[i];
    assert forall i :: 0 <= i < |after| ==> after[i] == before[|taken| + i];
  }

  lemma {:induction false} StepGenuine(w: World, act: Action, w': World, u: User, v: User)
    requires Named(w.sys) && Genuine(w, u, v) && w' == Step(w, act)
    ensures Genuine(w', u, v)
  {
    match act
    case Polling(x, now) =>
      if x in w.sys.clients {
        PollGenuine(w, x, now, u, v);
      }
    case Handling(x, now) =>
      if x in w.sys.clients && Batch(w.sys, x) != [] {
        HandleGenuine(w, x, now, u, v);
      }
    case _ =>
      SendGenuine(w, act, u, v);
  }

  /** In every run at all, whatever decrypts is what was sent from that user to that user with that
      timestamp. */
  lemma {:induction false} AlwaysGenuine(ws: seq<World>, acts: seq<Action>, k: nat, u: User, v: User)
    requires IsRun(ws, acts) && k <= |acts|
    ensures Genuine(ws[k], u, v)
  {
    if k > 0 {
      var i := k - 1;
      AlwaysGenuine(ws, acts, i, u, v);
      RunKeepsClients(ws, acts, i);
      RunStep(ws, acts, k);
      StepGenuine(ws[i], acts[i], ws[k], u, v);
    }
  }

  /** A message that was read was opened to the letter its sender recorded. */
  lemma {:induction false} ReadMeansOpened(ws: seq<World>, acts: seq<Action>, k: nat, u: User, v: User, l: Letter)
    requires IsRun(ws, acts) && k <= |acts| && AccountOf(ws[k], u, v, l.timestamp).queued <= 1
    requires l in SentLetters(ws[k], u, v) && l.timestamp in StampsOf(ws[k].log, u, v).read
    ensures exists stepped :: Opened(u, v, l.timestamp, Ok(l.text), stepped) in ws[k].log
  {
    AlwaysGenuine(ws, acts, k, u, v);
    GenuineRead(ws[k], u, v, l);
  }

  lemma {:induction false} GenuineRead(w: World, u: User, v: User, l: Letter)
    requires Genuine(w, u, v) && Count(Collect(QueuedSel(u, v), w.log), l.timestamp) <= 1
    requires l in SentLetters(w, u, v) && l.timestamp in Collect(ReadSel(u, v), w.log)
    ensures exists stepped :: Opened(u, v, l.timestamp, Ok(l.text), stepped) in w.log
  {
    var ls := SentLetters(w, u, v);
    var event := CollectSource(ReadSel(u, v), w.log, l.timestamp);
    var x := Letter(event.result.value, event.timestamp);
    CollectMember(ReadLetterSel(u, v), w.log, event, x);
    assert x in ls;
    OneLetterPerStamp(w, u, v, x, l);
    assert event == Opened(u, v, l.timestamp, Ok(l.text), event.stepped);
  }

  /** A timestamp queued once is not reused. */
  lemma {:induction false} OnceIsInTime(ws: seq<World>, acts: seq<Action>, k: nat, u: User, v: User, ts: nat)
    requires IsRun(ws, acts) && k <= |acts| && u in ws[0].sys.clients && AccountOf(ws[k], u, v, ts).queued <= 1
    ensures NoLateReuse(ws, acts, k, u, v, ts)
  {
    if k > 0 {
      var i := k - 1;
      OnceStep(ws, acts, i, u, v, ts);
      assert ws[i + 1] == ws[k];
      OnceIsInTime(ws, acts, i, u, v, ts);
    }
  }

  lemma {:induction false} OnceStep(ws: seq<World>, acts: seq<Action>, i: nat, u: User, v: User, ts: nat)
    requires IsRun(ws, acts) && i < |acts| && u in ws[0].sys.clients && AccountOf(ws[i + 1], u, v, ts).queued <= 1
    ensures AccountOf(ws[i], u, v, ts).queued <= 1 && InTime(ws[i], acts[i], u, v, ts)
  {
    RunAccountStep(ws, acts, i, u, v, ts);
    AccountStep(ws[i], acts[i], ws[i + 1], u, v, ts);
    if Sends(acts[i], u, v, ts) {
      CountPositive(StampsOf(ws[i].log, u, v).fetched, ts);
      FetchedIsReachable(ws, acts, i, u, v, ts);
      SendAccount(ws[i], acts[i], ws[i + 1], u, v, ts);
    }
  }

  /** Users who fetch are registered, so they can be sent to. */
  lemma {:induction false} FetchedIsReachable(ws: seq<World>, acts: seq<Action>, k: nat, u: User, v: User, ts: nat)
    requires IsRun(ws, acts) && k < |acts| && u in ws[0].sys.clients && Sends(acts[k], u, v, ts)
    ensures ts in StampsOf(ws[k].log, u, v).fetched ==> Reachable(ws[k].sys, acts[k])
  {
    RunKeepsClients(ws, acts, k);
    if v !in ws[0].sys.clients {
      AbsentFetchNothing(ws, acts, k, u, v, ts);
      CountPositive(StampsOf(ws[k].log, u, v).fetched, ts);
    }
  }

  /** Only registered users fetch. */
  lemma {:induction false} AbsentFetchNothing(ws: seq<World>, acts: seq<Action>, k: nat, u: User, v: User, ts: nat)
    requires IsRun(ws, acts) && k <= |acts| && v !in ws[0].sys.clients
    ensures AccountOf(ws[k], u, v, ts).fetched == 0
  {
    if k > 0 {
      var i := k - 1;
      AbsentFetchNothing(ws, acts, i, u, v, ts);
      RunKeepsClients(ws, acts, i);
      RunAccountStep(ws, acts, i, u, v, ts);
      assert ws[i + 1] == ws[k];
      AccountStep(ws[i], acts[i], ws[k], u, v, ts);
    }
  }

  /** In every reachable world of every run, crossed sessions included: a message whose timestamp no
      other message of the pair carries and which is shown as Read was decrypted by its recipient's
      client to exactly the text the sender recorded; and one shown as Delivered or Read was handed
      to its recipient. */
  lemma {:induction false} StatusIsTruthful(ws: seq<World>, acts: seq<Action>, k: nat, u: User, i: nat)
    requires IsRun(ws, acts) && k <= |acts| && HasRecord(ws[k], u, i)
    requires AccountOf(ws[k], u, Record(ws[k], u, i).recipient, Record(ws[k], u, i).timestamp).queued <= 1
    ensures var m := Record(ws[k], u, i);
      && (m.status != Sent ==> Fetched(u, m.recipient, m.timestamp) in ws[k].log)
      && (m.status == Read ==>
            exists stepped :: Opened(u, m.recipient, m.timestamp, Ok(m.text), stepped) in ws[k].log)
  {
    var m := Record(ws[k], u, i);
    var v, ts := m.recipient, m.timestamp;
    RunKeepsClients(ws, acts, k);
    OnceIsInTime(ws, acts, k, u, v, ts);
    AlwaysShows(ws, acts, k, u, i);
    AppliedSorted(ws, acts, k, u, v, ts);
    StagesConserved(ws, acts, k, u, v);
    StageCounts(ws[k], u, v, ts);
    var s, acc, acks := StampsOf(ws[k].log, u, v), AccountOf(ws[k], u, v, ts), Applied(ws[k], u, v, ts);
    SortedAdvances(acc.fetched, acc.read, acks, acks);
    CountPositive(s.fetched, ts);
    CountPositive(s.read, ts);
    if m.status != Sent {
      var event := CollectSource(FetchedSel(u, v), ws[k].log, ts);
      assert event == Fetched(u, v, ts);
    }
    if m.status == Read {
      ReadMeansOpened(ws, acts, k, u, v, Letter(m.text, ts));
    }
  }
}
