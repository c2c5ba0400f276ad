/** Encrypted mail to oneself: of it, exactly the message that opens a session is ever decrypted. */
module OwnMail {
  import opened Crypto
  import opened Ratchets
  import opened Sessions
  import opened Relays
  import opened Clients
  import opened Messaging
  import opened EndToEnd
  import opened Receipts
  import opened Runs
  import opened Accounts

  /** A message to oneself that opens a session. */
  predicate IsOwn(e: Envelope, u: User, ts: nat) {
    e.body.PreKeyed? && e.sender == u && e.timestamp == ts
  }

  predicate OpensOwn(es: seq<Envelope>, u: User, ts: nat) {
    exists i :: 0 <= i < |es| && IsOwn(es[i], u, ts)
  }

  /** A message that opens a session with oneself and does not decrypt. */
  function MisfitSel(u: User, pre: KeyPair): Envelope -> seq<Envelope> {
    (e: Envelope) =>
      if e.body.PreKeyed? && e.sender == u &&
         !DecryptStep(NewResponder(pre.Agree(e.body.baseKey), e.body.baseKey, pre), MessageIn(e)).1.Ok?
      then [e] else []
  }

  /** There is none, and the pre-key is this one. */
  ghost predicate OwnFits(w: World, u: User, pre: KeyPair) {
    u in w.sys.clients && w.sys.clients[u].preKey == pre && InTransit(MisfitSel(u, pre), w.sys, u) == []
  }

  lemma {:induction false} PostingFits(sys: System, act: Action, u: User, pre: KeyPair)
    requires (act.Chat? || act.Pushing?) && Reachable(sys, act) && Named(sys) && act.to == u
    requires u in sys.clients && sys.clients[u].preKey == pre
    ensures MisfitSel(u, pre)(Posting(sys, act)) == []
  {
    AgreeCommutes(act.eph, pre);
  }

  lemma {:induction false} SendFits(w: World, act: Action, u: User, pre: KeyPair)
    requires (act.Chat? || act.Pushing?) && Named(w.sys) && OwnFits(w, u, pre)
    ensures OwnFits(Step(w, act), u, pre)
  {
    TransitAfterSend(MisfitSel(u, pre), w, act, u);
    if Reachable(w.sys, act) && act.to == u {
      PostingFits(w.sys, act, u, pre);
    }
  }

  lemma {:induction false} HandleFits(w: World, x: User, now: nat, u: User, pre: KeyPair)
    requires x in w.sys.clients && Batch(w.sys, x) != [] && Named(w.sys) && OwnFits(w, u, pre)
    ensures OwnFits(Step(w, Handling(x, now)), u, pre)
  {
    var e, c := Batch(w.sys, x)[0], w.sys.clients[x];
    TransitAfterHandle(MisfitSel(u, pre), w, x, now, u);
    HandleRelay(c, w.sys.relay, e, now);
    assert MisfitSel(u, pre)(ReadReceipt(c.user, e, now)) == [];
  }

  lemma {:induction false} StepFits(w: World, act: Action, w': World, u: User, pre: KeyPair)
    requires Named(w.sys) && OwnFits(w, u, pre) && w' == Step(w, act)
    ensures OwnFits(w', u, pre)
  {
    match act
    case Polling(x, now) =>
      if x in w.sys.clients {
        TransitAfterPoll(MisfitSel(u, pre), w, x, now, u);
        ReceiptsNotSelected(MisfitSel(u, pre), x, Pending(w.sys.relay, x), now, u);
      }
    case Handling(x, now) =>
      if x in w.sys.clients && Batch(w.sys, x) != [] {
        HandleFits(w, x, now, u, pre);
      }
    case _ =>
      SendFits(w, act, u, pre);
  }

  lemma {:induction false} AlwaysFits(ws: seq<World>, acts: seq<Action>, k: nat, u: User)
    requires IsRun(ws, acts) && k <= |acts| && u in ws[0].sys.clients
    ensures OwnFits(ws[k], u, ws[0].sys.clients[u].preKey)
  {
    if k > 0 {
      var i := k - 1;
      AlwaysFits(ws, acts, i, u);
      RunKeepsClients(ws, acts, i);
      RunStep(ws, acts, k);
      StepFits(ws[i], acts[i], ws[k], u, ws[0].sys.clients[u].preKey);
    }
  }

  /** Of the mail to oneself, exactly what opens a session is read. */
  lemma {:induction false} OwnIsRead(w: World, u: User, now: nat, w': World, pre: KeyPair, ts: nat)
    requires Named(w.sys) && OwnFits(w, u, pre) && Batch(w.sys, u) != [] && w' == Step(w, Handling(u, now))
    ensures var acc := AccountOf(w, u, u, ts);
      AccountOf(w', u, u, ts) == if IsOwn(Batch(w.sys, u)[0], u, ts)
                                 then acc.(read := acc.read + 1, earned := acc.earned + [Reading]) else acc
    ensures Batch(w'.sys, u) == Batch(w.sys, u)[1..]
  {
    var e, c := Batch(w.sys, u)[0], w.sys.clients[u];
    var event := Handle(c, w.sys.relay, e, now).2;
    assert MisfitSel(u, pre)(e) == [];
    OwnEvent(c, w.sys.relay, e, now, ts);
    EventAccount(w, w', event, u, u, ts);
  }

  lemma {:induction false} OwnEvent(c: ClientState, r: RelayState, e: Envelope, now: nat, ts: nat)
    requires MisfitSel(c.user, c.preKey)(e) == []
    ensures var event := Handle(c, r, e, now).2;
      && !event.Fetched? && !event.Queued?
      && (ReadSel(c.user, c.user)(event) == [ts] <==> IsOwn(e, c.user, ts))
  {
  }

  /** A client handles all it has fetched, and reads its own message. */
  lemma {:induction false} ReadOwn(ws: seq<World>, acts: seq<Action>, u: User, ts: nat)
    returns (ws': seq<World>, acts': seq<Action>)
    requires IsRun(ws, acts) && u in ws[0].sys.clients
    requires AccountOf(ws[|acts|], u, u, ts).read > 0 || OpensOwn(Batch(ws[|acts|].sys, u), u, ts)
    ensures Extends(ws, acts, ws', acts') && OnlyHandling(acts', |acts|, u)
    ensures Batch(ws'[|acts'|].sys, u) == [] && AccountOf(ws'[|acts'|], u, u, ts).read > 0
    decreases |Batch(ws[|acts|].sys, u)|
  {
    ws', acts' := ws, acts;
    var w := ws[|acts|];
    if Batch(w.sys, u) != [] {
      var ws1, acts1 := HandleOwn(ws, acts, u, ts);
      ws', acts' := ReadOwn(ws1, acts1, u, ts);
    }
  }

  lemma {:induction false} HandleOwn(ws: seq<World>, acts: seq<Action>, u: User, ts: nat)
    returns (ws': seq<World>, acts': seq<Action>)
    requires IsRun(ws, acts) && u in ws[0].sys.clients && Batch(ws[|acts|].sys, u) != []
    requires AccountOf(ws[|acts|], u, u, ts).read > 0 || OpensOwn(Batch(ws[|acts|].sys, u), u, ts)
    ensures Extends(ws, acts, ws', acts') && acts' == acts + [Handling(u, 0)]
    ensures Batch(ws'[|acts'|].sys, u) == Batch(ws[|acts|].sys, u)[1..]
    ensures AccountOf(ws'[|acts'|], u, u, ts).read > 0 || OpensOwn(Batch(ws'[|acts'|].sys, u), u, ts)
  {
    var w := ws[|acts|];
    RunKeepsClients(ws, acts, |acts|);
    AlwaysFits(ws, acts, |acts|, u);
    OwnLeft(Batch(w.sys, u), u, ts);
    ws', acts' := Extend(ws, acts, Handling(u, 0));
    OwnIsRead(w, u, 0, ws'[|acts'|], ws[0].sys.clients[u].preKey, ts);
  }

  lemma {:induction false} OwnLeft(es: seq<Envelope>, u: User, ts: nat)
    requires es != []
    ensures OpensOwn(es, u, ts) <==> IsOwn(es[0], u, ts) || OpensOwn(es[1..], u, ts)
  {
    if i :| 0 <= i < |es[1..]| && IsOwn(es[1..][i], u, ts) {
      assert es[i + 1] == es[1..][i];
    }
    if i :| 1 <= i < |es| && IsOwn(es[i], u, ts) {
      assert es[1..][i - 1] == es[i];
    }
  }
}
