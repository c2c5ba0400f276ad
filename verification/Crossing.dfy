/** What happens when both users of a pair start a session: a second invariant, which together
    with the first describes every pair in every run, and from it exactly when a pair can lose
    messages, and which.
 */
module Crossing {
  import opened Sequences
  import opened Clients
  import opened Crypto
  import opened Ratchets
  import opened Sessions
  import opened Relays
  import opened Messaging
  import opened EndToEnd
  import opened Runs

  // ── A crossed pair ──────────────────────────────────────────────────────

  /** Where a chain started. */
  function Root(k: Key): Key {
    if k.Next? then Root(k.chain) else k
  }

  lemma {:induction false} RootOfNextN(k: Key, n: nat)
    ensures Root(NextN(k, n)) == Root(k)
  {
    if n > 0 {
      RootOfNextN(k, n - 1);
    }
  }

  /** The chain of an initiator's messages. */
  function FirstChain(eph: KeyPair, peerPre: KeyPair): Key {
    ChainHalf(eph.Agree(peerPre.PublicKey()), eph.PublicKey())
  }

  /** Letter `j` as it travels: the first `n` under the sender's own session, the rest under the
      responder session that replaced it. */
  predicate Travels(e: Envelope, l: Letter, j: nat, pre: KeyPair, peerPre: KeyPair, eph: KeyPair, n: nat) {
    if j < n then Carries(e, l, MessageKey(NextN(FirstChain(eph, peerPre), j)), eph.PublicKey(), j == 0)
    else Carries(e, l, MessageKey(NextN(Zero, j - n)), pre.PublicKey(), false)
  }

  /** Letter `j` once opened: the first `n` come out as sent, the rest do not decrypt. */
  predicate Comes(o: Opening, l: Letter, j: nat, n: nat) {
    if j < n then o == Opening(l.timestamp, Ok(l.text), false) else o.timestamp == l.timestamp && o.result == Err
  }

  /** One direction of a crossed pair. */
  ghost predicate Way(sent: seq<Letter>, done: seq<Opening>, flight: seq<Envelope>, pre: KeyPair, peerPre: KeyPair,
                      eph: KeyPair, n: nat)
  {
    && 1 <= n <= |sent|
    && |done| + |flight| == |sent|
    && (forall i :: 0 <= i < |done| ==> Comes(done[i], sent[i], i, n))
    && (forall i :: 0 <= i < |flight| ==> Travels(flight[i], sent[|done| + i], |done| + i, pre, peerPre, eph, n))
  }

  /** One end of a crossed pair: its own initiator session until it hears from the peer, and from
      then on a responder session, which sends under a chain from zero and receives under one that
      never is. */
  predicate End(s: RatchetState, pre: KeyPair, peerPre: KeyPair, eph: KeyPair, peerEph: KeyPair, sent: nat, n: nat,
                heard: nat, peerN: nat)
  {
    && n <= sent
    && if heard == 0 then n == sent && s == LeaderRatchet(eph, peerPre.PublicKey(), n, 0)
       else
         && s.dhKey == pre && !s.isInitiator
         && s.sendChain == NextN(Zero, sent - n) && Root(s.recvChain).ChainHalf?
         && (heard <= peerN ==>
               s.theirKey == peerEph.PublicKey() && s.recvChain == NextN(FirstChain(peerEph, pre), heard))
  }

  /** Both users started a session, with these ephemeral keys; `n` and `m` letters were sent before
      their sender heard from the other. */
  ghost predicate CrossedAt(v: View, ephA: KeyPair, ephB: KeyPair, n: nat, m: nat) {
    && v.sa.Some? && v.sb.Some?
    && Way(v.sentAB, v.openAB, v.flightAB, v.preA, v.preB, ephA, n)
    && Way(v.sentBA, v.openBA, v.flightBA, v.preB, v.preA, ephB, m)
    && End(v.sa.value, v.preA, v.preB, ephA, ephB, |v.sentAB|, n, |v.openBA|, m)
    && End(v.sb.value, v.preB, v.preA, ephB, ephA, |v.sentBA|, m, |v.openAB|, n)
  }

  /** How many letters a sender has sent under its own session, after one more step. */
  function Early(n: nat, sent: nat, heard: nat): nat {
    if heard == 0 then sent else n
  }

  /** A send that starts a session with a peer that has one crosses a pair that was in step. */
  lemma {:induction false} SendCrosses(v: View, eph: KeyPair, l: Letter, nonce: nat, e: Envelope)
    requires InStep(v) && v.sa.None? && v.sb.Some? && Posted(v, eph, l, nonce, e)
    ensures v.openAB == [] && v.openBA == []
    ensures CrossedAt(AfterSend(v, EncryptStep(Sender(v, eph), l.text, nonce).0, l, e), eph, v.sb.value.dhKey,
                      1, |v.sentBA|)
  {
    var v' := AfterSend(v, EncryptStep(Sender(v, eph), l.text, nonce).0, l, e);
    var ephB := v.sb.value.dhKey;
    assert Leads(Swap(v)) && v.openBA == [];
    assert NextN(FirstChain(eph, v.preB), 0) == FirstChain(eph, v.preB);
    assert Travels(e, l, 0, v.preA, v.preB, eph, 1);
    assert NextN(FirstChain(eph, v.preB), 1) == Next(FirstChain(eph, v.preB));
    assert BumpN(0, 1) == 1 && BumpN(0, 0) == 0 && NextN(Zero, 0) == Zero;
    assert v'.sa.value == LeaderRatchet(eph, v.preB.PublicKey(), 1, 0);
    forall i | 0 <= i < |v.flightBA|
      ensures Travels(v.flightBA[i], v.sentBA[0 + i], 0 + i, v.preB, v.preA, ephB, |v.sentBA|)
    {
    }
  }

  /** Further letters: under the own session as long as nothing was heard. */
  lemma {:induction false} CrossedSend(v: View, ephA: KeyPair, ephB: KeyPair, n: nat, m: nat, eph: KeyPair, l: Letter,
                                       nonce: nat, e: Envelope)
    requires CrossedAt(v, ephA, ephB, n, m) && Posted(v, eph, l, nonce, e)
    ensures CrossedAt(AfterSend(v, EncryptStep(Sender(v, eph), l.text, nonce).0, l, e), ephA, ephB,
                      Early(n, |v.sentAB| + 1, |v.openBA|), m)
  {
    var n' := Early(n, |v.sentAB| + 1, |v.openBA|);
    WaySend(v.sentAB, v.openAB, v.flightAB, v.preA, v.preB, ephA, n, n', l, e);
    assert BumpN(0, |v.sentAB| + 1) == Bump(BumpN(0, |v.sentAB|));
  }

  lemma {:induction false} WaySend(sent: seq<Letter>, done: seq<Opening>, flight: seq<Envelope>, pre: KeyPair,
                                   peerPre: KeyPair, eph: KeyPair, n: nat, n': nat, l: Letter, e: Envelope)
    requires Way(sent, done, flight, pre, peerPre, eph, n)
    requires n' == n || n' == n + 1 == |sent| + 1
    requires Travels(e, l, |sent|, pre, peerPre, eph, n')
    ensures Way(sent + [l], done, flight + [e], pre, peerPre, eph, n')
  {
    var sent', flight' := sent + [l], flight + [e];
    forall i | 0 <= i < |flight'|
      ensures Travels(flight'[i], sent'[|done| + i], |done| + i, pre, peerPre, eph, n')
    {
      if i < |flight| {
        assert Travels(flight[i], sent[|done| + i], |done| + i, pre, peerPre, eph, n);
      }
    }
    forall i | 0 <= i < |done| ensures Comes(done[i], sent'[i], i, n') {
      assert Comes(done[i], sent[i], i, n);
    }
  }

  lemma {:induction false} WayOpen(sent: seq<Letter>, done: seq<Opening>, flight: seq<Envelope>, pre: KeyPair,
                                   peerPre: KeyPair, eph: KeyPair, n: nat, o: Opening)
    requires Way(sent, done, flight, pre, peerPre, eph, n) && flight != []
    requires Comes(o, sent[|done|], |done|, n)
    ensures Way(sent, done + [o], flight[1..], pre, peerPre, eph, n)
  {
    var rest, k := flight[1..], |done| + 1;
    forall i | 0 <= i < |rest| ensures Travels(rest[i], sent[k + i], k + i, pre, peerPre, eph, n) {
      var j := i + 1;
      assert rest[i] == flight[j] && k + i == |done| + j;
      assert Travels(flight[j], sent[|done| + j], |done| + j, pre, peerPre, eph, n);
    }
  }

  /** The session the end `b` opens letter `heard` of `a` with. */
  function Opener(s: RatchetState, pre: KeyPair, eph: KeyPair, heard: nat): RatchetState {
    if heard == 0 then NewResponder(pre.Agree(eph.PublicKey()), eph.PublicKey(), pre) else s
  }

  /** Opening letter `heard` of the peer: it comes out as sent if it is one of the first `peerN`,
      and does not decrypt otherwise. */
  lemma {:induction false} EndOpens(s: RatchetState, pre: KeyPair, peerPre: KeyPair, eph: KeyPair, peerEph: KeyPair,
                                    sent: nat, n: nat, heard: nat, peerN: nat, e: Envelope, l: Letter)
    requires End(s, pre, peerPre, eph, peerEph, sent, n, heard, peerN) && peerN >= 1
    requires Travels(e, l, heard, peerPre, pre, peerEph, peerN)
    ensures var r := Opener(s, pre, peerEph, heard);
      var (s', result) := DecryptStep(r, MessageIn(e));
      && Comes(Opening(e.timestamp, result, MessageIn(e).ratchetKey != r.theirKey), l, heard, peerN)
      && End(s', pre, peerPre, eph, peerEph, sent, n, heard + 1, peerN)
  {
    var chain := FirstChain(peerEph, pre);
    var r := Opener(s, pre, peerEph, heard);
    AgreeCommutes(peerEph, pre);
    RootOfNextN(chain, heard);
    if heard < peerN {
      assert r.recvChain == NextN(chain, heard) && r.theirKey == peerEph.PublicKey();
      assert NextN(chain, heard + 1) == Next(NextN(chain, heard));
    } else {
      var a := Adopt(r, MessageIn(e).ratchetKey);
      RootOfNextN(Zero, heard - peerN);
      assert Root(a.recvChain).ChainHalf?;
    }
  }

  /** A crossed pair stays crossed when `b` opens the next letter of `a`, whatever comes of it. */
  lemma {:induction false} CrossedOpen(v: View, ephA: KeyPair, ephB: KeyPair, n: nat, m: nat)
    requires CrossedAt(v, ephA, ephB, n, m) && v.flightAB != []
    ensures var e := v.flightAB[0];
      && e.device == 1 && (e.body.PreKeyed? || e.body.Sealing?) && Receiver(v, e).Some?
      && (e.body.Sealing? || DecryptStep(Receiver(v, e).value, MessageIn(e)).1.Ok?)
      && CrossedAt(AfterOpen(v), ephA, ephB, n, m)
  {
    var e, j := v.flightAB[0], |v.openAB|;
    assert Travels(e, v.sentAB[j + 0], j + 0, v.preA, v.preB, ephA, n);
    EndOpens(v.sb.value, v.preB, v.preA, ephB, ephA, |v.sentBA|, m, j, n, e, v.sentAB[j]);
    assert Receiver(v, e) == Some(Opener(v.sb.value, v.preB, ephA, j));
    WayOpen(v.sentAB, v.openAB, v.flightAB, v.preA, v.preB, ephA, n, AfterOpen(v).openAB[j]);
  }

  // ── Steps of the system ─────────────────────────────────────────────────

  lemma {:induction false} CrossedSwaps(v: View, ephA: KeyPair, ephB: KeyPair, n: nat, m: nat)
    ensures CrossedAt(v, ephA, ephB, n, m) <==> CrossedAt(Swap(v), ephB, ephA, m, n)
  {
  }

  /** `b` handles the next message of `a`. */
  lemma {:induction false} CrossedHandle(w: World, now: nat, a: User, b: User, ephA: KeyPair, ephB: KeyPair, n: nat,
                                         m: nat)
    requires a != b && a in w.sys.clients && b in w.sys.clients && Named(w.sys)
    requires CrossedAt(ViewOf(w, a, b), ephA, ephB, n, m)
    requires Batch(w.sys, b) != [] && IsChat(Batch(w.sys, b)[0]) && Batch(w.sys, b)[0].sender == a
    ensures var w' := Step(w, Handling(b, now));
      a in w'.sys.clients && b in w'.sys.clients && CrossedAt(ViewOf(w', a, b), ephA, ephB, n, m)
  {
    assert ViewOf(w, a, b).flightAB[0] == Batch(w.sys, b)[0];
    CrossedOpen(ViewOf(w, a, b), ephA, ephB, n, m);
    HandleView(w, now, a, b);
  }

  /** `a` sends to `b`. */
  lemma {:induction false} CrossedSendStep(w: World, act: Action, ephA: KeyPair, ephB: KeyPair, n: nat, m: nat)
    requires (act.Chat? || act.Pushing?) && act.user != act.to && Named(w.sys)
    requires act.user in w.sys.clients && act.to in w.sys.clients
    requires CrossedAt(ViewOf(w, act.user, act.to), ephA, ephB, n, m)
    ensures var w', v := Step(w, act), ViewOf(w, act.user, act.to);
      && act.user in w'.sys.clients && act.to in w'.sys.clients
      && |ViewOf(w', act.user, act.to).sentAB| == |v.sentAB| + 1
      && ViewOf(w', act.user, act.to).openBA == v.openBA
      && CrossedAt(ViewOf(w', act.user, act.to), ephA, ephB, Early(n, |v.sentAB| + 1, |v.openBA|), m)
  {
    SendHere(w, act);
    CrossedSend(ViewOf(w, act.user, act.to), ephA, ephB, n, m, act.eph, Letter(act.text, act.timestamp), act.nonce,
                Posting(w.sys, act));
  }

  /** The first step that crosses a pair. */
  lemma {:induction false} CrossingStep(w: World, act: Action)
    requires (act.Chat? || act.Pushing?) && act.user != act.to && Named(w.sys)
    requires PairInStep(w, act.user, act.to) && !OneInitiator(w, act)
    ensures var w' := Step(w, act);
      && act.user in w'.sys.clients && act.to in w'.sys.clients
      && var v' := ViewOf(w', act.user, act.to);
         && v'.openAB == [] && v'.openBA == []
         && exists ephA, ephB :: CrossedAt(v', ephA, ephB, |v'.sentAB|, |v'.sentBA|)
  {
    var v, l := ViewOf(w, act.user, act.to), Letter(act.text, act.timestamp);
    SendHere(w, act);
    SendCrosses(v, act.eph, l, act.nonce, Posting(w.sys, act));
    assert v.sentAB == [];
    var v' := ViewOf(Step(w, act), act.user, act.to);
    assert CrossedAt(v', act.eph, v.sb.value.dhKey, |v'.sentAB|, |v'.sentBA|);
  }

  /** Crossed with the same keys, and counts that grow only while nothing is heard. */
  ghost predicate Still(v: View, ephA: KeyPair, ephB: KeyPair, n: nat, m: nat) {
    CrossedAt(v, ephA, ephB, Early(n, |v.sentAB|, |v.openBA|), Early(m, |v.sentBA|, |v.openAB|))
  }

  lemma {:induction false} CrossedIsStill(v: View, ephA: KeyPair, ephB: KeyPair, n: nat, m: nat)
    requires CrossedAt(v, ephA, ephB, n, m)
    ensures Still(v, ephA, ephB, n, m) && Still(Swap(v), ephB, ephA, m, n)
  {
    CrossedSwaps(v, ephA, ephB, n, m);
  }

  lemma {:induction false} HandleKeepsCrossed(w: World, u: User, now: nat, w': World, a: User, b: User, ephA: KeyPair,
                                              ephB: KeyPair, n: nat, m: nat)
    requires a != b && a in w.sys.clients && b in w.sys.clients && Named(w.sys) && w' == Step(w, Handling(u, now))
    requires u in w.sys.clients && Batch(w.sys, u) != []
    requires CrossedAt(ViewOf(w, a, b), ephA, ephB, n, m)
    ensures a in w'.sys.clients && b in w'.sys.clients && CrossedAt(ViewOf(w', a, b), ephA, ephB, n, m)
  {
    var e := Batch(w.sys, u)[0];
    if IsChat(e) && u == b && e.sender == a {
      CrossedHandle(w, now, a, b, ephA, ephB, n, m);
    } else if IsChat(e) && u == a && e.sender == b {
      assert ViewOf(w, b, a) == Swap(ViewOf(w, a, b));
      CrossedSwaps(ViewOf(w, a, b), ephA, ephB, n, m);
      CrossedHandle(w, now, b, a, ephB, ephA, m, n);
      CrossedSwaps(ViewOf(w', b, a), ephB, ephA, m, n);
      assert ViewOf(w', a, b) == Swap(ViewOf(w', b, a));
    } else {
      HandleElsewhere(w, u, now, a, b);
    }
  }

  lemma {:induction false} SendKeepsCrossed(w: World, act: Action, w': World, a: User, b: User, ephA: KeyPair,
                                            ephB: KeyPair, n: nat, m: nat)
    requires a != b && a in w.sys.clients && b in w.sys.clients && Named(w.sys) && w' == Step(w, act)
    requires (act.Chat? || act.Pushing?) && act.user == a && act.to == b
    requires CrossedAt(ViewOf(w, a, b), ephA, ephB, n, m)
    ensures a in w'.sys.clients && b in w'.sys.clients && Still(ViewOf(w', a, b), ephA, ephB, n, m)
    ensures Still(ViewOf(w', b, a), ephB, ephA, m, n)
  {
    CrossedSendStep(w, act, ephA, ephB, n, m);
    CrossedIsStill(ViewOf(w', a, b), ephA, ephB, Early(n, |ViewOf(w, a, b).sentAB| + 1, |ViewOf(w, a, b).openBA|), m);
    assert ViewOf(w', b, a) == Swap(ViewOf(w', a, b));
  }

  /** Every step keeps a crossed pair crossed. */
  lemma {:induction false} StepKeepsCrossed(w: World, act: Action, w': World, a: User, b: User, ephA: KeyPair,
                                            ephB: KeyPair, n: nat, m: nat)
    requires a != b && a in w.sys.clients && b in w.sys.clients && Named(w.sys) && w' == Step(w, act)
    requires CrossedAt(ViewOf(w, a, b), ephA, ephB, n, m)
    ensures a in w'.sys.clients && b in w'.sys.clients && Still(ViewOf(w', a, b), ephA, ephB, n, m)
  {
    CrossedIsStill(ViewOf(w, a, b), ephA, ephB, n, m);
    match act
    case Polling(u, now) =>
      PollView(w, u, now, a, b);
    case Handling(u, now) =>
      if u in w.sys.clients && Batch(w.sys, u) != [] {
        HandleKeepsCrossed(w, u, now, w', a, b, ephA, ephB, n, m);
        CrossedIsStill(ViewOf(w', a, b), ephA, ephB, n, m);
      }
    case _ =>
      if act.user == a && act.to == b {
        SendKeepsCrossed(w, act, w', a, b, ephA, ephB, n, m);
      } else if act.user == b && act.to == a {
        assert ViewOf(w, b, a) == Swap(ViewOf(w, a, b));
        CrossedSwaps(ViewOf(w, a, b), ephA, ephB, n, m);
        SendKeepsCrossed(w, act, w', b, a, ephB, ephA, m, n);
      } else {
        SendElsewhere(w, act, a, b);
      }
  }

  // ── Every run ───────────────────────────────────────────────────────────

  /** How many letters `a` had sent to `b` when it first put one from `b` through decryption, or
      has sent so far. */
  function SentUnheard(w: World, a: User, b: User): nat {
    UnheardIn(w.log, a, b)
  }

  function UnheardIn(log: seq<Event>, a: User, b: User): nat {
    if log == [] || OpenSel(b, a)(log[0]) != [] then 0
    else |SentSel(a, b)(log[0])| + UnheardIn(log[1..], a, b)
  }

  lemma {:induction false} UnheardConcat(log: seq<Event>, more: seq<Event>, a: User, b: User)
    ensures UnheardIn(log, a, b) <= |Collect(SentSel(a, b), log)|
    ensures UnheardIn(log + more, a, b) ==
            if Collect(OpenSel(b, a), log) != [] then UnheardIn(log, a, b)
            else |Collect(SentSel(a, b), log)| + UnheardIn(more, a, b)
    ensures Collect(OpenSel(b, a), log) == [] ==> UnheardIn(log, a, b) == |Collect(SentSel(a, b), log)|
  {
    if log == [] {
      assert log + more == more;
    } else {
      UnheardConcat(log[1..], more, a, b);
      assert (log + more)[0] == log[0] && (log + more)[1..] == log[1..] + more;
    }
  }

  /** The count never falls, and is fixed once `a` has heard from `b`. */
  lemma {:induction false} UnheardGrows(w: World, w': World, a: User, b: User)
    requires w.log <= w'.log
    ensures SentUnheard(w, a, b) <= SentUnheard(w', a, b) && SentUnheard(w, a, b) <= |SentLetters(w, a, b)|
    ensures Openings(w, b, a) != [] ==> SentUnheard(w', a, b) == SentUnheard(w, a, b)
    ensures Openings(w, b, a) == [] ==> SentUnheard(w, a, b) == |SentLetters(w, a, b)|
  {
    var more := w'.log[|w.log|..];
    assert w'.log == w.log + more;
    UnheardConcat(w.log, more, a, b);
  }

  ghost predicate CrossedPair(ws: seq<World>, k: nat, a: User, b: User)
    requires k < |ws|
  {
    && a in ws[k].sys.clients && b in ws[k].sys.clients
    && exists ephA, ephB ::
         CrossedAt(ViewOf(ws[k], a, b), ephA, ephB, SentUnheard(ws[k], a, b), SentUnheard(ws[k], b, a))
  }

  /** Two users who both started a session are a crossed pair from then on. */
  lemma {:induction false} RunCrosses(ws: seq<World>, acts: seq<Action>, k: nat, a: User, b: User)
    requires IsRun(ws, acts) && k <= |acts| && !OneStarts(ws, acts, k, a, b)
    requires a != b && a in ws[0].sys.clients && b in ws[0].sys.clients
    ensures CrossedPair(ws, k, a, b)
  {
    var i := k - 1;
    if OneStarts(ws, acts, i, a, b) {
      RunFirstCrosses(ws, acts, k, a, b);
    } else {
      RunCrosses(ws, acts, i, a, b);
      RunStaysCrossed(ws, acts, k, a, b);
    }
  }

  lemma {:induction false} RunFirstCrosses(ws: seq<World>, acts: seq<Action>, k: nat, a: User, b: User)
    requires IsRun(ws, acts) && 0 < k <= |acts|
    requires OneStarts(ws, acts, k - 1, a, b) && !OneStarts(ws, acts, k, a, b)
    requires a != b && a in ws[0].sys.clients && b in ws[0].sys.clients
    ensures CrossedPair(ws, k, a, b)
  {
    var i := k - 1;
    RunKeepsClients(ws, acts, i);
    RunStep(ws, acts, k);
    assert Between(acts[i], a, b) && !OneInitiator(ws[i], acts[i]);
    RunKeepsPair(ws, acts, i, a, b);
    FirstCrossing(ws[i], acts[i], ws[k], a, b);
    var v := ViewOf(ws[k], a, b);
    var ephA, ephB :| CrossedAt(v, ephA, ephB, |v.sentAB|, |v.sentBA|);
    UnheardGrows(ws[k], ws[k], a, b);
    UnheardGrows(ws[k], ws[k], b, a);
    assert CrossedAt(v, ephA, ephB, SentUnheard(ws[k], a, b), SentUnheard(ws[k], b, a));
  }

  lemma {:induction false} RunStaysCrossed(ws: seq<World>, acts: seq<Action>, k: nat, a: User, b: User)
    requires IsRun(ws, acts) && 0 < k <= |acts| && a != b && CrossedPair(ws, k - 1, a, b)
    ensures CrossedPair(ws, k, a, b)
  {
    var i := k - 1;
    RunKeepsClients(ws, acts, i);
    RunStep(ws, acts, k);
    var n, m := SentUnheard(ws[i], a, b), SentUnheard(ws[i], b, a);
    var ephA, ephB :| CrossedAt(ViewOf(ws[i], a, b), ephA, ephB, n, m);
    StepKeepsCrossed(ws[i], acts[i], ws[k], a, b, ephA, ephB, n, m);
    SendsOrOpens(ws[i], acts[i], ws[k], a, b);
    SendsOrOpens(ws[i], acts[i], ws[k], b, a);
    UnheardIsEarly(ws[i], ws[k], a, b);
    UnheardIsEarly(ws[i], ws[k], b, a);
    var v := ViewOf(ws[k], a, b);
    assert Still(v, ephA, ephB, n, m);
    assert CrossedAt(v, ephA, ephB, SentUnheard(ws[k], a, b), SentUnheard(ws[k], b, a));
  }

  /** One step sends or opens, not both. */
  lemma {:induction false} UnheardIsEarly(w: World, w': World, a: User, b: User)
    requires w.log <= w'.log
    requires Openings(w', b, a) == Openings(w, b, a) || SentLetters(w', a, b) == SentLetters(w, a, b)
    ensures SentUnheard(w', a, b) ==
            Early(SentUnheard(w, a, b), |SentLetters(w', a, b)|, |Openings(w', b, a)|)
  {
    UnheardGrows(w, w', a, b);
    UnheardGrows(w', w', a, b);
  }

  lemma {:induction false} SendsOrOpens(w: World, act: Action, w': World, a: User, b: User)
    requires Named(w.sys) && w' == Step(w, act)
    ensures w.log <= w'.log
    ensures Openings(w', b, a) == Openings(w, b, a) || SentLetters(w', a, b) == SentLetters(w, a, b)
  {
    LogGrows(w, act);
    if act.Polling? || act.Handling? {
      ReceivingSendsNothing(w, act, a, b);
    } else {
      TransitAfterSend(ChatSel(a), w, act, b);
      CollectSnoc(OpenSel(b, a), w.log, Queued(act.user, act.to, act.text, act.timestamp));
    }
  }

  lemma {:induction false} FirstCrossing(w: World, act: Action, w': World, a: User, b: User)
    requires a != b && Named(w.sys) && PairInStep(w, a, b) && w' == Step(w, act)
    requires Between(act, a, b) && !OneInitiator(w, act)
    ensures a in w'.sys.clients && b in w'.sys.clients
    ensures var v' := ViewOf(w', a, b);
      && v'.openAB == [] && v'.openBA == []
      && exists ephA, ephB :: CrossedAt(v', ephA, ephB, |v'.sentAB|, |v'.sentBA|)
  {
    if act.user == b {
      assert ViewOf(w, b, a) == Swap(ViewOf(w, a, b));
    }
    CrossingStep(w, act);
    if act.user == b {
      var v' := ViewOf(w', b, a);
      var ephB, ephA :| CrossedAt(v', ephB, ephA, |v'.sentAB|, |v'.sentBA|);
      assert Swap(v') == ViewOf(w', a, b);
      CrossedSwaps(v', ephB, ephA, |v'.sentAB|, |v'.sentBA|);
    }
  }

  /** In every run at all and for every two users, whoever started sessions: openings are in the
      order sent, and the letter with number `i` comes out as sent if and only if one user alone
      started a session or the letter was sent before its sender heard from the other; otherwise it
      does not decrypt.  The rest is in flight. */
  lemma {:induction false} DeliveryExactly(ws: seq<World>, acts: seq<Action>, k: nat, a: User, b: User)
    requires IsRun(ws, acts) && k <= |acts|
    requires a != b && a in ws[0].sys.clients && b in ws[0].sys.clients
    ensures var sent, done := SentLetters(ws[k], a, b), Openings(ws[k], a, b);
      && |sent| == |done| + |Flight(ws[k].sys, a, b)|
      && forall i :: 0 <= i < |done| ==>
           && done[i].timestamp == sent[i].timestamp
           && done[i].result == if OneStarts(ws, acts, k, a, b) || i < SentUnheard(ws[k], a, b) then Ok(sent[i].text)
                                else Err
  {
    if OneStarts(ws, acts, k, a, b) {
      EndToEndDelivery(ws, acts, k, a, b);
    } else {
      RunCrosses(ws, acts, k, a, b);
      var v := ViewOf(ws[k], a, b);
      var ephA, ephB :| CrossedAt(v, ephA, ephB, SentUnheard(ws[k], a, b), SentUnheard(ws[k], b, a));
      forall i | 0 <= i < |v.openAB| ensures Comes(v.openAB[i], v.sentAB[i], i, SentUnheard(ws[k], a, b)) {
      }
    }
  }

  // ── What is lost ────────────────────────────────────────────────────────

  /** Once a client has heard from the other, the count is fixed. */
  lemma {:induction false} UnheardFixed(ws: seq<World>, acts: seq<Action>, j: nat, k: nat, a: User, b: User)
    requires IsRun(ws, acts) && j <= k <= |acts| && Openings(ws[j], b, a) != []
    ensures SentUnheard(ws[k], a, b) == SentUnheard(ws[j], a, b)
  {
    LogPrefix(ws, acts, j, k);
    UnheardGrows(ws[j], ws[k], a, b);
  }

  lemma {:induction false} UnheardBounded(ws: seq<World>, acts: seq<Action>, k: nat, a: User, b: User)
    requires IsRun(ws, acts) && k <= |acts| && !OneStarts(ws, acts, k, a, b)
    requires a != b && a in ws[0].sys.clients && b in ws[0].sys.clients
    ensures 1 <= SentUnheard(ws[k], a, b) <= |SentLetters(ws[k], a, b)|
  {
    RunCrosses(ws, acts, k, a, b);
  }

  /** Two responder sessions: only a crossed pair has them, and both sides have heard. */
  lemma {:induction false} RespondersCrossed(ws: seq<World>, acts: seq<Action>, k: nat, a: User, b: User)
    requires IsRun(ws, acts) && k <= |acts|
    requires a != b && a in ws[0].sys.clients && b in ws[0].sys.clients
    requires a in ws[k].sys.clients && b in ws[k].sys.clients && BothRespond(ws[k], a, b)
    ensures !OneStarts(ws, acts, k, a, b) && Openings(ws[k], b, a) != []
  {
    if OneStarts(ws, acts, k, a, b) {
      RunKeepsPair(ws, acts, k, a, b);
      assert false;
    }
    RunCrosses(ws, acts, k, a, b);
    var v := ViewOf(ws[k], a, b);
    var ephA, ephB :| CrossedAt(v, ephA, ephB, SentUnheard(ws[k], a, b), SentUnheard(ws[k], b, a));
    assert End(v.sa.value, v.preA, v.preB, ephA, ephB, |v.sentAB|, SentUnheard(ws[k], a, b), |v.openBA|,
               SentUnheard(ws[k], b, a));
  }

  predicate BothRespond(w: World, a: User, b: User)
    requires a in w.sys.clients && b in w.sys.clients
  {
    && RatchetOf(w.sys, a, b).Some? && !RatchetOf(w.sys, a, b).value.isInitiator
    && RatchetOf(w.sys, b, a).Some? && !RatchetOf(w.sys, b, a).value.isInitiator
  }

  /** Once both users hold responder sessions, no letter sent from then on, in either direction,
      ever decrypts, whatever else happens. */
  lemma {:induction false} LostForGood(ws: seq<World>, acts: seq<Action>, j: nat, k: nat, a: User, b: User, i: nat)
    requires IsRun(ws, acts) && j <= k <= |acts|
    requires a != b && a in ws[0].sys.clients && b in ws[0].sys.clients
    requires a in ws[j].sys.clients && b in ws[j].sys.clients && BothRespond(ws[j], a, b)
    requires |SentLetters(ws[j], a, b)| <= i < |Openings(ws[k], a, b)|
    ensures Openings(ws[k], a, b)[i].result == Err
  {
    RespondersCrossed(ws, acts, j, a, b);
    UnheardBounded(ws, acts, j, a, b);
    UnheardFixed(ws, acts, j, k, a, b);
    assert !OneStarts(ws, acts, k, a, b);
    DeliveryExactly(ws, acts, k, a, b);
  }

  // ── One initiator is exactly the condition ──────────────────────────────

  /** A continuation in which no send between two users starts a session that the peer has. */
  ghost predicate Continuation(ws: seq<World>, acts: seq<Action>, ws': seq<World>, acts': seq<Action>, a: User,
                               b: User)
  {
    && Extends(ws, acts, ws', acts')
    && forall i :: |acts| <= i < |acts'| && Between(acts'[i], a, b) ==> OneInitiator(ws'[i], acts'[i])
  }

  ghost predicate BothInOrder(w: World, a: User, b: User) {
    && a in w.sys.clients && b in w.sys.clients
    && InOrder(ViewOf(w, a, b)) && InOrder(ViewOf(w, b, a))
  }

  lemma {:induction false} AllOpened(ws: seq<World>, acts: seq<Action>, a: User, b: User)
    requires IsRun(ws, acts) && a != b && a in ws[0].sys.clients && b in ws[0].sys.clients
    requires Batch(ws[|acts|].sys, b) == [] && OnlyOwn(ws[|acts|].sys, b)
    ensures |Openings(ws[|acts|], a, b)| == |SentLetters(ws[|acts|], a, b)|
  {
    DrainedIsEmpty(ChatSel(a), ws[|acts|].sys, b);
    DeliveryExactly(ws, acts, |acts|, a, b);
  }

  /** `b` catches up with its mail, and so has heard from `a`. */
  lemma {:induction false} Hears(ws: seq<World>, acts: seq<Action>, a: User, b: User)
    returns (ws': seq<World>, acts': seq<Action>)
    requires IsRun(ws, acts) && !OneStarts(ws, acts, |acts|, a, b)
    requires a != b && a in ws[0].sys.clients && b in ws[0].sys.clients
    ensures Continuation(ws, acts, ws', acts', a, b) && !OneStarts(ws', acts', |acts'|, a, b)
    ensures Openings(ws'[|acts'|], a, b) != []
    ensures Openings(ws[|acts|], b, a) != [] ==> Openings(ws'[|acts'|], b, a) != []
  {
    ws', acts' := DrainCrossed(ws, acts, a, b);
    AllOpened(ws', acts', a, b);
    UnheardBounded(ws', acts', |acts'|, a, b);
    SelectionGrows(ws', acts', |acts|, |acts'|, OpenSel(b, a));
    assert ws'[|acts|] == ws[|acts|];
  }

  /** Both users catch up with their mail, so both have heard from the other. */
  lemma {:induction false} BothHear(ws: seq<World>, acts: seq<Action>, a: User, b: User)
    returns (ws': seq<World>, acts': seq<Action>)
    requires IsRun(ws, acts) && !OneStarts(ws, acts, |acts|, a, b)
    requires a != b && a in ws[0].sys.clients && b in ws[0].sys.clients
    ensures Continuation(ws, acts, ws', acts', a, b) && !OneStarts(ws', acts', |acts'|, a, b)
    ensures Openings(ws'[|acts'|], a, b) != [] && Openings(ws'[|acts'|], b, a) != []
  {
    var ws1, acts1 := Hears(ws, acts, a, b);
    Later(ws1, acts1, ws1, acts1, b, a);
    ws', acts' := Hears(ws1, acts1, b, a);
    Later(ws', acts', ws', acts', a, b);
    Continue(ws, acts, ws1, acts1, ws', acts', a, b);
  }

  lemma {:induction false} Continue(ws: seq<World>, acts: seq<Action>, ws1: seq<World>, acts1: seq<Action>,
                                    ws2: seq<World>, acts2: seq<Action>, a: User, b: User)
    requires Continuation(ws, acts, ws1, acts1, a, b)
    requires Continuation(ws1, acts1, ws2, acts2, a, b) || Continuation(ws1, acts1, ws2, acts2, b, a)
    ensures Continuation(ws, acts, ws2, acts2, a, b)
  {
    forall i | |acts| <= i < |acts2| && Between(acts2[i], a, b) ensures OneInitiator(ws2[i], acts2[i]) {
      if i < |acts1| {
        assert ws2[i] == ws1[i] && acts2[i] == acts1[i];
      }
    }
  }

  /** A crossed pair stays one in every continuation. */
  lemma {:induction false} Later(ws: seq<World>, acts: seq<Action>, ws': seq<World>, acts': seq<Action>, a: User,
                                 b: User)
    requires Extends(ws, acts, ws', acts')
    requires !OneStarts(ws, acts, |acts|, a, b) || !OneStarts(ws, acts, |acts|, b, a)
    ensures !OneStarts(ws', acts', |acts'|, a, b)
  {
    var i :| 0 <= i < |acts| && Between(acts[i], a, b) && !OneInitiator(ws[i], acts[i]);
    assert ws'[i] == ws[i] && acts'[i] == acts[i];
  }

  /** From a crossed pair a run can go on, without another session, to a message that does not
      decrypt. */
  lemma {:induction false} LosingContinuation(ws: seq<World>, acts: seq<Action>, a: User, b: User)
    returns (ws': seq<World>, acts': seq<Action>)
    requires IsRun(ws, acts) && !OneStarts(ws, acts, |acts|, a, b)
    requires a != b && a in ws[0].sys.clients && b in ws[0].sys.clients
    ensures Continuation(ws, acts, ws', acts', a, b) && Loses(ws'[|acts'|], a, b)
    ensures a in ws'[|acts'|].sys.clients && b in ws'[|acts'|].sys.clients && BothRespond(ws'[|acts'|], a, b)
  {
    var ws1, acts1 := BothHear(ws, acts, a, b);
    var ws2, acts2 := OneMore(ws1, acts1, a, b);
    ws', acts' := DrainCrossed(ws2, acts2, a, b);
    LastIsLost(ws1, acts1, ws2, acts2, ws', acts', a, b);
    HeardRespond(ws1, acts1, ws', acts', a, b);
    Continue(ws, acts, ws1, acts1, ws2, acts2, a, b);
    Continue(ws, acts, ws2, acts2, ws', acts', a, b);
  }

  lemma {:induction false} DrainCrossed(ws: seq<World>, acts: seq<Action>, a: User, b: User)
    returns (ws': seq<World>, acts': seq<Action>)
    requires IsRun(ws, acts) && !OneStarts(ws, acts, |acts|, a, b) && b in ws[0].sys.clients
    ensures Continuation(ws, acts, ws', acts', a, b) && !OneStarts(ws', acts', |acts'|, a, b)
    ensures OnlyReceiving(acts', |acts|, b) && Batch(ws'[|acts'|].sys, b) == [] && OnlyOwn(ws'[|acts'|].sys, b)
  {
    ws', acts' := Drain(ws, acts, b);
    Later(ws, acts, ws', acts', a, b);
  }

  lemma {:induction false} HeardRespond(ws: seq<World>, acts: seq<Action>, ws': seq<World>, acts': seq<Action>, a: User,
                                        b: User)
    requires Extends(ws, acts, ws', acts') && !OneStarts(ws', acts', |acts'|, a, b)
    requires a != b && a in ws[0].sys.clients && b in ws[0].sys.clients
    requires Openings(ws[|acts|], a, b) != [] && Openings(ws[|acts|], b, a) != []
    ensures a in ws'[|acts'|].sys.clients && b in ws'[|acts'|].sys.clients && BothRespond(ws'[|acts'|], a, b)
  {
    var k := |acts'|;
    assert ws'[|acts|] == ws[|acts|];
    SelectionGrows(ws', acts', |acts|, k, OpenSel(a, b));
    SelectionGrows(ws', acts', |acts|, k, OpenSel(b, a));
    RunCrosses(ws', acts', k, a, b);
    var v, n, m := ViewOf(ws'[k], a, b), SentUnheard(ws'[k], a, b), SentUnheard(ws'[k], b, a);
    var ephA, ephB :| CrossedAt(v, ephA, ephB, n, m);
    assert End(v.sa.value, v.preA, v.preB, ephA, ephB, |v.sentAB|, n, |v.openBA|, m);
  }

  /** Some message from `a` did not decrypt at `b`. */
  ghost predicate Loses(w: World, a: User, b: User) {
    exists i :: 0 <= i < |Openings(w, a, b)| && Openings(w, a, b)[i].result == Err
  }

  lemma {:induction false} LastIsLost(ws1: seq<World>, acts1: seq<Action>, ws2: seq<World>, acts2: seq<Action>,
                                      ws': seq<World>, acts': seq<Action>, a: User, b: User)
    requires Extends(ws1, acts1, ws2, acts2) && Extends(ws2, acts2, ws', acts')
    requires a != b && a in ws1[0].sys.clients && b in ws1[0].sys.clients
    requires !OneStarts(ws1, acts1, |acts1|, a, b) && !OneStarts(ws', acts', |acts'|, a, b)
    requires Openings(ws1[|acts1|], b, a) != []
    requires |SentLetters(ws2[|acts2|], a, b)| > |SentLetters(ws1[|acts1|], a, b)|
    requires OnlyReceiving(acts', |acts2|, b) && Batch(ws'[|acts'|].sys, b) == [] && OnlyOwn(ws'[|acts'|].sys, b)
    ensures Loses(ws'[|acts'|], a, b)
  {
    assert ws'[|acts2|] == ws2[|acts2|] && ws'[|acts1|] == ws1[|acts1|];
    var n := |SentLetters(ws1[|acts1|], a, b)|;
    AllOpened(ws', acts', a, b);
    NothingSent(ws', acts', |acts2|, |acts'|, a, b);
    assert n < |Openings(ws'[|acts'|], a, b)|;
    UnheardBounded(ws1, acts1, |acts1|, a, b);
    UnheardFixed(ws', acts', |acts1|, |acts'|, a, b);
    DeliveryExactly(ws', acts', |acts'|, a, b);
    assert Openings(ws'[|acts'|], a, b)[n].result == Err;
  }

  lemma {:induction false} OneMore(ws: seq<World>, acts: seq<Action>, a: User, b: User)
    returns (ws': seq<World>, acts': seq<Action>)
    requires IsRun(ws, acts) && a != b && a in ws[0].sys.clients && b in ws[0].sys.clients
    requires !OneStarts(ws, acts, |acts|, a, b)
    ensures Continuation(ws, acts, ws', acts', a, b) && !OneStarts(ws', acts', |acts'|, a, b)
    ensures |SentLetters(ws'[|acts'|], a, b)| == |SentLetters(ws[|acts|], a, b)| + 1
  {
    var act := Chat(a, b, "", 0, KeyPair(0), 0);
    OneMoreLetter(ws, acts, act);
    ws', acts' := Extend(ws, acts, act);
    Later(ws, acts, ws', acts', a, b);
    forall i | |acts| <= i < |acts'| ensures OneInitiator(ws'[i], acts'[i]) {
      assert i == |acts| && ws'[i] == ws[i];
    }
  }

  /** In a crossed pair a send starts no session and adds one letter. */
  lemma {:induction false} OneMoreLetter(ws: seq<World>, acts: seq<Action>, act: Action)
    requires IsRun(ws, acts) && act.Chat? && act.user != act.to
    requires act.user in ws[0].sys.clients && act.to in ws[0].sys.clients
    requires !OneStarts(ws, acts, |acts|, act.user, act.to)
    ensures OneInitiator(ws[|acts|], act)
    ensures |SentLetters(Step(ws[|acts|], act), act.user, act.to)| == |SentLetters(ws[|acts|], act.user, act.to)| + 1
  {
    var a, b, w := act.user, act.to, ws[|acts|];
    RunKeepsClients(ws, acts, |acts|);
    RunCrosses(ws, acts, |acts|, a, b);
    assert RatchetOf(w.sys, a, b) == ViewOf(w, a, b).sa;
    SendMail(w, act, a, b);
  }

  /** A run keeps both directions of a pair in order in all continuations that start no further
      session, if and only if so far one of the two users alone started one. */
  lemma {:induction false} OrderExactly(ws: seq<World>, acts: seq<Action>, a: User, b: User)
    requires IsRun(ws, acts) && a != b && a in ws[0].sys.clients && b in ws[0].sys.clients
    ensures OneStarts(ws, acts, |acts|, a, b) <==>
            forall ws', acts' :: Continuation(ws, acts, ws', acts', a, b) ==> BothInOrder(ws'[|acts'|], a, b)
  {
    if OneStarts(ws, acts, |acts|, a, b) {
      forall ws', acts' | Continuation(ws, acts, ws', acts', a, b) ensures BothInOrder(ws'[|acts'|], a, b) {
        StaysInOrder(ws, acts, ws', acts', a, b);
      }
    } else {
      var ws', acts' := LosingContinuation(ws, acts, a, b);
      assert !BothInOrder(ws'[|acts'|], a, b);
    }
  }

  lemma {:induction false} StaysInOrder(ws: seq<World>, acts: seq<Action>, ws': seq<World>, acts': seq<Action>, a: User,
                                        b: User)
    requires Continuation(ws, acts, ws', acts', a, b) && OneStarts(ws, acts, |acts|, a, b)
    requires a != b && a in ws[0].sys.clients && b in ws[0].sys.clients
    ensures BothInOrder(ws'[|acts'|], a, b)
  {
    OneStartsStill(ws, acts, ws', acts', a, b);
    OneStartsStill(ws, acts, ws', acts', b, a);
    EndToEndDelivery(ws', acts', |acts'|, a, b);
    EndToEndDelivery(ws', acts', |acts'|, b, a);
  }

  lemma {:induction false} OneStartsStill(ws: seq<World>, acts: seq<Action>, ws': seq<World>, acts': seq<Action>,
                                          a: User, b: User)
    requires Continuation(ws, acts, ws', acts', a, b) || Continuation(ws, acts, ws', acts', b, a)
    requires OneStarts(ws, acts, |acts|, a, b) || OneStarts(ws, acts, |acts|, b, a)
    ensures OneStarts(ws', acts', |acts'|, a, b)
  {
    forall i | 0 <= i < |acts'| && Between(acts'[i], a, b) ensures OneInitiator(ws'[i], acts'[i]) {
      if i < |acts| {
        assert ws'[i] == ws[i] && acts'[i] == acts[i];
        assert Between(acts[i], b, a);
      } else {
        assert Between(acts'[i], b, a);
      }
    }
  }

  /** From any beginning, any two users can come to hold responder sessions and lose messages: both
      write before either has heard. */
  lemma {:induction false} LosingRun(w: World, a: User, b: User) returns (ws: seq<World>, acts: seq<Action>)
    requires Initial(w) && a != b && a in w.sys.clients && b in w.sys.clients
    ensures IsRun(ws, acts) && ws[0] == w && Loses(ws[|acts|], a, b)
    ensures a in ws[|acts|].sys.clients && b in ws[|acts|].sys.clients && BothRespond(ws[|acts|], a, b)
  {
    var there, back := Chat(a, b, "", 0, KeyPair(0), 0), Chat(b, a, "", 0, KeyPair(1), 0);
    var ws0, acts0 := [w], [];
    assert IsRun(ws0, acts0);
    var ws1, acts1 := Extend(ws0, acts0, there);
    BackCrosses(w, there, back, ws1[1]);
    var ws2, acts2 := Extend(ws1, acts1, back);
    assert ws2[1] == ws1[1] && acts2[1] == back;
    ws, acts := LosingContinuation(ws2, acts2, a, b);
  }

  lemma {:induction false} BackCrosses(w: World, there: Action, back: Action, w': World)
    requires Initial(w) && there.Chat? && back.Chat? && there.user != there.to && w' == Step(w, there)
    requires back.user == there.to && back.to == there.user
    requires there.user in w.sys.clients && there.to in w.sys.clients
    ensures Between(back, there.user, there.to) && !OneInitiator(w', back)
  {
    SendSessions(w, there, there.user, there.to);
    SendSessions(w, there, there.to, there.user);
  }
}
