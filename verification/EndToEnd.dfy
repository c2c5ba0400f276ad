/** End-to-end delivery: in every run with one initiator per pair, what a client decrypts is
    what its peer sent, in order.
 */
module EndToEnd {
  import opened Sequences
  import opened Crypto
  import opened Ratchets
  import opened Sessions
  import opened Relays
  import opened Clients
  import opened Messaging

  // ── One pair of users ───────────────────────────────────────────────────

  /** Everything in a world that concerns the pair (a, b). */
  datatype View = View(
    sa: Option<RatchetState>, sb: Option<RatchetState>,        // a's session with b and b's with a
    preA: KeyPair, preB: KeyPair,
    flightAB: seq<Envelope>, flightBA: seq<Envelope>,
    sentAB: seq<Letter>, sentBA: seq<Letter>,
    openAB: seq<Opening>, openBA: seq<Opening>)

  function Swap(v: View): View {
    View(v.sb, v.sa, v.preB, v.preA, v.flightBA, v.flightAB, v.sentBA, v.sentAB, v.openBA, v.openAB)
  }

  function ViewOf(w: World, a: User, b: User): View
    requires a in w.sys.clients && b in w.sys.clients
  {
    View(RatchetOf(w.sys, a, b), RatchetOf(w.sys, b, a), w.sys.clients[a].preKey, w.sys.clients[b].preKey,
         Flight(w.sys, a, b), Flight(w.sys, b, a), SentLetters(w, a, b), SentLetters(w, b, a),
         Openings(w, a, b), Openings(w, b, a))
  }

  predicate Fits(m: SessionMessage, l: Letter, key: Key, ratchetKey: Key) {
    m.ratchetKey == ratchetKey && m.ciphertext == Sealed(key, m.nonce, l.text)
  }

  /** The envelope carries the letter under the message key; `opening` tells whether it is the
      pre-key message that opens a session. */
  predicate Carries(e: Envelope, l: Letter, key: Key, ratchetKey: Key, opening: bool) {
    && e.device == 1
    && e.timestamp == l.timestamp
    && if opening then e.body.PreKeyed? && e.body.baseKey == ratchetKey && Fits(e.body.first, l, key, ratchetKey)
       else e.body.Sealing? && Fits(e.body.msg, l, key, ratchetKey)
  }

  /** One direction in step: the letters sent are those opened, each decrypted correctly and
      without a DH step, followed by those in flight, each under its place in the chain. */
  ghost predicate Conveyed(sent: seq<Letter>, done: seq<Opening>, flight: seq<Envelope>, chain: Key, ratchetKey: Key,
                           leader: bool)
  {
    && |done| + |flight| == |sent|
    && (forall i :: 0 <= i < |done| ==> done[i] == Opening(sent[i].timestamp, Ok(sent[i].text), false))
    && (forall i :: 0 <= i < |flight| ==>
          && Carries(flight[i], sent[|done| + i], MessageKey(NextN(chain, |done| + i)), ratchetKey,
                     leader && |done| + i == 0)
          && Numbered(flight[i], |done| + i))
  }

  /** The message in an envelope carries the u32 number `j`. */
  predicate Numbered(e: Envelope, j: nat) {
    && (e.body.PreKeyed? ==> e.body.first.messageNumber == BumpN(0, j))
    && (e.body.Sealing? ==> e.body.msg.messageNumber == BumpN(0, j))
  }

  function LeaderRatchet(eph: KeyPair, preKey: Key, sent: nat, done: nat): RatchetState {
    var secret := eph.Agree(preKey);
    RatchetState(eph, preKey, RootHalf(secret, eph.PublicKey()),
                 NextN(ChainHalf(secret, eph.PublicKey()), sent), NextN(Zero, done),
                 BumpN(0, sent), BumpN(0, done), 0, 100, true)
  }

  function FollowerRatchet(eph: Key, preKey: KeyPair, sent: nat, done: nat): RatchetState {
    var secret := preKey.Agree(eph);
    RatchetState(preKey, eph, RootHalf(secret, eph),
                 NextN(Zero, sent), NextN(ChainHalf(secret, eph), done),
                 BumpN(0, sent), BumpN(0, done), 0, 100, false)
  }

  /** `a` started the session. */
  ghost predicate Leads(v: View) {
    && v.sa.Some? && v.sentAB != []
    && var eph, pre := v.sa.value.dhKey, v.preB;
       var chain := ChainHalf(eph.Agree(pre.PublicKey()), eph.PublicKey());
       && v.sa.value == LeaderRatchet(eph, pre.PublicKey(), |v.sentAB|, |v.openBA|)
       && Conveyed(v.sentAB, v.openAB, v.flightAB, chain, eph.PublicKey(), true)
       && Conveyed(v.sentBA, v.openBA, v.flightBA, Zero, pre.PublicKey(), false)
       && (v.openAB == [] ==> v.sb == None && v.sentBA == [])
       && (v.openAB != [] ==> v.sb == Some(FollowerRatchet(eph.PublicKey(), pre, |v.sentBA|, |v.openAB|)))
  }

  predicate Quiet(v: View) {
    && v.sa == v.sb == None
    && v.flightAB == v.flightBA == []
    && v.sentAB == v.sentBA == []
    && v.openAB == v.openBA == []
  }

  /** The pair is in step. */
  ghost predicate InStep(v: View) {
    Quiet(v) || Leads(v) || Leads(Swap(v))
  }

  /** The direction from `a` to `b` as its users see it: the letters sent are those opened, each
      with its own text and without a DH step, then those in flight, in order and numbered by their
      places; and the session counters count the letters sent and the letters opened. */
  ghost predicate InOrder(v: View) {
    && |v.sentAB| == |v.openAB| + |v.flightAB|
    && (forall i :: 0 <= i < |v.openAB| ==>
          v.openAB[i] == Opening(v.sentAB[i].timestamp, Ok(v.sentAB[i].text), false))
    && (forall i :: 0 <= i < |v.flightAB| ==>
          && v.flightAB[i].timestamp == v.sentAB[|v.openAB| + i].timestamp
          && (v.flightAB[i].body.PreKeyed? || v.flightAB[i].body.Sealing?)
          && MessageIn(v.flightAB[i]).messageNumber == (|v.openAB| + i) % 0x1_0000_0000)
    && (v.sentAB != [] ==> v.sa.Some? && v.sa.value.sendNum == |v.sentAB| % 0x1_0000_0000)
    && (v.openAB != [] ==> v.sb.Some? && v.sb.value.recvNum == |v.openAB| % 0x1_0000_0000)
  }

  lemma {:induction false} InStepMeans(v: View)
    requires InStep(v)
    ensures InOrder(v)
  {
    BumpNIsModular(0, |v.sentAB|);
    BumpNIsModular(0, |v.openAB|);
    forall i | 0 <= i < |v.flightAB|
      ensures v.flightAB[i].timestamp == v.sentAB[|v.openAB| + i].timestamp
      ensures v.flightAB[i].body.PreKeyed? || v.flightAB[i].body.Sealing?
      ensures MessageIn(v.flightAB[i]).messageNumber == (|v.openAB| + i) % 0x1_0000_0000
    {
      assert Numbered(v.flightAB[i], |v.openAB| + i);
      BumpNIsModular(0, |v.openAB| + i);
    }
  }

  // ── What sending and opening do to a view ───────────────────────────────

  /** `a` sends a letter to `b` in envelope `e`, leaving its session in state `s`. */
  function AfterSend(v: View, s: RatchetState, l: Letter, e: Envelope): View {
    v.(sa := Some(s), sentAB := v.sentAB + [l], flightAB := v.flightAB + [e])
  }

  /** The ratchet `a` uses to send: its session, or a new one. */
  function Sender(v: View, eph: KeyPair): RatchetState {
    if v.sa.Some? then v.sa.value else NewInitiator(eph.Agree(v.preB.PublicKey()), eph, v.preB.PublicKey())
  }

  /** What `a` posts: pre-keyed when it has no session yet. */
  predicate Posted(v: View, eph: KeyPair, l: Letter, nonce: nat, e: Envelope) {
    var m := EncryptStep(Sender(v, eph), l.text, nonce).1;
    && e.device == 1 && e.timestamp == l.timestamp
    && (if v.sa.Some? then e.body.Sealing? else e.body.PreKeyed? && e.body.baseKey == Sender(v, eph).dhKey.PublicKey())
    && var sm := (if v.sa.Some? then e.body.msg else e.body.first);
       && sm.ratchetKey == m.ratchetKey && sm.ciphertext == m.ciphertext && sm.nonce == m.nonce
       && sm.messageNumber == m.messageNumber
  }

  lemma {:induction false} ConveyedSend(sent: seq<Letter>, done: seq<Opening>, flight: seq<Envelope>, chain: Key,
                                        ratchetKey: Key, leader: bool, l: Letter, e: Envelope)
    requires Conveyed(sent, done, flight, chain, ratchetKey, leader)
    requires Carries(e, l, MessageKey(NextN(chain, |sent|)), ratchetKey, leader && sent == []) && Numbered(e, |sent|)
    ensures Conveyed(sent + [l], done, flight + [e], chain, ratchetKey, leader)
  {
  }

  lemma {:induction false} ConveyedOpen(sent: seq<Letter>, done: seq<Opening>, flight: seq<Envelope>, chain: Key,
                                        ratchetKey: Key, leader: bool)
    requires Conveyed(sent, done, flight, chain, ratchetKey, leader)
    requires flight != []
    ensures var l := sent[|done|];
      Conveyed(sent, done + [Opening(l.timestamp, Ok(l.text), false)], flight[1..], chain, ratchetKey, leader)
  {
    var n := |done|;
    forall i | 0 <= i < |flight| - 1
      ensures Carries(flight[1..][i], sent[n + 1 + i], MessageKey(NextN(chain, n + 1 + i)), ratchetKey,
                      leader && n + 1 + i == 0)
      ensures Numbered(flight[1..][i], n + 1 + i)
    {
      assert flight[1..][i] == flight[i + 1];
    }
  }

  /** Sending keeps a pair in step, provided a new session is started only when the peer has none. */
  lemma {:induction false} SendKeepsStep(v: View, eph: KeyPair, l: Letter, nonce: nat, e: Envelope)
    requires InStep(v)
    requires v.sa.None? ==> v.sb.None?
    requires Posted(v, eph, l, nonce, e)
    ensures InStep(AfterSend(v, EncryptStep(Sender(v, eph), l.text, nonce).0, l, e))
  {
    var s := EncryptStep(Sender(v, eph), l.text, nonce).0;
    var v' := AfterSend(v, s, l, e);
    if Quiet(v) {
      var chain := ChainHalf(eph.Agree(v.preB.PublicKey()), eph.PublicKey());
      ConveyedSend([], [], [], chain, eph.PublicKey(), true, l, e);
      assert [] + [l] == [l] && [] + [e] == [e];
      assert Leads(v');
    } else if Leads(v) {
      var first := v.sa.value.dhKey;
      var chain := ChainHalf(first.Agree(v.preB.PublicKey()), first.PublicKey());
      ConveyedSend(v.sentAB, v.openAB, v.flightAB, chain, first.PublicKey(), true, l, e);
      assert Leads(v');
    } else {
      ConveyedSend(v.sentAB, v.openAB, v.flightAB, Zero, v.preA.PublicKey(), false, l, e);
      assert Leads(Swap(v'));
    }
  }

  /** The session `b` opens a message with: a new one for a pre-key message. */
  function Receiver(v: View, e: Envelope): Option<RatchetState> {
    if e.body.PreKeyed? then
      Some(NewResponder(v.preB.Agree(e.body.baseKey), e.body.baseKey, v.preB))
    else v.sb
  }

  function MessageIn(e: Envelope): RatchetedMessage
    requires e.body.PreKeyed? || e.body.Sealing?
  {
    var m := if e.body.PreKeyed? then e.body.first else e.body.msg;
    RatchetedMessage(m.ratchetKey, m.ciphertext, m.nonce, m.messageNumber, 0)
  }

  /** `b` opens the first message in flight from `a`. */
  function AfterOpen(v: View): View
    requires v.flightAB != []
    requires var e := v.flightAB[0]; (e.body.PreKeyed? || e.body.Sealing?) && Receiver(v, e).Some?
  {
    var e := v.flightAB[0];
    var s := Receiver(v, e).value;
    var (s', result) := DecryptStep(s, MessageIn(e));
    v.(sb := Some(s'), flightAB := v.flightAB[1..],
       openAB := v.openAB + [Opening(e.timestamp, result, MessageIn(e).ratchetKey != s.theirKey)])
  }

  /** The next message in flight has a session to go through and decrypts, in place, to what was
      sent; handling it keeps the pair in step. */
  lemma {:induction false} OpenKeepsStep(v: View)
    requires InStep(v) && v.flightAB != []
    ensures var e := v.flightAB[0];
      && e.device == 1
      && (e.body.PreKeyed? || e.body.Sealing?)
      && Receiver(v, e).Some?
      && DecryptStep(Receiver(v, e).value, MessageIn(e)).1.Ok?
      && InStep(AfterOpen(v))
  {
    var e, n := v.flightAB[0], |v.openAB|;
    if Leads(v) {
      var eph := v.sa.value.dhKey;
      var chain := ChainHalf(eph.Agree(v.preB.PublicKey()), eph.PublicKey());
      AgreeCommutes(eph, v.preB);
      assert Carries(e, v.sentAB[n + 0], MessageKey(NextN(chain, n + 0)), eph.PublicKey(), n + 0 == 0);
      ConveyedOpen(v.sentAB, v.openAB, v.flightAB, chain, eph.PublicKey(), true);
      assert Leads(AfterOpen(v));
    } else {
      assert Carries(e, v.sentAB[n + 0], MessageKey(NextN(Zero, n + 0)), v.preA.PublicKey(), false);
      ConveyedOpen(v.sentAB, v.openAB, v.flightAB, Zero, v.preA.PublicKey(), false);
      assert Leads(Swap(AfterOpen(v)));
    }
  }

  // ── From the system to the view ─────────────────────────────────────────

  /** A session is started only when the peer has none: one initiator per pair. */
  predicate OneInitiator(w: World, act: Action) {
    (act.Chat? || act.Pushing?) && act.user in w.sys.clients && act.to in w.sys.clients ==>
      RatchetOf(w.sys, act.user, act.to).None? ==> RatchetOf(w.sys, act.to, act.user).None?
  }

  /** A send from one of two users to the other. */
  predicate Between(act: Action, a: User, b: User) {
    (act.Chat? || act.Pushing?) && ((act.user == a && act.to == b) || (act.user == b && act.to == a))
  }

  ghost predicate PairInStep(w: World, a: User, b: User) {
    a in w.sys.clients && b in w.sys.clients && InStep(ViewOf(w, a, b))
  }

  lemma {:induction false} LogAfter(w: World, event: Event, a: User, b: User)
    ensures var w' := World(w.sys, w.log + [event]);
      && SentLetters(w', a, b) == SentLetters(w, a, b) + SentSel(a, b)(event)
      && Openings(w', a, b) == Openings(w, a, b) + OpenSel(a, b)(event)
  {
    CollectSnoc(SentSel(a, b), w.log, event);
    CollectSnoc(OpenSel(a, b), w.log, event);
  }

  /** A successful send adds its letter and envelope to the one direction it belongs to. */
  lemma {:induction false} SendMail(w: World, act: Action, a: User, b: User)
    requires (act.Chat? || act.Pushing?) && Named(w.sys) && Reachable(w.sys, act)
    ensures var w', here := Step(w, act), act.user == a && act.to == b;
      && Flight(w'.sys, a, b) == Flight(w.sys, a, b) + (if here then [Posting(w.sys, act)] else [])
      && SentLetters(w', a, b) == SentLetters(w, a, b) + (if here then [Letter(act.text, act.timestamp)] else [])
      && Openings(w', a, b) == Openings(w, a, b)
  {
    OutgoingMail(w.sys, act);
    TransitAfterSend(ChatSel(a), w, act, b);
    LogAfter(w, Queued(act.user, act.to, act.text, act.timestamp), a, b);
  }

  lemma {:induction false} SendSessions(w: World, act: Action, a: User, b: User)
    requires a != b && a in w.sys.clients && Named(w.sys)
    requires act.Chat? || act.Pushing?
    ensures a in Step(w, act).sys.clients
    ensures RatchetOf(Step(w, act).sys, a, b) ==
            if act.user == a && act.to == b && Reachable(w.sys, act) then Some(SessionAfter(w.sys, act).ratchet)
            else RatchetOf(w.sys, a, b)
  {
    if act.user in w.sys.clients {
      OutgoingMail(w.sys, act);
      var (c, r, ok) := Outgoing(w.sys, act);
      assert Step(w, act).sys.clients == w.sys.clients[act.user := c];
    }
  }

  /** Neither the log nor the mail of a pair sees a send between others. */
  lemma {:induction false} SendElsewhere(w: World, act: Action, a: User, b: User)
    requires a != b && a in w.sys.clients && b in w.sys.clients && Named(w.sys)
    requires act.Chat? || act.Pushing?
    requires !(act.user == a && act.to == b) && !(act.user == b && act.to == a)
    ensures a in Step(w, act).sys.clients && b in Step(w, act).sys.clients
    ensures ViewOf(Step(w, act), a, b) == ViewOf(w, a, b)
  {
    StepKeepsClients(w, act);
    SendSessions(w, act, a, b);
    SendSessions(w, act, b, a);
    if Reachable(w.sys, act) {
      SendMail(w, act, a, b);
      SendMail(w, act, b, a);
    } else {
      FailedSend(w, act);
    }
  }

  /** A send that cannot reach its recipient changes nothing. */
  lemma {:induction false} FailedSend(w: World, act: Action)
    requires (act.Chat? || act.Pushing?) && !Reachable(w.sys, act) && Named(w.sys)
    ensures Step(w, act) == w
  {
    if act.user in w.sys.clients {
      OutgoingMail(w.sys, act);
      assert w.sys.clients[act.user := w.sys.clients[act.user]] == w.sys.clients;
    }
  }

  /** A send from `a` to `b` is a send in their view. */
  lemma {:induction false} SendHere(w: World, act: Action)
    requires (act.Chat? || act.Pushing?) && act.user != act.to
    requires act.user in w.sys.clients && act.to in w.sys.clients && Named(w.sys)
    ensures act.user in Step(w, act).sys.clients && act.to in Step(w, act).sys.clients
    ensures var v, l, e := ViewOf(w, act.user, act.to), Letter(act.text, act.timestamp), Posting(w.sys, act);
      && Posted(v, act.eph, l, act.nonce, e)
      && ViewOf(Step(w, act), act.user, act.to) ==
         AfterSend(v, EncryptStep(Sender(v, act.eph), act.text, act.nonce).0, l, e)
  {
    var a, b := act.user, act.to;
    StepKeepsClients(w, act);
    SendSessions(w, act, a, b);
    SendSessions(w, act, b, a);
    SendMail(w, act, a, b);
    SendMail(w, act, b, a);
  }

  lemma {:induction false} PollMail(w: World, u: User, now: nat, a: User, b: User)
    requires u in w.sys.clients
    ensures var w' := Step(w, Polling(u, now));
      && Flight(w'.sys, a, b) == Flight(w.sys, a, b)
      && SentLetters(w', a, b) == SentLetters(w, a, b)
      && Openings(w', a, b) == Openings(w, a, b)
  {
    var mail := Pending(w.sys.relay, u);
    TransitAfterPoll(ChatSel(a), w, u, now, b);
    ReceiptsNotSelected(ChatSel(a), u, mail, now, b);
    CollectFetchEvents(SentSel(a, b), w.log, u, mail);
    CollectFetchEvents(OpenSel(a, b), w.log, u, mail);
  }

  /** Polling moves mail about without touching any view. */
  lemma {:induction false} PollView(w: World, u: User, now: nat, a: User, b: User)
    requires a in w.sys.clients && b in w.sys.clients
    ensures var w' := Step(w, Polling(u, now));
      a in w'.sys.clients && b in w'.sys.clients && ViewOf(w', a, b) == ViewOf(w, a, b)
  {
    if u in w.sys.clients {
      PollMail(w, u, now, a, b);
      PollMail(w, u, now, b, a);
    }
  }

  /** The mail and the log of one direction after a client handles the head of its batch. */
  lemma {:induction false} HandleMail(w: World, u: User, now: nat, a: User, b: User)
    requires u in w.sys.clients && Batch(w.sys, u) != []
    ensures var e, w' := Batch(w.sys, u)[0], Step(w, Handling(u, now));
      var event := Handle(w.sys.clients[u], w.sys.relay, e, now).2;
      && (if u == b then Flight(w.sys, a, b) == ChatSel(a)(e) + Flight(w'.sys, a, b)
          else Flight(w'.sys, a, b) == Flight(w.sys, a, b))
      && SentLetters(w', a, b) == SentLetters(w, a, b)
      && Openings(w', a, b) == Openings(w, a, b) + OpenSel(a, b)(event)
  {
    var e := Batch(w.sys, u)[0];
    var (c, r, event) := Handle(w.sys.clients[u], w.sys.relay, e, now);
    HandleRelay(w.sys.clients[u], w.sys.relay, e, now);
    TransitAfterHandle(ChatSel(a), w, u, now, b);
    LogAfter(w, event, a, b);
    assert SentSel(a, b)(event) == [];
    assert ChatSel(a)(ReadReceipt(w.sys.clients[u].user, e, now)) == [];
    assert Flight(w.sys, a, b) + [] == Flight(w.sys, a, b);
  }

  /** Handling mail that is no chat from one of the pair to the other leaves the view alone. */
  lemma {:induction false} HandleElsewhere(w: World, u: User, now: nat, a: User, b: User)
    requires a != b && a in w.sys.clients && b in w.sys.clients && Named(w.sys)
    requires u in w.sys.clients && Batch(w.sys, u) != []
    requires var e := Batch(w.sys, u)[0];
      IsChat(e) ==> !(u == b && e.sender == a) && !(u == a && e.sender == b)
    ensures var w' := Step(w, Handling(u, now));
      a in w'.sys.clients && b in w'.sys.clients && ViewOf(w', a, b) == ViewOf(w, a, b)
  {
    MailElsewhere(w, u, now, a, b);
    MailElsewhere(w, u, now, b, a);
    SessionElsewhere(w, u, now, a, b);
    SessionElsewhere(w, u, now, b, a);
  }

  /** Handling other mail leaves the mail and the log of a direction alone. */
  lemma {:induction false} MailElsewhere(w: World, u: User, now: nat, a: User, b: User)
    requires u in w.sys.clients && Batch(w.sys, u) != [] && Named(w.sys)
    requires !(u == b && IsChat(Batch(w.sys, u)[0]) && Batch(w.sys, u)[0].sender == a)
    ensures var w' := Step(w, Handling(u, now));
      && Flight(w'.sys, a, b) == Flight(w.sys, a, b)
      && SentLetters(w', a, b) == SentLetters(w, a, b)
      && Openings(w', a, b) == Openings(w, a, b)
  {
    var e := Batch(w.sys, u)[0];
    HandleMail(w, u, now, a, b);
    HandleRelay(w.sys.clients[u], w.sys.relay, e, now);
    assert [] + Flight(w.sys, a, b) == Flight(w.sys, a, b);
  }

  /** Handling other mail leaves a session and a client's keys alone. */
  lemma {:induction false} SessionElsewhere(w: World, u: User, now: nat, a: User, b: User)
    requires u in w.sys.clients && Batch(w.sys, u) != [] && a in w.sys.clients && Named(w.sys)
    requires !(u == a && IsChat(Batch(w.sys, u)[0]) && Batch(w.sys, u)[0].sender == b)
    ensures var w' := Step(w, Handling(u, now));
      && a in w'.sys.clients && RatchetOf(w'.sys, a, b) == RatchetOf(w.sys, a, b)
      && w'.sys.clients[a].preKey == w.sys.clients[a].preKey
  {
    var e := Batch(w.sys, u)[0];
    HandleRelay(w.sys.clients[u], w.sys.relay, e, now);
    if u == a {
      HandleOther(w.sys.clients[u], w.sys.relay, e, now, b);
    }
  }

  /** A client's session with `x` changes only when it handles chat mail from `x`. */
  lemma {:induction false} HandleOther(c: ClientState, r: RelayState, e: Envelope, now: nat, x: User)
    requires !(IsChat(e) && e.sender == x)
    ensures var c' := Handle(c, r, e, now).0;
      && ((x, 1) in c'.sessions <==> (x, 1) in c.sessions)
      && ((x, 1) in c.sessions ==> c'.sessions[(x, 1)] == c.sessions[(x, 1)])
  {
  }

  /** Handling an encrypted message: the session advances, except that a pre-key message which does
      not decrypt leaves none behind. */
  lemma {:induction false} HandleOpens(c: ClientState, r: RelayState, e: Envelope, now: nat, s: RatchetState)
    requires e.body.PreKeyed? || (e.body.Sealing? && (e.sender, 1) in c.sessions)
    requires e.device == 1 && e.sender != c.user
    requires s == if e.body.PreKeyed? then NewResponder(c.preKey.Agree(e.body.baseKey), e.body.baseKey, c.preKey)
                  else c.sessions[(e.sender, 1)].ratchet
    requires e.body.Sealing? || DecryptStep(s, MessageIn(e)).1.Ok?
    ensures var (c', r', event) := Handle(c, r, e, now);
      && (e.sender, 1) in c'.sessions
      && c'.sessions[(e.sender, 1)].ratchet == DecryptStep(s, MessageIn(e)).0
      && event == Opened(e.sender, c.user, e.timestamp, DecryptStep(s, MessageIn(e)).1,
                         MessageIn(e).ratchetKey != s.theirKey)
  {
  }

  /** Handling a message from `a` at `b` is an opening in the view. */
  lemma {:induction false} HandleView(w: World, now: nat, a: User, b: User)
    requires a != b && a in w.sys.clients && b in w.sys.clients && Named(w.sys)
    requires Batch(w.sys, b) != [] && IsChat(Batch(w.sys, b)[0]) && Batch(w.sys, b)[0].sender == a
    requires var e, v := Batch(w.sys, b)[0], ViewOf(w, a, b);
      && v.flightAB != [] && v.flightAB[0] == e && e.device == 1
      && (e.body.PreKeyed? || e.body.Sealing?) && Receiver(v, e).Some?
      && (e.body.Sealing? || DecryptStep(Receiver(v, e).value, MessageIn(e)).1.Ok?)
    ensures var w' := Step(w, Handling(b, now));
      a in w'.sys.clients && b in w'.sys.clients && ViewOf(w', a, b) == AfterOpen(ViewOf(w, a, b))
  {
    var e, c := Batch(w.sys, b)[0], w.sys.clients[b];
    HandleMail(w, b, now, a, b);
    HandleMail(w, b, now, b, a);
    HandleOpens(c, w.sys.relay, e, now, Receiver(ViewOf(w, a, b), e).value);
    HandleRelay(c, w.sys.relay, e, now);
  }

  lemma {:induction false} HandleHere(w: World, now: nat, a: User, b: User)
    requires a != b && PairInStep(w, a, b) && Named(w.sys)
    requires Batch(w.sys, b) != [] && IsChat(Batch(w.sys, b)[0]) && Batch(w.sys, b)[0].sender == a
    ensures PairInStep(Step(w, Handling(b, now)), a, b)
  {
    assert ViewOf(w, a, b).flightAB[0] == Batch(w.sys, b)[0];
    OpenKeepsStep(ViewOf(w, a, b));
    HandleView(w, now, a, b);
  }

  /** Every step keeps every pair in step. */
  lemma {:induction false} StepKeepsPair(w: World, act: Action, a: User, b: User)
    requires a != b && PairInStep(w, a, b) && Named(w.sys)
    requires Between(act, a, b) ==> OneInitiator(w, act)
    ensures PairInStep(Step(w, act), a, b)
  {
    match act
    case Polling(u, now) =>
      PollView(w, u, now, a, b);
    case Handling(u, now) =>
      if u in w.sys.clients && Batch(w.sys, u) != [] {
        var e := Batch(w.sys, u)[0];
        if IsChat(e) && u == b && e.sender == a {
          HandleHere(w, now, a, b);
        } else if IsChat(e) && u == a && e.sender == b {
          assert ViewOf(w, b, a) == Swap(ViewOf(w, a, b));
          HandleHere(w, now, b, a);
          assert ViewOf(Step(w, act), a, b) == Swap(ViewOf(Step(w, act), b, a));
        } else {
          HandleElsewhere(w, u, now, a, b);
        }
      }
    case _ =>
      if act.user == a && act.to == b {
        SendHere(w, act);
        SendKeepsStep(ViewOf(w, a, b), act.eph, Letter(act.text, act.timestamp), act.nonce, Posting(w.sys, act));
      } else if act.user == b && act.to == a {
        assert ViewOf(w, b, a) == Swap(ViewOf(w, a, b));
        SendHere(w, act);
        SendKeepsStep(ViewOf(w, b, a), act.eph, Letter(act.text, act.timestamp), act.nonce, Posting(w.sys, act));
        assert ViewOf(Step(w, act), a, b) == Swap(ViewOf(Step(w, act), b, a));
      } else {
        SendElsewhere(w, act, a, b);
      }
  }

  // ── Whole runs ──────────────────────────────────────────────────────────

  /** None of the first `k` sends between two users starts a session when the peer has one. */
  ghost predicate OneStarts(ws: seq<World>, acts: seq<Action>, k: nat, a: User, b: User)
    requires IsRun(ws, acts) && k <= |acts|
  {
    forall i :: 0 <= i < k && Between(acts[i], a, b) ==> OneInitiator(ws[i], acts[i])
  }

  lemma {:induction false} NextInStep(ws: seq<World>, acts: seq<Action>, i: nat, a: User, b: User)
    requires IsRun(ws, acts) && i < |acts| && OneStarts(ws, acts, i + 1, a, b)
    requires a != b && PairInStep(ws[i], a, b) && Named(ws[i].sys)
    ensures PairInStep(ws[i + 1], a, b)
  {
    StepKeepsPair(ws[i], acts[i], a, b);
  }

  lemma {:induction false} StartInStep(w: World, a: User, b: User)
    requires Initial(w) && a in w.sys.clients && b in w.sys.clients
    ensures PairInStep(w, a, b)
  {
    assert Quiet(ViewOf(w, a, b));
  }

  lemma {:induction false} RunKeepsPair(ws: seq<World>, acts: seq<Action>, k: nat, a: User, b: User)
    requires IsRun(ws, acts) && k <= |acts| && OneStarts(ws, acts, k, a, b)
    requires a != b && a in ws[0].sys.clients && b in ws[0].sys.clients
    ensures PairInStep(ws[k], a, b)
  {
    if k == 0 {
      StartInStep(ws[0], a, b);
    } else {
      var i := k - 1;
      RunKeepsPair(ws, acts, i, a, b);
      RunKeepsClients(ws, acts, i);
      NextInStep(ws, acts, i, a, b);
      assert ws[i + 1] == ws[k];
    }
  }

  /** In every reachable world of every run, whatever the interleaving, and for every two users
      between whom one alone started a session: each message from `a` that `b`'s client put
      through decryption came out as the text `a` sent, in the order sent, without a DH step; the
      rest of what `a` sent is in flight, in order; and the counters of the two sessions count the
      messages sent and opened, so they differ by what is in flight. */
  lemma {:induction false} EndToEndDelivery(ws: seq<World>, acts: seq<Action>, k: nat, a: User, b: User)
    requires IsRun(ws, acts) && k <= |acts| && OneStarts(ws, acts, k, a, b)
    requires a != b && a in ws[0].sys.clients && b in ws[0].sys.clients
    ensures a in ws[k].sys.clients && b in ws[k].sys.clients
    ensures InOrder(ViewOf(ws[k], a, b))
  {
    RunKeepsPair(ws, acts, k, a, b);
    InStepMeans(ViewOf(ws[k], a, b));
  }
}
