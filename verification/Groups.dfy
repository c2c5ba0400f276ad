/** Group messages: one pairwise encrypted envelope per other member. */
module Groups {
  import opened Sequences
  import opened Crypto
  import opened Ratchets
  import opened Sessions
  import opened Relays
  import opened Clients
  import opened Messaging
  import opened EndToEnd

  /** The clock reading, ephemeral key and nonce used for one envelope. */
  datatype Draw = Draw(timestamp: nat, eph: KeyPair, nonce: nat)

  /** The members a group message goes to, in list order. */
  function Others(members: seq<User>, me: User): seq<User> {
    if members == [] then []
    else if members[0] == me then Others(members[1..], me)
    else [members[0]] + Others(members[1..], me)
  }

  predicate CanReach(c: ClientState, dir: map<User, Bundle>, v: User) {
    (v, 1) in c.sessions || v in dir
  }

  function Lookup(dir: map<User, Bundle>, v: User): Option<Bundle> {
    if v in dir then Some(dir[v]) else None
  }

  /** The send loop: it stops at the first member whose keys cannot be had. */
  function FanOut(c: ClientState, r: RelayState, others: seq<User>, dir: map<User, Bundle>, payload: string,
                  draws: seq<Draw>): (ClientState, RelayState, bool)
    requires |draws| == |others|
    decreases |others|
  {
    if others == [] then (c, r, true)
    else
      var d := draws[0];
      var (c', r', ok) := Push(c, r, others[0], Lookup(dir, others[0]), payload, d.timestamp, d.eph, d.nonce);
      if ok then FanOut(c', r', others[1..], dir, payload, draws[1..]) else (c, r, false)
  }

  /** `send_group_message`: alone in the group, the message is saved as one to oneself. */
  function SendGroup(c: ClientState, r: RelayState, members: seq<User>, dir: map<User, Bundle>, title: string,
                     text: string, payload: string, draws: seq<Draw>, own: Draw): (ClientState, RelayState, bool)
    requires |draws| == |Others(members, c.user)|
  {
    var others := Others(members, c.user);
    if others == [] then SendMessage(c, r, c.user, None, text, own.timestamp, own.eph, own.nonce)
    else
      var (c', r', ok) := FanOut(c, r, others, dir, payload, draws);
      (if ok then c'.(sent := c'.sent + [SentMessage(title, text, own.timestamp, Sent)]) else c', r', ok)
  }

  /** The members reached: all before the first whose keys cannot be had. */
  function Reached(c: ClientState, dir: map<User, Bundle>, others: seq<User>): seq<User> {
    if others == [] || !CanReach(c, dir, others[0]) then []
    else [others[0]] + Reached(c, dir, others[1..])
  }

  lemma {:induction false} OthersAre(members: seq<User>, me: User)
    ensures forall v :: v in Others(members, me) <==> v in members && v != me
    ensures Distinct(members) ==> Distinct(Others(members, me))
  {
    if members != [] {
      OthersAre(members[1..], me);
      assert members == [members[0]] + members[1..];
      if Distinct(members) {
        var rest := Others(members[1..], me);
        assert Distinct(members[1..]);
        assert forall i :: 0 <= i < |rest| ==> rest[i] in members[1..];
        assert members[0] !in members[1..];
      }
    }
  }

  /** The ratchet a client uses for its next message to `v`. */
  function Outbound(c: ClientState, dir: map<User, Bundle>, v: User, eph: KeyPair): RatchetState
    requires CanReach(c, dir, v)
  {
    if (v, 1) in c.sessions then c.sessions[(v, 1)].ratchet
    else NewInitiator(eph.Agree(dir[v].signedPreKey), eph, dir[v].signedPreKey)
  }

  /** `e` is the one envelope sent to `v`: its payload under the next key of the pair's chain. */
  predicate GroupEnvelope(c: ClientState, dir: map<User, Bundle>, v: User, payload: string, d: Draw, e: Envelope) {
    && CanReach(c, dir, v)
    && e.sender == c.user && e.recipient == v && e.device == 1 && e.timestamp == d.timestamp
    && var r := Outbound(c, dir, v, d.eph);
       var version := if (v, 1) in c.sessions then c.sessions[(v, 1)].version else 1;
       var m := SessionMessage(version, Sealed(MessageKey(r.sendChain), d.nonce, payload), d.nonce, r.dhKey.PublicKey(),
                               r.sendNum);
       e.body == if (v, 1) in c.sessions then Sealing(m) else PreKeyed(c.identity.PublicKey(), d.eph.PublicKey(), m)
  }

  /** One send: one envelope, one session one step further, nothing else. */
  lemma {:induction false} PushOne(c: ClientState, r: RelayState, v: User, dir: map<User, Bundle>, payload: string,
                                   d: Draw)
    ensures var (c', r', ok) := Push(c, r, v, Lookup(dir, v), payload, d.timestamp, d.eph, d.nonce);
      && ok == CanReach(c, dir, v)
      && (ok ==>
            && (v, 1) in c'.sessions
            && c' == c.(sessions := c.sessions[(v, 1) := c'.sessions[(v, 1)]])
            && c'.sessions[(v, 1)].ratchet == EncryptStep(Outbound(c, dir, v, d.eph), payload, d.nonce).0
            && |r'.rows| == |r.rows| + 1 && r' == Queue(r, NewMail(r, r', 0))
            && GroupEnvelope(c, dir, v, payload, d, NewMail(r, r', 0)))
  {
  }

  /** One row for each member reached, in order, addressed to that member, and nothing else. */
  ghost predicate MailOut(c: ClientState, dir: map<User, Bundle>, reached: seq<User>, payload: string, draws: seq<Draw>,
                          r: RelayState, r': RelayState)
  {
    && |reached| <= |draws|
    && |r'.rows| == |r.rows| + |reached| && r.rows <= r'.rows && r'.nextId == r.nextId + |reached|
    && forall i :: 0 <= i < |reached| ==>
         && r'.rows[|r.rows| + i] == Row(r.nextId + i, c.user, reached[i], NewMail(r, r', i))
         && GroupEnvelope(c, dir, reached[i], payload, draws[i], NewMail(r, r', i))
  }

  /** The envelope of the row with number `i` after those of `r`. */
  function NewMail(r: RelayState, r': RelayState, i: nat): Envelope
    requires |r.rows| + i < |r'.rows|
  {
    r'.rows[|r.rows| + i].envelope
  }

  /** The queues afterwards: each member reached has one more envelope, everyone else the same. */
  ghost predicate QueuesOut(reached: seq<User>, r: RelayState, r': RelayState) {
    && |r'.rows| == |r.rows| + |reached|
    && (forall i :: 0 <= i < |reached| ==> Pending(r', reached[i]) == Pending(r, reached[i]) + [NewMail(r, r', i)])
    && (forall u :: u !in reached ==> Pending(r', u) == Pending(r, u))
  }

  lemma {:induction false} PendingOfRows(rows: seq<Row>, users: seq<User>, u: User)
    requires |rows| == |users| && Distinct(users)
    requires forall i :: 0 <= i < |rows| ==> rows[i].recipient == users[i]
    ensures u !in users ==> PendingIn(rows, u) == []
    ensures forall i :: 0 <= i < |users| && users[i] == u ==> PendingIn(rows, u) == [rows[i].envelope]
  {
    if rows != [] {
      PendingOfRows(rows[1..], users[1..], u);
      if users[0] == u {
        assert u !in users[1..];
      } else if u in users[1..] {
        forall i | 0 <= i < |users| && users[i] == u ensures PendingIn(rows, u) == [rows[i].envelope] {
          assert users[1..][i - 1] == u && rows[1..][i - 1] == rows[i];
        }
      }
    }
  }

  lemma {:induction false} MailOutQueues(c: ClientState, dir: map<User, Bundle>, reached: seq<User>, payload: string,
                                         draws: seq<Draw>, r: RelayState, r': RelayState)
    requires MailOut(c, dir, reached, payload, draws, r, r') && Distinct(reached)
    ensures QueuesOut(reached, r, r')
  {
    var more := r'.rows[|r.rows|..];
    assert r'.rows == r.rows + more;
    assert forall i :: 0 <= i < |more| ==> more[i] == r'.rows[|r.rows| + i];
    forall u
      ensures u !in reached ==> Pending(r', u) == Pending(r, u)
      ensures forall i :: 0 <= i < |reached| && reached[i] == u ==>
                Pending(r', u) == Pending(r, u) + [NewMail(r, r', i)]
    {
      PendingConcat(r.rows, more, u);
      PendingOfRows(more, reached, u);
    }
  }

  /** Exactly the sessions with the members reached are one step further; nothing else changed. */
  ghost predicate SessionsOut(c: ClientState, dir: map<User, Bundle>, reached: seq<User>, payload: string,
                              draws: seq<Draw>, c': ClientState)
  {
    && |reached| <= |draws|
    && c' == c.(sessions := c'.sessions)
    && (forall i :: 0 <= i < |reached| ==> CanReach(c, dir, reached[i]) && (reached[i], 1) in c'.sessions)
    && (forall i :: 0 <= i < |reached| ==>
          c'.sessions[(reached[i], 1)].ratchet ==
          EncryptStep(Outbound(c, dir, reached[i], draws[i].eph), payload, draws[i].nonce).0)
    && (forall a: Address :: a.0 !in reached || a.1 != 1 ==>
          && (a in c'.sessions <==> a in c.sessions)
          && (a in c.sessions ==> c'.sessions[a] == c.sessions[a]))
  }

  lemma {:induction false} FanOutMail(c: ClientState, r: RelayState, others: seq<User>, dir: map<User, Bundle>,
                                      payload: string, draws: seq<Draw>)
    requires |draws| == |others| && Distinct(others)
    ensures Reached(c, dir, others) <= others
    ensures FanOut(c, r, others, dir, payload, draws).2 <==> Reached(c, dir, others) == others
    ensures MailOut(c, dir, Reached(c, dir, others), payload, draws, r, FanOut(c, r, others, dir, payload, draws).1)
    decreases |others|
  {
    if others != [] && CanReach(c, dir, others[0]) {
      var v, d := others[0], draws[0];
      var (c1, r1, ok) := Push(c, r, v, Lookup(dir, v), payload, d.timestamp, d.eph, d.nonce);
      PushOne(c, r, v, dir, payload, d);
      assert Distinct(others[1..]);
      FanOutMail(c1, r1, others[1..], dir, payload, draws[1..]);
      ReachedLater(c, c1, dir, others[1..], v);
      MailOutLater(c, c1, dir, Reached(c, dir, others), payload, draws, r, r1,
                   FanOut(c, r, others, dir, payload, draws).1);
    }
  }

  lemma {:induction false} MailOutLater(c: ClientState, c1: ClientState, dir: map<User, Bundle>, reached: seq<User>,
                                        payload: string, draws: seq<Draw>, r: RelayState, r1: RelayState,
                                        r': RelayState)
    requires reached != [] && draws != [] && reached[0] !in reached[1..]
    requires c1.user == c.user && c1.identity == c.identity
    requires forall u :: u != reached[0] ==> ((u, 1) in c.sessions <==> (u, 1) in c1.sessions)
    requires forall u :: u != reached[0] && (u, 1) in c.sessions ==> c.sessions[(u, 1)] == c1.sessions[(u, 1)]
    requires |r1.rows| == |r.rows| + 1 && r1 == Queue(r, NewMail(r, r1, 0))
    requires GroupEnvelope(c, dir, reached[0], payload, draws[0], NewMail(r, r1, 0))
    requires MailOut(c1, dir, reached[1..], payload, draws[1..], r1, r')
    ensures MailOut(c, dir, reached, payload, draws, r, r')
  {
    forall i | 0 <= i < |reached|
      ensures r'.rows[|r.rows| + i] == Row(r.nextId + i, c.user, reached[i], NewMail(r, r', i))
      ensures GroupEnvelope(c, dir, reached[i], payload, draws[i], NewMail(r, r', i))
    {
      if i > 0 {
        var j := i - 1;
        assert reached[i] == reached[1..][j] && draws[i] == draws[1..][j];
        assert NewMail(r, r', i) == NewMail(r1, r', j);
        assert r'.rows[|r1.rows| + j] == Row(r1.nextId + j, c1.user, reached[1..][j], NewMail(r1, r', j));
      } else {
        assert r'.rows[|r.rows|] == r1.rows[|r.rows|];
      }
    }
  }

  lemma {:induction false} FanOutSessions(c: ClientState, r: RelayState, others: seq<User>, dir: map<User, Bundle>,
                                          payload: string, draws: seq<Draw>)
    requires |draws| == |others| && Distinct(others)
    ensures SessionsOut(c, dir, Reached(c, dir, others), payload, draws, FanOut(c, r, others, dir, payload, draws).0)
    decreases |others|
  {
    FanOutMail(c, r, others, dir, payload, draws);
    if others != [] && CanReach(c, dir, others[0]) {
      var v, d := others[0], draws[0];
      var (c1, r1, ok) := Push(c, r, v, Lookup(dir, v), payload, d.timestamp, d.eph, d.nonce);
      PushOne(c, r, v, dir, payload, d);
      assert Distinct(others[1..]);
      FanOutSessions(c1, r1, others[1..], dir, payload, draws[1..]);
      FanOutMail(c1, r1, others[1..], dir, payload, draws[1..]);
      ReachedLater(c, c1, dir, others[1..], v);
      SessionsOutLater(c, c1, dir, Reached(c, dir, others), payload, draws,
                       FanOut(c, r, others, dir, payload, draws).0);
    }
  }

  lemma {:induction false} SessionsOutLater(c: ClientState, c1: ClientState, dir: map<User, Bundle>, reached: seq<User>,
                                            payload: string, draws: seq<Draw>, c': ClientState)
    requires reached != [] && |reached| <= |draws| && reached[0] !in reached[1..] && CanReach(c, dir, reached[0])
    requires (reached[0], 1) in c1.sessions
    requires c1 == c.(sessions := c.sessions[(reached[0], 1) := c1.sessions[(reached[0], 1)]])
    requires c1.sessions[(reached[0], 1)].ratchet ==
             EncryptStep(Outbound(c, dir, reached[0], draws[0].eph), payload, draws[0].nonce).0
    requires SessionsOut(c1, dir, reached[1..], payload, draws[1..], c')
    ensures SessionsOut(c, dir, reached, payload, draws, c')
  {
    var v := reached[0];
    assert reached == [v] + reached[1..];
    assert c'.sessions[(v, 1)] == c1.sessions[(v, 1)];
    forall i | 0 <= i < |reached|
      ensures CanReach(c, dir, reached[i]) && (reached[i], 1) in c'.sessions
      ensures c'.sessions[(reached[i], 1)].ratchet ==
              EncryptStep(Outbound(c, dir, reached[i], draws[i].eph), payload, draws[i].nonce).0
    {
      if i > 0 {
        assert reached[i] == reached[1..][i - 1] && draws[i] == draws[1..][i - 1];
        assert Outbound(c, dir, reached[i], draws[i].eph) == Outbound(c1, dir, reached[i], draws[i].eph);
      }
    }
  }

  lemma {:induction false} DistinctPrefix(xs: seq<User>, ys: seq<User>)
    requires Distinct(xs) && ys <= xs
    ensures Distinct(ys)
  {
  }

  /** A group message from a member of a group, whose member list has no duplicates.  With other
      members it succeeds if and only if all of them can be reached; it queues one envelope for
      each other member reached, in list order, so that each of their queues grows by that one and
      no one else's changes, the sender's included; exactly those pairwise sessions go one step
      further; and a success is recorded once.  Alone in the
      group, the sender saves the text as a message to itself. */
  lemma {:induction false} GroupMessage(c: ClientState, r: RelayState, members: seq<User>, dir: map<User, Bundle>,
                                        title: string, text: string, payload: string, draws: seq<Draw>, own: Draw)
    requires Distinct(members) && |draws| == |Others(members, c.user)|
    ensures var others := Others(members, c.user);
      var reached := Reached(c, dir, others);
      var (c', r', ok) := SendGroup(c, r, members, dir, title, text, payload, draws, own);
      && (forall v :: v in others <==> v in members && v != c.user)
      && reached <= others && Distinct(others)
      && (others != [] ==>
            && (ok <==> reached == others)
            && MailOut(c, dir, reached, payload, draws, r, r') && QueuesOut(reached, r, r')
            && SessionsOut(c, dir, reached, payload, draws, c'.(sent := c.sent))
            && c'.sent == if ok then c.sent + [SentMessage(title, text, own.timestamp, Sent)] else c.sent)
      && (others == [] ==>
            && ok && r' == Queue(r, Envelope(c.user, c.user, 1, own.timestamp, Saved(text)))
            && c' == c.(sent := c.sent + [SentMessage(c.user, text, own.timestamp, Sent)]))
  {
    var others := Others(members, c.user);
    OthersAre(members, c.user);
    FanOutMail(c, r, others, dir, payload, draws);
    FanOutSessions(c, r, others, dir, payload, draws);
    var (c1, r1, ok) := FanOut(c, r, others, dir, payload, draws);
    DistinctPrefix(others, Reached(c, dir, others));
    MailOutQueues(c, dir, Reached(c, dir, others), payload, draws, r, r1);
    assert c1 == c.(sessions := c1.sessions);
  }

  /** A send to `v` does not change whom else the client can reach. */
  lemma {:induction false} ReachedLater(c: ClientState, c1: ClientState, dir: map<User, Bundle>, others: seq<User>,
                                        v: User)
    requires v !in others
    requires forall u :: u != v ==> ((u, 1) in c.sessions <==> (u, 1) in c1.sessions)
    ensures Reached(c, dir, others) == Reached(c1, dir, others)
  {
    if others != [] {
      ReachedLater(c, c1, dir, others[1..], v);
    }
  }

  // ── In the whole system ─────────────────────────────────────────────────

  function PushTo(u: User, v: User, payload: string, d: Draw): Action {
    Pushing(u, v, payload, d.timestamp, d.eph, d.nonce)
  }

  /** The fan-out as steps of the system, one per member; others may act in between. */
  function Spread(w: World, u: User, others: seq<User>, payload: string, draws: seq<Draw>): World
    requires |draws| == |others|
    decreases |others|
  {
    if others == [] || !Reachable(w.sys, PushTo(u, others[0], payload, draws[0])) then w
    else Spread(Step(w, PushTo(u, others[0], payload, draws[0])), u, others[1..], payload, draws[1..])
  }

  function Directory(sys: System): map<User, Bundle> {
    map v | v in sys.clients :: Bundle(sys.clients[v].identity.PublicKey(), sys.clients[v].preKey.PublicKey())
  }

  /** Those steps do to the sender and the relay what the loop does. */
  lemma {:induction false} SpreadIsFanOut(w: World, u: User, others: seq<User>, payload: string, draws: seq<Draw>)
    requires |draws| == |others| && u in w.sys.clients && Named(w.sys)
    ensures var w' := Spread(w, u, others, payload, draws);
      var (c, r, ok) := FanOut(w.sys.clients[u], w.sys.relay, others, Directory(w.sys), payload, draws);
      && w'.sys == w.sys.(clients := w.sys.clients[u := c], relay := r)
    decreases |others|
  {
    assert w.sys.clients[u := w.sys.clients[u]] == w.sys.clients;
    if others != [] {
      var act := PushTo(u, others[0], payload, draws[0]);
      var w1 := Step(w, act);
      PushIsStep(w, act, w1);
      if Reachable(w.sys, act) {
        SpreadIsFanOut(w1, u, others[1..], payload, draws[1..]);
      }
    }
  }

  lemma {:induction false} PushIsStep(w: World, act: Action, w1: World)
    requires act.Pushing? && act.user in w.sys.clients && Named(w.sys) && w1 == Step(w, act)
    ensures var (c, r, ok) := Push(w.sys.clients[act.user], w.sys.relay, act.to, Lookup(Directory(w.sys), act.to),
                                   act.text, act.timestamp, act.eph, act.nonce);
      && ok == Reachable(w.sys, act)
      && w1.sys == w.sys.(clients := w.sys.clients[act.user := c], relay := r)
    ensures Directory(w1.sys) == Directory(w.sys) && Named(w1.sys) && act.user in w1.sys.clients
  {
    OutgoingMail(w.sys, act);
    assert Lookup(Directory(w.sys), act.to) == BundleOf(w.sys, act.to);
    StepKeepsClients(w, act);
  }

  /** `u` may start a session with `v`, or need not. */
  predicate MayStart(sys: System, u: User, v: User) {
    u in sys.clients && v in sys.clients ==> RatchetOf(sys, u, v).None? ==> RatchetOf(sys, v, u).None?
  }

  lemma {:induction false} MayStillStart(w: World, act: Action, v: User)
    requires act.Pushing? && act.user in w.sys.clients && Named(w.sys) && v != act.user && v != act.to
    requires MayStart(w.sys, act.user, v)
    ensures MayStart(Step(w, act).sys, act.user, v)
  {
    StepKeepsClients(w, act);
    if v in w.sys.clients {
      SendSessions(w, act, act.user, v);
      SendSessions(w, act, v, act.user);
    }
  }

  ghost predicate AllMayStart(sys: System, u: User, others: seq<User>) {
    forall i :: 0 <= i < |others| ==> MayStart(sys, u, others[i])
  }

  lemma {:induction false} AllMayStillStart(w: World, act: Action, w1: World, others: seq<User>)
    requires act.Pushing? && act.user in w.sys.clients && Named(w.sys) && w1 == Step(w, act)
    requires others != [] && act.to == others[0] && act.user !in others && Distinct(others)
    requires AllMayStart(w.sys, act.user, others)
    ensures AllMayStart(w1.sys, act.user, others[1..]) && Distinct(others[1..])
  {
    forall i | 0 <= i < |others[1..]| ensures MayStart(w1.sys, act.user, others[1..][i]) {
      assert others[1..][i] == others[i + 1];
      MayStillStart(w, act, others[i + 1]);
    }
  }

  /** A group message keeps every pair in the system in step, when no member reached for the
      first time has already started a session with the sender. */
  lemma {:induction false} GroupKeepsPairs(w: World, u: User, others: seq<User>, payload: string, draws: seq<Draw>,
                                           a: User, b: User)
    requires |draws| == |others| && Distinct(others) && u !in others && u in w.sys.clients && Named(w.sys)
    requires AllMayStart(w.sys, u, others)
    requires a != b && PairInStep(w, a, b)
    ensures PairInStep(Spread(w, u, others, payload, draws), a, b)
    decreases |others|
  {
    if others != [] && Reachable(w.sys, PushTo(u, others[0], payload, draws[0])) {
      var act := PushTo(u, others[0], payload, draws[0]);
      var w1 := Step(w, act);
      assert MayStart(w.sys, u, others[0]);
      FirstKeepsPair(w, act, w1, a, b);
      AllMayStillStart(w, act, w1, others);
      GroupKeepsPairs(w1, u, others[1..], payload, draws[1..], a, b);
      assert Spread(w, u, others, payload, draws) == Spread(w1, u, others[1..], payload, draws[1..]);
    }
  }

  lemma {:induction false} FirstKeepsPair(w: World, act: Action, w1: World, a: User, b: User)
    requires act.Pushing? && act.user in w.sys.clients && Named(w.sys) && MayStart(w.sys, act.user, act.to)
    requires a != b && PairInStep(w, a, b) && w1 == Step(w, act)
    ensures PairInStep(w1, a, b) && act.user in w1.sys.clients && Named(w1.sys)
  {
    StepKeepsPair(w, act, a, b);
    StepKeepsClients(w, act);
  }
}
