/** Group and channel membership under concurrent handlers (tintin-server/src/main.rs and
    store.rs).  A handler takes the store's lock once per store call, so other handlers run
    between its check and its insert; rows still refer to existing groups and channels, once each.
 */
module Membership {
  import opened Sequences
  import opened Crypto
  import opened Sessions

  datatype Role = Admin | Member

  /** A row of a membership table; (place, user) is its primary key. */
  datatype Row<P, A> = Row(place: P, user: User, info: A)

  datatype Tables = Tables(
    groups: map<string, User>,            // group id to creator
    members: seq<Row<string, Role>>,
    channels: map<nat, User>,             // channel id to owner
    subscribers: seq<Row<nat, ()>>,
    nextChannel: nat)

  const EMPTY_TABLES := Tables(map[], [], map[], [], 1)

  // ── Store calls: each runs under the lock ───────────────────────────────

  predicate Has<P(==), A>(rows: seq<Row<P, A>>, place: P, user: User) {
    exists i :: 0 <= i < |rows| && rows[i].place == place && rows[i].user == user
  }

  /** INSERT OR IGNORE. */
  function InsertOrIgnore<P(==), A>(rows: seq<Row<P, A>>, row: Row<P, A>): seq<Row<P, A>> {
    if Has(rows, row.place, row.user) then rows else rows + [row]
  }

  /** DELETE by primary key. */
  function Without<P(==), A>(rows: seq<Row<P, A>>, place: P, user: User): seq<Row<P, A>> {
    if rows == [] then []
    else if rows[0].place == place && rows[0].user == user then Without(rows[1..], place, user)
    else [rows[0]] + Without(rows[1..], place, user)
  }

  /** `create_group`: two inserts under one lock.  The second refuses a duplicate row, but the
      first row then stays, as there is no transaction. */
  function CreateGroup(t: Tables, id: string, creator: User): (Tables, bool) {
    if id in t.groups then (t, false)
    else
      var t' := t.(groups := t.groups[id := creator]);
      if Has(t.members, id, creator) then (t', false)
      else (t'.(members := t.members + [Row(id, creator, Admin)]), true)
  }

  function AddGroupMember(t: Tables, group: string, user: User): Tables {
    t.(members := InsertOrIgnore(t.members, Row(group, user, Member)))
  }

  function RemoveGroupMember(t: Tables, group: string, user: User): Tables {
    t.(members := Without(t.members, group, user))
  }

  function CreateChannel(t: Tables, owner: User): (Tables, nat) {
    (t.(channels := t.channels[t.nextChannel := owner], nextChannel := t.nextChannel + 1), t.nextChannel)
  }

  function SubscribeChannel(t: Tables, channel: nat, user: User): Tables {
    t.(subscribers := InsertOrIgnore(t.subscribers, Row(channel, user, ())))
  }

  function UnsubscribeChannel(t: Tables, channel: nat, user: User): Tables {
    t.(subscribers := Without(t.subscribers, channel, user))
  }

  /** The membership tables in place. */
  class MembershipStore {
    var groups: map<string, User>
    var members: seq<Row<string, Role>>
    var channels: map<nat, User>
    var subscribers: seq<Row<nat, ()>>
    var nextChannel: nat

    function State(): Tables
      reads this
    {
      Tables(groups, members, channels, subscribers, nextChannel)
    }

    constructor ()
      ensures State() == EMPTY_TABLES
    {
      groups, members, channels, subscribers, nextChannel := map[], [], map[], [], 1;
    }

    method Create(id: string, creator: User) returns (ok: bool)
      modifies this
      ensures (State(), ok) == CreateGroup(old(State()), id, creator)
    {
      if id in groups {
        return false;
      }
      groups := groups[id := creator];
      if Has(members, id, creator) {
        return false;
      }
      members := members + [Row(id, creator, Admin)];
      return true;
    }

    method AddMember(group: string, user: User)
      modifies this
      ensures State() == AddGroupMember(old(State()), group, user)
    {
      if !Has(members, group, user) {
        members := members + [Row(group, user, Member)];
      }
    }

    method RemoveMember(group: string, user: User)
      modifies this
      ensures State() == RemoveGroupMember(old(State()), group, user)
    {
      members := Delete(members, group, user);
    }

    method Open(owner: User) returns (channel: nat)
      modifies this
      ensures (State(), channel) == CreateChannel(old(State()), owner)
    {
      channel := nextChannel;
      channels, nextChannel := channels[channel := owner], channel + 1;
    }

    method Subscribe(channel: nat, user: User)
      modifies this
      ensures State() == SubscribeChannel(old(State()), channel, user)
    {
      if !Has(subscribers, channel, user) {
        subscribers := subscribers + [Row(channel, user, ())];
      }
    }

    method Unsubscribe(channel: nat, user: User)
      modifies this
      ensures State() == UnsubscribeChannel(old(State()), channel, user)
    {
      subscribers := Delete(subscribers, channel, user);
    }
  }

  method Delete<P(==), A>(rows: seq<Row<P, A>>, place: P, user: User) returns (kept: seq<Row<P, A>>)
    ensures kept == Without(rows, place, user)
  {
    kept := [];
    for i := 0 to |rows|
      invariant kept + Without(rows[i..], place, user) == Without(rows, place, user)
    {
      assert rows[i..][1..] == rows[i + 1..];
      if !(rows[i].place == place && rows[i].user == user) {
        kept := kept + [rows[i]];
      }
    }
  }

  // ── Handlers in progress ────────────────────────────────────────────────

  /** Where a handler stands between two store calls. */
  datatype Handler =
    | JoinStart(group: string, user: User)           // before group_exists
    | JoinInsert(group: string, user: User)          // after it said yes
    | SubscribeStart(channel: nat, user: User)       // before get_channel_owner
    | SubscribeInsert(channel: nat, user: User)      // after it found an owner
    | OwnerSubscribe(channel: nat, user: User)       // the channel was created; its owner comes next
    | Finished(ok: bool)

  datatype Server = Server(tables: Tables, handlers: map<nat, Handler>)

  /** A step of the server: a request arrives, a handler with one store call runs whole, or a
      handler in progress makes its next store call. */
  datatype Move =
    | Arrive(task: nat, handler: Handler)
    | DoCreateGroup(id: string, creator: User)
    | DoLeave(group: string, user: User)
    | DoCreateChannel(task: nat, owner: User)
    | DoUnsubscribe(channel: nat, user: User)
    | Resume(task: nat)

  function Advance(t: Tables, h: Handler): (Tables, Handler) {
    match h
    case JoinStart(g, u) => (t, if g in t.groups then JoinInsert(g, u) else Finished(false))
    case JoinInsert(g, u) => (AddGroupMember(t, g, u), Finished(true))
    case SubscribeStart(c, u) => (t, if c in t.channels then SubscribeInsert(c, u) else Finished(false))
    case SubscribeInsert(c, u) => (SubscribeChannel(t, c, u), Finished(true))
    case OwnerSubscribe(c, u) => (SubscribeChannel(t, c, u), Finished(true))
    case Finished(_) => (t, h)
  }

  function Next(s: Server, m: Move): Server {
    match m
    case Arrive(task, h) =>
      if task !in s.handlers && (h.JoinStart? || h.SubscribeStart?) then s.(handlers := s.handlers[task := h]) else s
    case DoCreateGroup(id, creator) => s.(tables := CreateGroup(s.tables, id, creator).0)
    case DoLeave(g, u) => s.(tables := RemoveGroupMember(s.tables, g, u))
    case DoCreateChannel(task, owner) =>
      if task in s.handlers then s
      else
        var (t, c) := CreateChannel(s.tables, owner);
        Server(t, s.handlers[task := OwnerSubscribe(c, owner)])
    case DoUnsubscribe(c, u) => s.(tables := UnsubscribeChannel(s.tables, c, u))
    case Resume(task) =>
      if task in s.handlers then
        var (t, h) := Advance(s.tables, s.handlers[task]);
        Server(t, s.handlers[task := h])
      else s
  }

  function Serve(moves: seq<Move>): Server {
    if moves == [] then Server(EMPTY_TABLES, map[]) else Next(Serve(moves[..|moves| - 1]), moves[|moves| - 1])
  }

  // ── What every interleaving keeps ───────────────────────────────────────

  /** Each row refers to a known place, and no key occurs twice. */
  ghost predicate OneEach<P(!new), A(!new)>(rows: seq<Row<P, A>>, places: set<P>) {
    && (forall i :: 0 <= i < |rows| ==> rows[i].place in places)
    && (forall i, j :: 0 <= i < j < |rows| ==> rows[i].place != rows[j].place || rows[i].user != rows[j].user)
  }

  ghost predicate Consistent(t: Tables) {
    && OneEach(t.members, t.groups.Keys)
    && OneEach(t.subscribers, t.channels.Keys)
    && (forall c :: c in t.channels ==> c < t.nextChannel)
  }

  /** A handler about to insert has seen its group or channel, which is still there. */
  predicate Informed(t: Tables, h: Handler) {
    match h
    case JoinInsert(g, _) => g in t.groups
    case SubscribeInsert(c, _) => c in t.channels
    case OwnerSubscribe(c, _) => c in t.channels
    case _ => true
  }

  ghost predicate Safe(s: Server) {
    Consistent(s.tables) && forall k :: k in s.handlers ==> Informed(s.tables, s.handlers[k])
  }

  /** A DELETE removes the rows with that key and keeps all others. */
  lemma {:induction false} WithoutAre<P, A>(rows: seq<Row<P, A>>, place: P, user: User)
    ensures forall r :: r in Without(rows, place, user) <==> r in rows && !(r.place == place && r.user == user)
  {
    if rows != [] {
      WithoutAre(rows[1..], place, user);
      assert rows == [rows[0]] + rows[1..];
    }
  }

  lemma {:induction false} WithoutOneEach<P(!new), A(!new)>(rows: seq<Row<P, A>>, places: set<P>, place: P, user: User)
    requires OneEach(rows, places)
    ensures OneEach(Without(rows, place, user), places)
  {
    if rows != [] {
      var rest := Without(rows[1..], place, user);
      WithoutOneEach(rows[1..], places, place, user);
      WithoutAre(rows[1..], place, user);
      forall i | 0 <= i < |rest| ensures rest[i].place != rows[0].place || rest[i].user != rows[0].user {
        assert rest[i] in rows[1..];
      }
    }
  }

  lemma {:induction false} OneEachGrows<P(!new), A(!new)>(rows: seq<Row<P, A>>, places: set<P>, places': set<P>,
                                                          row: Row<P, A>)
    requires OneEach(rows, places) && places <= places' && row.place in places'
    ensures OneEach(InsertOrIgnore(rows, row), places')
  {
  }

  /** Groups and channels only grow, so what a handler has seen stays true. */
  ghost predicate Grows(t: Tables, t': Tables) {
    t.groups.Keys <= t'.groups.Keys && t.channels.Keys <= t'.channels.Keys
  }

  lemma {:induction false} NextKeepsConsistent(s: Server, m: Move)
    requires Safe(s)
    ensures Consistent(Next(s, m).tables) && Grows(s.tables, Next(s, m).tables)
  {
    var t := s.tables;
    match m
    case DoCreateGroup(id, creator) =>
      OneEachGrows(t.members, t.groups.Keys, t.groups.Keys + {id}, Row(id, creator, Admin));
    case DoLeave(g, u) => WithoutOneEach(t.members, t.groups.Keys, g, u);
    case DoUnsubscribe(c, u) => WithoutOneEach(t.subscribers, t.channels.Keys, c, u);
    case Resume(task) =>
      if task in s.handlers {
        assert Informed(t, s.handlers[task]);
        match s.handlers[task]
        case JoinInsert(g, u) => OneEachGrows(t.members, t.groups.Keys, t.groups.Keys, Row(g, u, Member));
        case SubscribeInsert(c, u) => OneEachGrows(t.subscribers, t.channels.Keys, t.channels.Keys, Row(c, u, ()));
        case OwnerSubscribe(c, u) => OneEachGrows(t.subscribers, t.channels.Keys, t.channels.Keys, Row(c, u, ()));
        case _ =>
      }
    case _ =>
  }

  lemma {:induction false} NextKeepsSafe(s: Server, m: Move)
    requires Safe(s)
    ensures Safe(Next(s, m))
  {
    NextKeepsConsistent(s, m);
  }

  /** Under every interleaving of handlers between their store calls, every member and subscriber
      row refers to an existing group or channel and occurs once. */
  lemma {:induction false} MembershipIsSafe(moves: seq<Move>)
    ensures Safe(Serve(moves))
  {
    if moves != [] {
      MembershipIsSafe(moves[..|moves| - 1]);
      NextKeepsSafe(Serve(moves[..|moves| - 1]), moves[|moves| - 1]);
    }
  }

  /** In every reachable server a group id not yet taken gets its creator as admin and as its
      only member: the second insert of `create_group` never meets an old row. */
  lemma {:induction false} GroupStartsWithCreator(moves: seq<Move>, id: string, creator: User)
    requires id !in Serve(moves).tables.groups
    ensures var (t, ok) := CreateGroup(Serve(moves).tables, id, creator);
      ok && forall r :: r in t.members && r.place == id <==> r == Row(id, creator, Admin)
  {
    MembershipIsSafe(moves);
  }

  /** A move keeps a member in, unless it is that user's leaving. */
  lemma {:induction false} NextKeepsMember(s: Server, m: Move, group: string, user: User)
    requires Has(s.tables.members, group, user) && m != DoLeave(group, user)
    ensures Has(Next(s, m).tables.members, group, user)
  {
    var rows := s.tables.members;
    var i :| 0 <= i < |rows| && rows[i].place == group && rows[i].user == user;
    if m.DoLeave? {
      WithoutAre(rows, m.group, m.user);
      assert rows[i] in Without(rows, m.group, m.user);
    } else {
      assert rows <= Next(s, m).tables.members;
      assert Next(s, m).tables.members[i] == rows[i];
    }
  }

  /** A join that was answered with success took effect: the user stays a member through every
      later run of other handlers in which that user does not leave that group. */
  lemma {:induction false} JoinTakesEffect(moves: seq<Move>, task: nat, later: seq<Move>)
    requires var s := Serve(moves); task in s.handlers && s.handlers[task].JoinInsert?
    requires var h := Serve(moves).handlers[task]; DoLeave(h.group, h.user) !in later
    ensures var h := Serve(moves).handlers[task];
      Has(Serve(moves + [Resume(task)] + later).tables.members, h.group, h.user)
  {
    var s, h, all := Serve(moves), Serve(moves).handlers[task], moves + [Resume(task)] + later;
    if later == [] {
      assert all[..|all| - 1] == moves;
      var rows := s.tables.members;
      if !Has(rows, h.group, h.user) {
        assert (rows + [Row(h.group, h.user, Member)])[|rows|] == Row(h.group, h.user, Member);
      }
    } else {
      var front, m := later[..|later| - 1], later[|later| - 1];
      JoinTakesEffect(moves, task, front);
      assert all[..|all| - 1] == moves + [Resume(task)] + front;
      NextKeepsMember(Serve(moves + [Resume(task)] + front), m, h.group, h.user);
    }
  }

  /** A subscription that was answered with success took effect, an owner's included: the user stays
      a subscriber through every later run in which that user does not unsubscribe. */
  lemma {:induction false} SubscribeTakesEffect(moves: seq<Move>, task: nat, later: seq<Move>)
    requires var s := Serve(moves);
      task in s.handlers && (s.handlers[task].SubscribeInsert? || s.handlers[task].OwnerSubscribe?)
    requires var h := Serve(moves).handlers[task]; DoUnsubscribe(h.channel, h.user) !in later
    ensures var h := Serve(moves).handlers[task];
      Has(Serve(moves + [Resume(task)] + later).tables.subscribers, h.channel, h.user)
  {
    var s, h, all := Serve(moves), Serve(moves).handlers[task], moves + [Resume(task)] + later;
    if later == [] {
      assert all[..|all| - 1] == moves;
      var rows := s.tables.subscribers;
      if !Has(rows, h.channel, h.user) {
        assert (rows + [Row(h.channel, h.user, ())])[|rows|] == Row(h.channel, h.user, ());
      }
    } else {
      var front, m := later[..|later| - 1], later[|later| - 1];
      SubscribeTakesEffect(moves, task, front);
      assert all[..|all| - 1] == moves + [Resume(task)] + front;
      NextKeepsSubscriber(Serve(moves + [Resume(task)] + front), m, h.channel, h.user);
    }
  }

  lemma {:induction false} NextKeepsSubscriber(s: Server, m: Move, channel: nat, user: User)
    requires Has(s.tables.subscribers, channel, user) && m != DoUnsubscribe(channel, user)
    ensures Has(Next(s, m).tables.subscribers, channel, user)
  {
    var rows := s.tables.subscribers;
    var i :| 0 <= i < |rows| && rows[i].place == channel && rows[i].user == user;
    if m.DoUnsubscribe? {
      WithoutAre(rows, m.channel, m.user);
      assert rows[i] in Without(rows, m.channel, m.user);
    } else {
      assert rows <= Next(s, m).tables.subscribers;
      assert Next(s, m).tables.subscribers[i] == rows[i];
    }
  }

  // ── The requests alone ──────────────────────────────────────────────────

  /** Who first created a group. */
  function Founder(moves: seq<Move>, group: string): Option<User> {
    if moves == [] then None
    else
      var front, m := moves[..|moves| - 1], moves[|moves| - 1];
      if Founder(front, group).None? && m.DoCreateGroup? && m.id == group then Some(m.creator)
      else Founder(front, group)
  }

  /** The owners of the channels created; the first is number 1.  A task makes one request. */
  function Owners(moves: seq<Move>): seq<User>
    decreases |moves|
  {
    if moves == [] then []
    else
      var front, m := moves[..|moves| - 1], moves[|moves| - 1];
      if m.DoCreateChannel? && Stage(front, m.task).None? then Owners(front) + [m.owner] else Owners(front)
  }

  /** Where a request stands: it moves on exactly when it is resumed, and is
      refused if the group or channel it names did not exist at its first resumption. */
  function Stage(moves: seq<Move>, task: nat): Option<Handler>
    decreases |moves|
  {
    if moves == [] then None
    else
      var front, m := moves[..|moves| - 1], moves[|moves| - 1];
      match Stage(front, task)
      case None =>
        if m.Arrive? && m.task == task && (m.handler.JoinStart? || m.handler.SubscribeStart?) then Some(m.handler)
        else if m.DoCreateChannel? && m.task == task then Some(OwnerSubscribe(|Owners(front)| + 1, m.owner))
        else None
      case Some(h) =>
        if m != Resume(task) then Some(h)
        else if h.JoinStart? && Founder(front, h.group).Some? then Some(JoinInsert(h.group, h.user))
        else if h.SubscribeStart? && 1 <= h.channel <= |Owners(front)| then Some(SubscribeInsert(h.channel, h.user))
        else if h.JoinStart? || h.SubscribeStart? then Some(Finished(false))
        else if h.Finished? then Some(h)
        else Some(Finished(true))
  }

  /** A user's role in a group: admin as its founder, member by a join that was granted and
      resumed, and nothing after leaving. */
  function RoleIn(moves: seq<Move>, group: string, user: User): Option<Role> {
    if moves == [] then None
    else
      var front, m := moves[..|moves| - 1], moves[|moves| - 1];
      if m == DoLeave(group, user) then None
      else if m == DoCreateGroup(group, user) && Founder(front, group).None? then Some(Admin)
      else if RoleIn(front, group, user).None? && m.Resume? && Stage(front, m.task) == Some(JoinInsert(group, user))
      then Some(Member)
      else RoleIn(front, group, user)
  }

  /** A user is subscribed as the owner or by a subscription that was granted, each once resumed,
      until unsubscribing. */
  predicate Subscribed(moves: seq<Move>, channel: nat, user: User) {
    if moves == [] then false
    else
      var front, m := moves[..|moves| - 1], moves[|moves| - 1];
      && m != DoUnsubscribe(channel, user)
      && (|| Subscribed(front, channel, user)
          || (m.Resume? && Stage(front, m.task) == Some(SubscribeInsert(channel, user)))
          || (m.Resume? && Stage(front, m.task) == Some(OwnerSubscribe(channel, user))))
  }

  ghost predicate GroupsFollow(t: Tables, moves: seq<Move>) {
    && (forall g :: g in t.groups <==> Founder(moves, g).Some?)
    && (forall g :: g in t.groups ==> Founder(moves, g) == Some(t.groups[g]))
  }

  ghost predicate ChannelsFollow(t: Tables, moves: seq<Move>) {
    && t.nextChannel == |Owners(moves)| + 1
    && (forall c: nat :: c in t.channels <==> 1 <= c <= |Owners(moves)|)
    && (forall c: nat :: c in t.channels ==> t.channels[c] == Owners(moves)[c - 1])
  }

  ghost predicate TaskFollows(s: Server, moves: seq<Move>, task: nat) {
    Stage(moves, task) == if task in s.handlers then Some(s.handlers[task]) else None
  }

  ghost predicate Follows(s: Server, moves: seq<Move>) {
    GroupsFollow(s.tables, moves) && ChannelsFollow(s.tables, moves) && AllFollow(s, moves)
  }

  ghost predicate AllFollow(s: Server, moves: seq<Move>) {
    forall task: nat :: TaskFollows(s, moves, task)
  }

  lemma {:induction false} NextGroups(s: Server, moves: seq<Move>)
    requires moves != [] && GroupsFollow(s.tables, moves[..|moves| - 1])
    ensures GroupsFollow(Next(s, moves[|moves| - 1]).tables, moves)
  {
    var front, m := moves[..|moves| - 1], moves[|moves| - 1];
    assert Next(s, m).tables.groups == if m.DoCreateGroup? && m.id !in s.tables.groups
                                       then s.tables.groups[m.id := m.creator] else s.tables.groups;
  }

  lemma {:induction false} NextChannels(s: Server, moves: seq<Move>)
    requires moves != [] && ChannelsFollow(s.tables, moves[..|moves| - 1])
    requires AllFollow(s, moves[..|moves| - 1])
    ensures ChannelsFollow(Next(s, moves[|moves| - 1]).tables, moves)
  {
    var front, m := moves[..|moves| - 1], moves[|moves| - 1];
    if m.DoCreateChannel? {
      assert TaskFollows(s, front, m.task);
    }
  }

  lemma {:induction false} NextTask(s: Server, moves: seq<Move>, task: nat)
    requires moves != [] && GroupsFollow(s.tables, moves[..|moves| - 1])
    requires ChannelsFollow(s.tables, moves[..|moves| - 1]) && TaskFollows(s, moves[..|moves| - 1], task)
    ensures TaskFollows(Next(s, moves[|moves| - 1]), moves, task)
  {
  }

  /** In every reachable server groups, channels and the requests in progress are what the moves say. */
  lemma {:induction false} ServerFollows(moves: seq<Move>)
    ensures Follows(Serve(moves), moves)
  {
    if moves != [] {
      ServerFollows(moves[..|moves| - 1]);
      var s := Serve(moves[..|moves| - 1]);
      NextGroups(s, moves);
      NextChannels(s, moves);
      forall task: nat ensures TaskFollows(Serve(moves), moves, task) {
        NextTask(s, moves, task);
      }
    }
  }

  /** In every reachable server a group is created if and only if no earlier move created one with that
      id, and a refusal changes nothing. */
  lemma {:induction false} CreationExactly(moves: seq<Move>, id: string, creator: User)
    ensures var t := Serve(moves).tables;
      var (t', ok) := CreateGroup(t, id, creator);
      && (ok <==> Founder(moves, id).None?)
      && (!ok ==> t' == t)
      && (ok ==> Founder(moves + [DoCreateGroup(id, creator)], id) == Some(creator))
  {
    ServerFollows(moves);
    if Founder(moves, id).None? {
      GroupStartsWithCreator(moves, id, creator);
      assert (moves + [DoCreateGroup(id, creator)])[..|moves|] == moves;
    }
  }

  /** In every reachable server, under every interleaving, a user has a row in a group if and only if
      the requests made the user a member, and the row's role is that one. */
  lemma {:induction false} MembersExactly(moves: seq<Move>, group: string, user: User, role: Role)
    ensures Row(group, user, role) in Serve(moves).tables.members <==> RoleIn(moves, group, user) == Some(role)
  {
    if moves != [] {
      var front, m := moves[..|moves| - 1], moves[|moves| - 1];
      MembersExactly(front, group, user, Admin);
      MembersExactly(front, group, user, Member);
      ServerFollows(front);
      if m.Resume? {
        assert TaskFollows(Serve(front), front, m.task);
      }
      MembershipIsSafe(front);
      HasRow(Serve(front).tables.members, group, user);
      assert Has(Serve(front).tables.members, group, user) <==> RoleIn(front, group, user).Some? by {
        var r := RoleIn(front, group, user);
        assert r.Some? ==> r.value.Admin? || r.value.Member?;
      }
      assert group in Serve(front).tables.groups <==> Founder(front, group).Some?;
      MembersExactly(front, group, user, role);
      NextMember(Serve(front), m, group, user, role);
    } else {
      assert Serve(moves).tables.members == [] && Row(group, user, role) !in Serve(moves).tables.members;
    }
  }

  /** The member rows after a move. */
  lemma {:induction false} NextMember(s: Server, m: Move, group: string, user: User, role: Role)
    requires Safe(s)
    ensures var before, row := s.tables.members, Row(group, user, role);
      row in Next(s, m).tables.members <==>
        if m == DoLeave(group, user) then false
        else if m == DoCreateGroup(group, user) && group !in s.tables.groups then role == Admin
        else if !Has(before, group, user) && m.Resume? && m.task in s.handlers &&
                s.handlers[m.task] == JoinInsert(group, user) then role == Member
        else row in before
  {
    var rows := s.tables.members;
    HasRow(rows, group, user);
    if m.DoLeave? {
      WithoutAre(rows, m.group, m.user);
    } else if m.DoCreateGroup? && m.id !in s.tables.groups {
      assert !Has(rows, m.id, m.creator);
      HasRow(rows, m.id, m.creator);
    }
  }

  lemma {:induction false} HasRow(rows: seq<Row<string, Role>>, group: string, user: User)
    ensures Has(rows, group, user) <==> Row(group, user, Admin) in rows || Row(group, user, Member) in rows
  {
    if Has(rows, group, user) {
      var i :| 0 <= i < |rows| && rows[i].place == group && rows[i].user == user;
      assert rows[i] == Row(group, user, rows[i].info) && rows[i] in rows;
      assert rows[i].info == Admin || rows[i].info == Member;
    }
    InHas(rows, Row(group, user, Admin));
    InHas(rows, Row(group, user, Member));
  }

  lemma {:induction false} InHas<P, A>(rows: seq<Row<P, A>>, row: Row<P, A>)
    ensures row in rows ==> Has(rows, row.place, row.user)
  {
    if row in rows {
      var i :| 0 <= i < |rows| && rows[i] == row;
    }
  }

  /** In every reachable server, under every interleaving, a user has a row in a channel if and only if
      the requests made the user a subscriber. */
  lemma {:induction false} SubscribersExactly(moves: seq<Move>, channel: nat, user: User)
    ensures Has(Serve(moves).tables.subscribers, channel, user) <==> Subscribed(moves, channel, user)
  {
    if moves != [] {
      var front, m := moves[..|moves| - 1], moves[|moves| - 1];
      SubscribersExactly(front, channel, user);
      ServerFollows(front);
      if m.Resume? {
        assert TaskFollows(Serve(front), front, m.task);
      }
      NextSubscriber(Serve(front), m, channel, user);
    } else {
      assert Serve(moves).tables.subscribers == [] && !Has(Serve(moves).tables.subscribers, channel, user);
    }
  }

  /** The subscriber rows after a move. */
  lemma {:induction false} NextSubscriber(s: Server, m: Move, channel: nat, user: User)
    ensures Has(Next(s, m).tables.subscribers, channel, user) <==>
            && m != DoUnsubscribe(channel, user)
            && (|| Has(s.tables.subscribers, channel, user)
                || (m.Resume? && m.task in s.handlers &&
                    (s.handlers[m.task] == SubscribeInsert(channel, user) ||
                     s.handlers[m.task] == OwnerSubscribe(channel, user))))
  {
    var rows, rows' := s.tables.subscribers, Next(s, m).tables.subscribers;
    HasSubscriber(rows, channel, user);
    HasSubscriber(rows', channel, user);
    if m.DoUnsubscribe? {
      WithoutAre(rows, m.channel, m.user);
    }
  }

  lemma {:induction false} HasSubscriber(rows: seq<Row<nat, ()>>, channel: nat, user: User)
    ensures Has(rows, channel, user) <==> Row(channel, user, ()) in rows
  {
    if Has(rows, channel, user) {
      var i :| 0 <= i < |rows| && rows[i].place == channel && rows[i].user == user;
      assert rows[i].info == ();
      assert rows[i] in rows;
    }
    InHas(rows, Row(channel, user, ()));
  }

  // ── The member list ─────────────────────────────────────────────────────

  /** The order of the lists: by code points, as in SQLite's binary collation. */
  predicate Before(a: User, b: User) {
    b != "" && (a == "" || a[0] < b[0] || (a[0] == b[0] && Before(a[1..], b[1..])))
  }

  function Insert(u: User, us: seq<User>): seq<User> {
    if us == [] then [u]
    else if Before(u, us[0]) then [u] + us
    else [us[0]] + Insert(u, us[1..])
  }

  /** The users with a row for a place, in order. */
  function UsersOf<P(==), A>(rows: seq<Row<P, A>>, place: P): seq<User> {
    if rows == [] then []
    else if rows[0].place == place then Insert(rows[0].user, UsersOf(rows[1..], place))
    else UsersOf(rows[1..], place)
  }

  /** In order, and no user twice. */
  ghost predicate Ascending(us: seq<User>) {
    forall i, j :: 0 <= i < j < |us| ==> Before(us[i], us[j])
  }

  lemma {:induction false} BeforeIsTotal(a: User, b: User)
    ensures a == b <==> !Before(a, b) && !Before(b, a)
    ensures !(Before(a, b) && Before(b, a))
  {
    if a != "" && b != "" {
      BeforeIsTotal(a[1..], b[1..]);
      assert a == [a[0]] + a[1..] && b == [b[0]] + b[1..];
    }
  }

  lemma {:induction false} BeforeIsTransitive(a: User, b: User, c: User)
    requires Before(a, b) && Before(b, c)
    ensures Before(a, c)
  {
    if a != "" && a[0] == b[0] && b[0] == c[0] {
      BeforeIsTransitive(a[1..], b[1..], c[1..]);
    }
  }

  lemma {:induction false} InsertAre(u: User, us: seq<User>)
    ensures forall x :: x in Insert(u, us) <==> x == u || x in us
  {
    if us != [] {
      InsertAre(u, us[1..]);
      assert us == [us[0]] + us[1..];
    }
  }

  lemma {:induction false} InsertAscending(u: User, us: seq<User>)
    requires Ascending(us) && u !in us
    ensures Ascending(Insert(u, us))
  {
    if us != [] {
      BeforeIsTotal(u, us[0]);
      if Before(u, us[0]) {
        forall j | 1 <= j < |us| ensures Before(u, us[j]) {
          BeforeIsTransitive(u, us[0], us[j]);
        }
      } else {
        var rest := Insert(u, us[1..]);
        InsertAscending(u, us[1..]);
        InsertAre(u, us[1..]);
        forall j | 0 <= j < |rest| ensures Before(us[0], rest[j]) {
          assert rest[j] in rest;
        }
      }
    }
  }

  lemma {:induction false} AscendingDistinct(us: seq<User>)
    requires Ascending(us)
    ensures Distinct(us)
  {
    forall i, j | 0 <= i < j < |us| ensures us[i] != us[j] {
      BeforeIsTotal(us[i], us[j]);
    }
  }

  lemma {:induction false} UsersListed<P, A>(rows: seq<Row<P, A>>, place: P)
    ensures forall u :: u in UsersOf(rows, place) <==> Has(rows, place, u)
  {
    if rows != [] {
      UsersListed(rows[1..], place);
      InsertAre(rows[0].user, UsersOf(rows[1..], place));
      forall u
        ensures Has(rows, place, u) <==> (rows[0].place == place && rows[0].user == u) || Has(rows[1..], place, u)
      {
        if Has(rows[1..], place, u) {
          var i :| 0 <= i < |rows[1..]| && rows[1..][i].place == place && rows[1..][i].user == u;
          assert rows[i + 1] == rows[1..][i];
        }
      }
    }
  }

  lemma {:induction false} UsersAscending<P(!new), A(!new)>(rows: seq<Row<P, A>>, places: set<P>, place: P)
    requires OneEach(rows, places)
    ensures Ascending(UsersOf(rows, place))
  {
    if rows != [] {
      UsersAscending(rows[1..], places, place);
      UsersListed(rows[1..], place);
      if rows[0].place == place {
        assert !Has(rows[1..], place, rows[0].user);
        InsertAscending(rows[0].user, UsersOf(rows[1..], place));
      }
    }
  }

  /** In every reachable server the member list of a group names exactly its members, each once, in
      order, and the subscriber list of a channel likewise. */
  lemma {:induction false} ListsAreExact(moves: seq<Move>, group: string, channel: nat)
    ensures var t := Serve(moves).tables;
      && Ascending(UsersOf(t.members, group)) && Distinct(UsersOf(t.members, group))
      && Ascending(UsersOf(t.subscribers, channel)) && Distinct(UsersOf(t.subscribers, channel))
      && (forall u :: u in UsersOf(t.members, group) <==> Has(t.members, group, u))
      && (forall u :: u in UsersOf(t.subscribers, channel) <==> Has(t.subscribers, channel, u))
  {
    var t := Serve(moves).tables;
    MembershipIsSafe(moves);
    UsersListed(t.members, group);
    UsersListed(t.subscribers, channel);
    UsersAscending(t.members, t.groups.Keys, group);
    UsersAscending(t.subscribers, t.channels.Keys, channel);
    AscendingDistinct(UsersOf(t.members, group));
    AscendingDistinct(UsersOf(t.subscribers, channel));
  }
}
