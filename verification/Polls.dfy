/** Polls of the relay's store (tintin-server/src/store.rs): the tally, a join that names the
    option only, is the number of users whose last accepted vote is that option; closed polls are
    frozen.
 */
module Polls {
  import opened Crypto
  import opened Sessions

  datatype Poll = Poll(creator: User, question: string, active: bool)

  datatype PollOption = PollOption(id: nat, poll: nat, text: string)

  datatype Vote = Vote(poll: nat, user: User, option: nat)

  datatype PollState = PollState(
    polls: map<nat, Poll>, options: seq<PollOption>, votes: seq<Vote>, nextPoll: nat, nextOption: nat)

  const NO_POLLS := PollState(map[], [], [], 1, 1)

  datatype OptionResult = OptionResult(id: nat, text: string, votes: nat)

  datatype Results = Results(question: string, creator: User, active: bool, options: seq<OptionResult>)

  datatype VoteError = Closed | NoSuchOption

  // ── The operations ──────────────────────────────────────────────────────

  /** The option rows of a new poll. */
  function OptionRows(poll: nat, first: nat, texts: seq<string>): seq<PollOption>
    decreases |texts|
  {
    if texts == [] then [] else [PollOption(first, poll, texts[0])] + OptionRows(poll, first + 1, texts[1..])
  }

  function CreatePoll(s: PollState, creator: User, question: string, texts: seq<string>): PollState {
    PollState(s.polls[s.nextPoll := Poll(creator, question, true)],
              s.options + OptionRows(s.nextPoll, s.nextOption, texts), s.votes,
              s.nextPoll + 1, s.nextOption + |texts|)
  }

  predicate HasOption(options: seq<PollOption>, id: nat, poll: nat) {
    exists i :: 0 <= i < |options| && options[i].id == id && options[i].poll == poll
  }

  function VoteOutcome(s: PollState, poll: nat, option: nat): Option<VoteError> {
    if poll !in s.polls || !s.polls[poll].active then Some(Closed)
    else if !HasOption(s.options, option, poll) then Some(NoSuchOption)
    else None
  }

  /** The vote rows without the one of a user in a poll. */
  function WithoutVote(votes: seq<Vote>, poll: nat, user: User): seq<Vote> {
    if votes == [] then []
    else if votes[0].poll == poll && votes[0].user == user then WithoutVote(votes[1..], poll, user)
    else [votes[0]] + WithoutVote(votes[1..], poll, user)
  }

  function VotePoll(s: PollState, poll: nat, user: User, option: nat): PollState {
    if VoteOutcome(s, poll, option).None?
    then s.(votes := WithoutVote(s.votes, poll, user) + [Vote(poll, user, option)])
    else s
  }

  predicate MayClose(s: PollState, poll: nat, user: User) {
    poll in s.polls && s.polls[poll].creator == user
  }

  function ClosePoll(s: PollState, poll: nat, user: User): PollState {
    if MayClose(s, poll, user) then s.(polls := s.polls[poll := s.polls[poll].(active := false)]) else s
  }

  /** The rows a join on the option id alone finds. */
  function JoinCount(votes: seq<Vote>, option: nat): nat {
    if votes == [] then 0 else (if votes[0].option == option then 1 else 0) + JoinCount(votes[1..], option)
  }

  /** One result per option of the poll, in table order. */
  function Tally(options: seq<PollOption>, votes: seq<Vote>, poll: nat): seq<OptionResult> {
    if options == [] then []
    else if options[0].poll == poll
    then
      [OptionResult(options[0].id, options[0].text, JoinCount(votes, options[0].id))] + Tally(options[1..], votes, poll)
    else Tally(options[1..], votes, poll)
  }

  function PollResults(s: PollState, poll: nat): Option<Results> {
    if poll in s.polls
    then Some(Results(s.polls[poll].question, s.polls[poll].creator, s.polls[poll].active,
                      Tally(s.options, s.votes, poll)))
    else None
  }

  /** The poll tables in place. */
  class PollStore {
    var polls: map<nat, Poll>
    var options: seq<PollOption>
    var votes: seq<Vote>
    var nextPoll: nat
    var nextOption: nat

    function State(): PollState
      reads this
    {
      PollState(polls, options, votes, nextPoll, nextOption)
    }

    constructor ()
      ensures State() == NO_POLLS
    {
      polls, options, votes, nextPoll, nextOption := map[], [], [], 1, 1;
    }

    method Create(creator: User, question: string, texts: seq<string>) returns (poll: nat)
      modifies this
      ensures State() == CreatePoll(old(State()), creator, question, texts)
      ensures poll == old(nextPoll)
    {
      poll := nextPoll;
      polls := polls[poll := Poll(creator, question, true)];
      nextPoll := nextPoll + 1;
      var i := 0;
      while i < |texts|
        invariant i <= |texts| && nextOption == old(nextOption) + i
        invariant options + OptionRows(poll, nextOption, texts[i..]) ==
                  old(options) + OptionRows(poll, old(nextOption), texts)
        invariant votes == old(votes) && nextPoll == poll + 1
        invariant polls == old(polls)[poll := Poll(creator, question, true)]
      {
        assert texts[i..][1..] == texts[i + 1..];
        options := options + [PollOption(nextOption, poll, texts[i])];
        nextOption := nextOption + 1;
        i := i + 1;
      }
    }

    method Cast(poll: nat, user: User, option: nat) returns (error: Option<VoteError>)
      modifies this
      ensures State() == VotePoll(old(State()), poll, user, option)
      ensures error == VoteOutcome(old(State()), poll, option)
    {
      if poll !in polls || !polls[poll].active {
        return Some(Closed);
      }
      var found, i := false, 0;
      while i < |options|
        invariant i <= |options|
        invariant found <==> exists j :: 0 <= j < i && options[j].id == option && options[j].poll == poll
      {
        found := found || (options[i].id == option && options[i].poll == poll);
        i := i + 1;
      }
      if !found {
        return Some(NoSuchOption);
      }
      votes := WithoutVote(votes, poll, user) + [Vote(poll, user, option)];
      error := None;
    }

    method Close(poll: nat, user: User) returns (done: bool)
      modifies this
      ensures State() == ClosePoll(old(State()), poll, user)
      ensures done == MayClose(old(State()), poll, user)
    {
      done := poll in polls && polls[poll].creator == user;
      if done {
        polls := polls[poll := polls[poll].(active := false)];
      }
    }

    method Show(poll: nat) returns (results: Option<Results>)
      ensures results == PollResults(State(), poll)
    {
      if poll !in polls {
        return None;
      }
      var tally: seq<OptionResult> := [];
      var i := 0;
      while i < |options|
        invariant i <= |options|
        invariant tally + Tally(options[i..], votes, poll) == Tally(options, votes, poll)
      {
        assert options[i..][1..] == options[i + 1..];
        if options[i].poll == poll {
          tally := tally + [OptionResult(options[i].id, options[i].text, JoinCount(votes, options[i].id))];
        }
        i := i + 1;
      }
      assert tally == tally + Tally(options[i..], votes, poll);
      results := Some(Results(polls[poll].question, polls[poll].creator, polls[poll].active, tally));
    }
  }

  // ── Runs ────────────────────────────────────────────────────────────────

  datatype Command =
    | Create(creator: User, question: string, texts: seq<string>)
    | Cast(poll: nat, user: User, option: nat)
    | Close(poll: nat, user: User)

  function Step(s: PollState, c: Command): PollState {
    match c
    case Create(creator, question, texts) => CreatePoll(s, creator, question, texts)
    case Cast(poll, user, option) => VotePoll(s, poll, user, option)
    case Close(poll, user) => ClosePoll(s, poll, user)
  }

  function RunPolls(cmds: seq<Command>): PollState {
    if cmds == [] then NO_POLLS else Step(RunPolls(cmds[..|cmds| - 1]), cmds[|cmds| - 1])
  }

  // ── The commands alone ──────────────────────────────────────────────────

  datatype Draft = Draft(creator: User, question: string, texts: seq<string>)

  /** The polls created; the first is number 1. */
  function Drafts(cmds: seq<Command>): seq<Draft> {
    if cmds == [] then []
    else
      var front, c := cmds[..|cmds| - 1], cmds[|cmds| - 1];
      if c.Create? then Drafts(front) + [Draft(c.creator, c.question, c.texts)] else Drafts(front)
  }

  function TextCount(ds: seq<Draft>): nat {
    if ds == [] then 0 else TextCount(ds[..|ds| - 1]) + |ds[|ds| - 1].texts|
  }

  /** Options are numbered on through all polls. */
  function FirstOption(ds: seq<Draft>, poll: nat): nat
    requires 1 <= poll <= |ds|
  {
    1 + TextCount(ds[..poll - 1])
  }

  predicate IsPoll(cmds: seq<Command>, poll: nat) {
    1 <= poll <= |Drafts(cmds)|
  }

  /** A poll's creator has closed it since it was created. */
  predicate ClosedSince(cmds: seq<Command>, poll: nat) {
    if cmds == [] then false
    else
      var front := cmds[..|cmds| - 1];
      || ClosedSince(front, poll)
      || (IsPoll(front, poll) && cmds[|cmds| - 1] == Close(poll, Drafts(front)[poll - 1].creator))
  }

  predicate IsOption(ds: seq<Draft>, poll: nat, option: nat)
    requires 1 <= poll <= |ds|
  {
    FirstOption(ds, poll) <= option < FirstOption(ds, poll) + |ds[poll - 1].texts|
  }

  /** What a vote after these commands deserves. */
  function Verdict(cmds: seq<Command>, poll: nat, option: nat): Option<VoteError> {
    if !IsPoll(cmds, poll) || ClosedSince(cmds, poll) then Some(Closed)
    else if !IsOption(Drafts(cmds), poll, option) then Some(NoSuchOption)
    else None
  }

  /** The votes to be accepted, in order. */
  function Accepted(cmds: seq<Command>): seq<Vote> {
    if cmds == [] then []
    else
      var front, c := cmds[..|cmds| - 1], cmds[|cmds| - 1];
      if c.Cast? && Verdict(front, c.poll, c.option).None?
      then Accepted(front) + [Vote(c.poll, c.user, c.option)]
      else Accepted(front)
  }

  /** The option of a user's last vote in a poll. */
  function LastVote(accepted: seq<Vote>, poll: nat, user: User): Option<nat> {
    if accepted == [] then None
    else
      var v := accepted[|accepted| - 1];
      if v.poll == poll && v.user == user then Some(v.option) else LastVote(accepted[..|accepted| - 1], poll, user)
  }

  /** The users whose last accepted vote in a poll is the given option. */
  function Supporters(accepted: seq<Vote>, poll: nat, option: nat): set<User> {
    set i | 0 <= i < |accepted| && LastVote(accepted, poll, accepted[i].user) == Some(option) :: accepted[i].user
  }

  /** The users who voted in a poll. */
  function Voters(accepted: seq<Vote>, poll: nat): set<User> {
    set i | 0 <= i < |accepted| && accepted[i].poll == poll :: accepted[i].user
  }

  // ── The invariant ───────────────────────────────────────────────────────

  /** At most one row per poll and user. */
  ghost predicate OneVoteEach(votes: seq<Vote>) {
    forall i, j :: 0 <= i < j < |votes| ==> votes[i].poll != votes[j].poll || votes[i].user != votes[j].user
  }

  ghost predicate Sound(s: PollState) {
    && (forall p :: p in s.polls ==> p < s.nextPoll)
    && (forall i :: 0 <= i < |s.options| ==> s.options[i].id < s.nextOption && s.options[i].poll < s.nextPoll)
    && (forall i, j :: 0 <= i < j < |s.options| ==> s.options[i].id < s.options[j].id)
    && OneVoteEach(s.votes)
    && (forall v :: v in s.votes ==> HasOption(s.options, v.option, v.poll))
  }

  /** The table holds exactly each user's last accepted vote in each poll. */
  ghost predicate Current(votes: seq<Vote>, accepted: seq<Vote>) {
    forall v: Vote :: v in votes <==> LastVote(accepted, v.poll, v.user) == Some(v.option)
  }

  lemma {:induction false} OptionRowsAt(poll: nat, first: nat, texts: seq<string>)
    ensures |OptionRows(poll, first, texts)| == |texts|
    ensures forall i :: 0 <= i < |texts| ==> OptionRows(poll, first, texts)[i] == PollOption(first + i, poll, texts[i])
    decreases |texts|
  {
    if texts != [] {
      OptionRowsAt(poll, first + 1, texts[1..]);
    }
  }

  lemma {:induction false} WithoutVoteAre(votes: seq<Vote>, poll: nat, user: User)
    ensures forall v :: v in WithoutVote(votes, poll, user) <==> v in votes && !(v.poll == poll && v.user == user)
    ensures OneVoteEach(votes) ==> OneVoteEach(WithoutVote(votes, poll, user))
  {
    if votes != [] {
      WithoutVoteAre(votes[1..], poll, user);
      assert votes == [votes[0]] + votes[1..];
      if OneVoteEach(votes) {
        var rest := WithoutVote(votes[1..], poll, user);
        assert OneVoteEach(votes[1..]);
        forall i | 0 <= i < |rest| ensures rest[i].poll != votes[0].poll || rest[i].user != votes[0].user {
          assert rest[i] in votes[1..];
        }
      }
    }
  }

  lemma {:induction false} LastVoteSnoc(accepted: seq<Vote>, v: Vote, poll: nat, user: User)
    ensures LastVote(accepted + [v], poll, user) ==
            if v.poll == poll && v.user == user then Some(v.option) else LastVote(accepted, poll, user)
  {
    assert (accepted + [v])[..|accepted|] == accepted;
  }

  lemma {:induction false} StepKeepsSound(s: PollState, c: Command)
    requires Sound(s)
    ensures Sound(Step(s, c))
  {
    match c
    case Create(creator, question, texts) =>
      OptionRowsAt(s.nextPoll, s.nextOption, texts);
      forall v | v in s.votes ensures HasOption(Step(s, c).options, v.option, v.poll) {
        var i :| 0 <= i < |s.options| && s.options[i].id == v.option && s.options[i].poll == v.poll;
        assert Step(s, c).options[i] == s.options[i];
      }
    case Cast(poll, user, option) =>
      WithoutVoteAre(s.votes, poll, user);
    case Close(poll, user) =>
  }

  // ── The tables follow the commands ──────────────────────────────────────

  /** The option rows of some polls, numbered on. */
  function AllOptions(ds: seq<Draft>): seq<PollOption> {
    if ds == [] then []
    else AllOptions(ds[..|ds| - 1]) + OptionRows(|ds|, FirstOption(ds, |ds|), ds[|ds| - 1].texts)
  }

  ghost predicate Follows(s: PollState, cmds: seq<Command>) {
    var ds := Drafts(cmds);
    && s.nextPoll == |ds| + 1 && s.nextOption == 1 + TextCount(ds) && s.options == AllOptions(ds)
    && (forall p: nat :: p in s.polls <==> 1 <= p <= |ds|)
    && (forall p: nat :: p in s.polls ==>
          s.polls[p] == Poll(ds[p - 1].creator, ds[p - 1].question, !ClosedSince(cmds, p)))
  }

  lemma {:induction false} NotYetClosed(cmds: seq<Command>, poll: nat)
    requires ClosedSince(cmds, poll)
    ensures IsPoll(cmds, poll)
  {
    var front := cmds[..|cmds| - 1];
    if ClosedSince(front, poll) {
      NotYetClosed(front, poll);
    }
  }

  lemma {:induction false} DraftsSnoc(ds: seq<Draft>, d: Draft)
    ensures TextCount(ds + [d]) == TextCount(ds) + |d.texts|
    ensures AllOptions(ds + [d]) == AllOptions(ds) + OptionRows(|ds| + 1, 1 + TextCount(ds), d.texts)
  {
    assert (ds + [d])[..|ds|] == ds;
  }

  /** In every reachable store the polls and options are those the commands created, numbered in
      order, and a poll is active unless its creator has closed it since. */
  lemma {:induction false} StoreFollows(cmds: seq<Command>)
    ensures Follows(RunPolls(cmds), cmds)
  {
    if cmds != [] {
      var front, c := cmds[..|cmds| - 1], cmds[|cmds| - 1];
      StoreFollows(front);
      match c
      case Create(_, _, _) => CreateFollows(RunPolls(front), cmds);
      case Close(_, _) => CloseFollows(RunPolls(front), cmds);
      case Cast(_, _, _) => CastFollows(RunPolls(front), cmds);
    }
  }

  lemma {:induction false} CreateFollows(s: PollState, cmds: seq<Command>)
    requires cmds != [] && cmds[|cmds| - 1].Create? && Follows(s, cmds[..|cmds| - 1])
    ensures Follows(Step(s, cmds[|cmds| - 1]), cmds)
  {
    var front, c := cmds[..|cmds| - 1], cmds[|cmds| - 1];
    var ds, d := Drafts(front), Draft(c.creator, c.question, c.texts);
    DraftsSnoc(ds, d);
    assert Drafts(cmds) == ds + [d];
    var s' := Step(s, c);
    forall p: nat | p in s'.polls
      ensures s'.polls[p] == Poll(Drafts(cmds)[p - 1].creator, Drafts(cmds)[p - 1].question, !ClosedSince(cmds, p))
    {
      assert ClosedSince(cmds, p) == ClosedSince(front, p);
      if p == |ds| + 1 && ClosedSince(front, p) {
        NotYetClosed(front, p);
      }
    }
  }

  lemma {:induction false} CloseFollows(s: PollState, cmds: seq<Command>)
    requires cmds != [] && cmds[|cmds| - 1].Close? && Follows(s, cmds[..|cmds| - 1])
    ensures Follows(Step(s, cmds[|cmds| - 1]), cmds)
  {
    var front, c := cmds[..|cmds| - 1], cmds[|cmds| - 1];
    assert Drafts(cmds) == Drafts(front);
    forall p: nat | p in s.polls
      ensures ClosedSince(cmds, p) == (ClosedSince(front, p) || c == Close(p, s.polls[p].creator))
    {
    }
  }

  lemma {:induction false} CastFollows(s: PollState, cmds: seq<Command>)
    requires cmds != [] && cmds[|cmds| - 1].Cast? && Follows(s, cmds[..|cmds| - 1])
    ensures Follows(Step(s, cmds[|cmds| - 1]), cmds)
  {
    var front := cmds[..|cmds| - 1];
    assert Drafts(cmds) == Drafts(front);
    forall p: nat ensures ClosedSince(cmds, p) == ClosedSince(front, p) {
    }
  }

  lemma {:induction false} OptionsAre(ds: seq<Draft>, poll: nat, option: nat)
    ensures HasOption(AllOptions(ds), option, poll) <==> 1 <= poll <= |ds| && IsOption(ds, poll, option)
  {
    if ds != [] {
      var front, n := ds[..|ds| - 1], |ds|;
      var rows := OptionRows(n, FirstOption(ds, n), ds[n - 1].texts);
      OptionsAre(front, poll, option);
      OptionRowsAt(n, FirstOption(ds, n), ds[n - 1].texts);
      HasEither(AllOptions(front), rows, option, poll);
      if 1 <= poll < n {
        assert ds[..poll - 1] == front[..poll - 1];
      }
      if poll == n && IsOption(ds, n, option) {
        assert rows[option - FirstOption(ds, n)] == PollOption(option, n, ds[n - 1].texts[option - FirstOption(ds, n)]);
      }
    }
  }

  lemma {:induction false} HasEither(xs: seq<PollOption>, ys: seq<PollOption>, option: nat, poll: nat)
    ensures HasOption(xs + ys, option, poll) <==> HasOption(xs, option, poll) || HasOption(ys, option, poll)
  {
    if i :| 0 <= i < |xs| && xs[i].id == option && xs[i].poll == poll {
      assert (xs + ys)[i] == xs[i];
    }
    if i :| 0 <= i < |ys| && ys[i].id == option && ys[i].poll == poll {
      assert (xs + ys)[|xs| + i] == ys[i];
    }
  }

  /** In every reachable store a vote is accepted if and only if its poll was created, its creator
      has not closed it since, and its option is one of that poll's; otherwise the first of the two
      errors that applies comes back. */
  lemma {:induction false} VotesExactly(cmds: seq<Command>, poll: nat, option: nat)
    ensures VoteOutcome(RunPolls(cmds), poll, option) == Verdict(cmds, poll, option)
  {
    StoreFollows(cmds);
    OptionsAre(Drafts(cmds), poll, option);
  }

  /** And a close succeeds if and only if it is the creator's, of a poll that was created. */
  lemma {:induction false} CloseExactly(cmds: seq<Command>, poll: nat, user: User)
    ensures MayClose(RunPolls(cmds), poll, user) <==> IsPoll(cmds, poll) && Drafts(cmds)[poll - 1].creator == user
  {
    StoreFollows(cmds);
  }

  lemma {:induction false} PollsSound(cmds: seq<Command>)
    ensures Sound(RunPolls(cmds))
    ensures Current(RunPolls(cmds).votes, Accepted(cmds))
  {
    if cmds != [] {
      var front, c := cmds[..|cmds| - 1], cmds[|cmds| - 1];
      PollsSound(front);
      StepKeepsSound(RunPolls(front), c);
      if c.Cast? {
        VotesExactly(front, c.poll, c.option);
      }
      if c.Cast? && Verdict(front, c.poll, c.option).None? {
        WithoutVoteAre(RunPolls(front).votes, c.poll, c.user);
        forall v: Vote { LastVoteSnoc(Accepted(front), Vote(c.poll, c.user, c.option), v.poll, v.user); }
      }
    }
  }

  // ── The tally ───────────────────────────────────────────────────────────

  function UsersFor(votes: seq<Vote>, option: nat): set<User> {
    set i | 0 <= i < |votes| && votes[i].option == option :: votes[i].user
  }

  /** Option ids name their poll. */
  ghost predicate OptionNamesPoll(votes: seq<Vote>) {
    forall i, j :: 0 <= i < |votes| && 0 <= j < |votes| && votes[i].option == votes[j].option ==>
      votes[i].poll == votes[j].poll
  }

  lemma {:induction false} UsersForCons(votes: seq<Vote>, option: nat)
    requires votes != []
    ensures UsersFor(votes, option) ==
            UsersFor(votes[1..], option) + if votes[0].option == option then {votes[0].user} else {}
  {
    forall u | u in UsersFor(votes[1..], option) ensures u in UsersFor(votes, option) {
      var i :| 0 <= i < |votes[1..]| && votes[1..][i].option == option && votes[1..][i].user == u;
      assert votes[i + 1] == votes[1..][i];
    }
  }

  /** Rows with one option come from as many users. */
  lemma {:induction false} JoinCountsUsers(votes: seq<Vote>, option: nat)
    requires OneVoteEach(votes) && OptionNamesPoll(votes)
    ensures JoinCount(votes, option) == |UsersFor(votes, option)|
  {
    if votes != [] {
      JoinCountsUsers(votes[1..], option);
      UsersForCons(votes, option);
      assert votes[0].option == option ==> votes[0].user !in UsersFor(votes[1..], option);
    }
  }

  lemma {:induction false} SoundNamesPolls(s: PollState)
    requires Sound(s)
    ensures OptionNamesPoll(s.votes)
  {
    forall i, j | 0 <= i < |s.votes| && 0 <= j < |s.votes| && s.votes[i].option == s.votes[j].option
      ensures s.votes[i].poll == s.votes[j].poll
    {
      assert s.votes[i] in s.votes && s.votes[j] in s.votes;
    }
  }

  lemma {:induction false} LastVoteCast(accepted: seq<Vote>, poll: nat, user: User)
    ensures LastVote(accepted, poll, user).Some? <==>
            exists i :: 0 <= i < |accepted| && accepted[i].poll == poll && accepted[i].user == user
  {
    if accepted != [] {
      var front, v := accepted[..|accepted| - 1], accepted[|accepted| - 1];
      LastVoteCast(front, poll, user);
      if !(v.poll == poll && v.user == user) && LastVote(front, poll, user).Some? {
        var i :| 0 <= i < |front| && front[i].poll == poll && front[i].user == user;
        assert accepted[i] == front[i];
      }
    }
  }

  /** The users whose rows name an option are those whose last accepted vote is for it. */
  lemma {:induction false} VotersAreSupporters(s: PollState, o: PollOption, accepted: seq<Vote>)
    requires Sound(s) && o in s.options && Current(s.votes, accepted)
    ensures UsersFor(s.votes, o.id) == Supporters(accepted, o.poll, o.id)
  {
    forall u | u in UsersFor(s.votes, o.id) ensures u in Supporters(accepted, o.poll, o.id) {
      var j :| 0 <= j < |s.votes| && s.votes[j].option == o.id && s.votes[j].user == u;
      assert s.votes[j] in s.votes;
      assert s.votes[j].poll == o.poll;
      LastVoteCast(accepted, o.poll, u);
    }
    forall u | u in Supporters(accepted, o.poll, o.id) ensures u in UsersFor(s.votes, o.id) {
      assert Vote(o.poll, u, o.id) in s.votes;
    }
  }

  /** In every reachable store, the votes the results show for an option of a poll, found by a
      join that does not name the poll, are the users whose last accepted vote in that poll is
      that option. */
  lemma {:induction false} TallyIsCount(cmds: seq<Command>, i: nat)
    requires i < |RunPolls(cmds).options|
    ensures var s, o := RunPolls(cmds), RunPolls(cmds).options[i];
      JoinCount(s.votes, o.id) == |Supporters(Accepted(cmds), o.poll, o.id)|
  {
    var s, o, accepted := RunPolls(cmds), RunPolls(cmds).options[i], Accepted(cmds);
    PollsSound(cmds);
    SoundNamesPolls(s);
    JoinCountsUsers(s.votes, o.id);
    VotersAreSupporters(s, o, accepted);
  }

  // ── What the results show ───────────────────────────────────────────────

  lemma {:induction false} TallyConcat(xs: seq<PollOption>, ys: seq<PollOption>, votes: seq<Vote>, poll: nat)
    ensures Tally(xs + ys, votes, poll) == Tally(xs, votes, poll) + Tally(ys, votes, poll)
  {
    if xs == [] {
      assert xs + ys == ys;
    } else {
      TallyConcat(xs[1..], ys, votes, poll);
      assert (xs + ys)[1..] == xs[1..] + ys;
    }
  }

  /** The counts of some texts as options of a poll. */
  function Counts(first: nat, texts: seq<string>, votes: seq<Vote>): seq<OptionResult> {
    seq(|texts|, (i: nat) requires i < |texts| => OptionResult(first + i, texts[i], JoinCount(votes, first + i)))
  }

  lemma {:induction false} TallyRows(n: nat, first: nat, texts: seq<string>, votes: seq<Vote>, poll: nat)
    ensures Tally(OptionRows(n, first, texts), votes, poll) == if n == poll then Counts(first, texts, votes) else []
    decreases |texts|
  {
    if texts != [] {
      TallyRows(n, first + 1, texts[1..], votes, poll);
      var row, rows := PollOption(first, n, texts[0]), OptionRows(n, first + 1, texts[1..]);
      assert ([row] + rows)[1..] == rows;
      if n == poll {
        assert Counts(first, texts, votes) ==
               [OptionResult(first, texts[0], JoinCount(votes, first))] + Counts(first + 1, texts[1..], votes);
      }
    }
  }

  lemma {:induction false} TallyAll(ds: seq<Draft>, votes: seq<Vote>, poll: nat)
    ensures Tally(AllOptions(ds), votes, poll) ==
            if 1 <= poll <= |ds| then Counts(FirstOption(ds, poll), ds[poll - 1].texts, votes) else []
  {
    if ds != [] {
      var front, n := ds[..|ds| - 1], |ds|;
      TallyAll(front, votes, poll);
      TallyConcat(AllOptions(front), OptionRows(n, FirstOption(ds, n), ds[n - 1].texts), votes, poll);
      TallyRows(n, FirstOption(ds, n), ds[n - 1].texts, votes, poll);
      if 1 <= poll < n {
        assert ds[..poll - 1] == front[..poll - 1];
      }
    }
  }

  /** What the results of a poll should show, by the commands alone. */
  ghost function Expected(cmds: seq<Command>, poll: nat): Option<Results> {
    if !IsPoll(cmds, poll) then None
    else
      var d, first := Drafts(cmds)[poll - 1], FirstOption(Drafts(cmds), poll);
      Some(Results(d.question, d.creator, !ClosedSince(cmds, poll), ExpectedOptions(cmds, poll, first, d.texts)))
  }

  ghost function ExpectedOptions(cmds: seq<Command>, poll: nat, first: nat, texts: seq<string>): seq<OptionResult> {
    seq(|texts|, (i: nat) requires i < |texts| =>
      OptionResult(first + i, texts[i], Support(cmds, poll, first + i)))
  }

  /** The number of users whose last accepted vote in a poll is an option. */
  ghost function Support(cmds: seq<Command>, poll: nat, option: nat): nat {
    |Supporters(Accepted(cmds), poll, option)|
  }

  /** In every reachable store the results of a poll are its question, creator and whether it is
      open, and for each of its texts in order the option's id, the text and the number of users
      whose last accepted vote in that poll is that option; a poll not created has none. */
  lemma {:induction false} ResultsExactly(cmds: seq<Command>, poll: nat)
    ensures PollResults(RunPolls(cmds), poll) == Expected(cmds, poll)
  {
    var s, ds := RunPolls(cmds), Drafts(cmds);
    StoreFollows(cmds);
    TallyAll(ds, s.votes, poll);
    if IsPoll(cmds, poll) {
      OptionsCounted(cmds, poll);
    }
  }

  lemma {:induction false} OptionsCounted(cmds: seq<Command>, poll: nat)
    requires IsPoll(cmds, poll)
    ensures var ds := Drafts(cmds);
      var first, texts := FirstOption(ds, poll), ds[poll - 1].texts;
      Counts(first, texts, RunPolls(cmds).votes) == ExpectedOptions(cmds, poll, first, texts)
  {
    var first, texts := FirstOption(Drafts(cmds), poll), Drafts(cmds)[poll - 1].texts;
    var votes := RunPolls(cmds).votes;
    forall i: nat | i < |texts|
      ensures Counts(first, texts, votes)[i] == ExpectedOptions(cmds, poll, first, texts)[i]
    {
      OptionIsCounted(cmds, poll, first + i);
    }
  }

  lemma {:induction false} OptionIsCounted(cmds: seq<Command>, poll: nat, option: nat)
    requires IsPoll(cmds, poll) && IsOption(Drafts(cmds), poll, option)
    ensures JoinCount(RunPolls(cmds).votes, option) == Support(cmds, poll, option)
  {
    var s := RunPolls(cmds);
    StoreFollows(cmds);
    OptionsAre(Drafts(cmds), poll, option);
    var k :| 0 <= k < |s.options| && s.options[k].id == option && s.options[k].poll == poll;
    TallyIsCount(cmds, k);
  }

  // ── The tally adds up ───────────────────────────────────────────────────

  function Total(results: seq<OptionResult>): nat {
    if results == [] then 0 else results[0].votes + Total(results[1..])
  }

  function RowsOfPoll(votes: seq<Vote>, poll: nat): nat {
    if votes == [] then 0 else (if votes[0].poll == poll then 1 else 0) + RowsOfPoll(votes[1..], poll)
  }

  function UsersIn(votes: seq<Vote>, poll: nat): set<User> {
    set i | 0 <= i < |votes| && votes[i].poll == poll :: votes[i].user
  }

  lemma {:induction false} UsersInCons(votes: seq<Vote>, poll: nat)
    requires votes != []
    ensures UsersIn(votes, poll) == UsersIn(votes[1..], poll) + if votes[0].poll == poll then {votes[0].user} else {}
  {
    forall u | u in UsersIn(votes[1..], poll) ensures u in UsersIn(votes, poll) {
      var i :| 0 <= i < |votes[1..]| && votes[1..][i].poll == poll && votes[1..][i].user == u;
      assert votes[i + 1] == votes[1..][i];
    }
  }

  lemma {:induction false} RowsCountUsers(votes: seq<Vote>, poll: nat)
    requires OneVoteEach(votes)
    ensures RowsOfPoll(votes, poll) == |UsersIn(votes, poll)|
  {
    if votes != [] {
      RowsCountUsers(votes[1..], poll);
      UsersInCons(votes, poll);
      assert votes[0].poll == poll ==> votes[0].user !in UsersIn(votes[1..], poll);
    }
  }

  /** Option ids are distinct. */
  ghost predicate DistinctOptions(options: seq<PollOption>) {
    forall i, j :: 0 <= i < j < |options| ==> options[i].id != options[j].id
  }

  /** How much one more row in front of the votes adds to the total of a poll. */
  lemma {:induction false} TotalOfOneMore(options: seq<PollOption>, v: Vote, votes: seq<Vote>, poll: nat)
    requires DistinctOptions(options)
    ensures Total(Tally(options, [v] + votes, poll)) ==
            Total(Tally(options, votes, poll)) + if HasOption(options, v.option, poll) then 1 else 0
  {
    if options != [] {
      var o, rest := options[0], options[1..];
      TotalOfOneMore(rest, v, votes, poll);
      assert ([v] + votes)[1..] == votes;
      if HasOption(rest, v.option, poll) {
        var i :| 0 <= i < |rest| && rest[i].id == v.option && rest[i].poll == poll;
        assert options[i + 1] == rest[i];
      } else if HasOption(options, v.option, poll) {
        var i :| 0 <= i < |options| && options[i].id == v.option && options[i].poll == poll;
        assert i == 0;
      }
      if o.poll == poll {
        var more := OptionResult(o.id, o.text, JoinCount([v] + votes, o.id));
        assert ([more] + Tally(rest, [v] + votes, poll))[1..] == Tally(rest, [v] + votes, poll);
        var same := OptionResult(o.id, o.text, JoinCount(votes, o.id));
        assert ([same] + Tally(rest, votes, poll))[1..] == Tally(rest, votes, poll);
        if o.id == v.option {
          assert options[0].id == v.option && options[0].poll == poll;
          assert HasOption(options, v.option, poll) && !HasOption(rest, v.option, poll);
        }
      }
    }
  }

  lemma {:induction false} NoVotesNoTotal(options: seq<PollOption>, poll: nat)
    ensures Total(Tally(options, [], poll)) == 0
  {
    if options != [] {
      NoVotesNoTotal(options[1..], poll);
    }
  }

  lemma {:induction false} TotalIsRows(options: seq<PollOption>, votes: seq<Vote>, poll: nat)
    requires DistinctOptions(options)
    requires forall v :: v in votes ==> HasOption(options, v.option, v.poll)
    ensures Total(Tally(options, votes, poll)) == RowsOfPoll(votes, poll)
  {
    if votes == [] {
      NoVotesNoTotal(options, poll);
    } else {
      TotalIsRows(options, votes[1..], poll);
      TotalOfOneMore(options, votes[0], votes[1..], poll);
      assert votes == [votes[0]] + votes[1..];
      assert HasOption(options, votes[0].option, votes[0].poll);
    }
  }

  /** In every reachable store the votes shown for a poll add up to its number of voters. */
  lemma {:induction false} TallyAddsUp(cmds: seq<Command>, poll: nat)
    ensures var s := RunPolls(cmds); Total(Tally(s.options, s.votes, poll)) == |Voters(Accepted(cmds), poll)|
  {
    var s, accepted := RunPolls(cmds), Accepted(cmds);
    PollsSound(cmds);
    TotalIsRows(s.options, s.votes, poll);
    RowsCountUsers(s.votes, poll);
    forall u | u in UsersIn(s.votes, poll) ensures u in Voters(accepted, poll) {
      var i :| 0 <= i < |s.votes| && s.votes[i].poll == poll && s.votes[i].user == u;
      assert s.votes[i] in s.votes;
      LastVoteCast(accepted, poll, u);
    }
    forall u | u in Voters(accepted, poll) ensures u in UsersIn(s.votes, poll) {
      LastVoteCast(accepted, poll, u);
      var o := LastVote(accepted, poll, u).value;
      assert Vote(poll, u, o) in s.votes;
    }
    assert UsersIn(s.votes, poll) == Voters(accepted, poll);
  }

  // ── Closed polls are frozen ─────────────────────────────────────────────

  lemma {:induction false} JoinCountAppend(votes: seq<Vote>, v: Vote, option: nat)
    ensures JoinCount(votes + [v], option) == JoinCount(votes, option) + if v.option == option then 1 else 0
  {
    if votes != [] {
      JoinCountAppend(votes[1..], v, option);
      assert (votes + [v])[1..] == votes[1..] + [v];
    } else {
      assert [v][1..] == [] && [] + [v] == [v];
    }
  }

  /** Replacing a user's vote in one poll leaves the counts of other polls' options alone. */
  lemma {:induction false} WithoutKeepsCount(votes: seq<Vote>, poll: nat, user: User, option: nat)
    requires forall v :: v in votes && v.option == option ==> v.poll != poll
    ensures JoinCount(WithoutVote(votes, poll, user), option) == JoinCount(votes, option)
  {
    if votes != [] {
      WithoutKeepsCount(votes[1..], poll, user, option);
    }
  }

  lemma {:induction false} TallyKept(options: seq<PollOption>, votes: seq<Vote>, votes': seq<Vote>, poll: nat)
    requires forall i :: 0 <= i < |options| && options[i].poll == poll ==>
      JoinCount(votes, options[i].id) == JoinCount(votes', options[i].id)
    ensures Tally(options, votes, poll) == Tally(options, votes', poll)
  {
    if options != [] {
      TallyKept(options[1..], votes, votes', poll);
    }
  }

  lemma {:induction false} TallyAppend(options: seq<PollOption>, more: seq<PollOption>, votes: seq<Vote>, poll: nat)
    requires forall i :: 0 <= i < |more| ==> more[i].poll != poll
    ensures Tally(options + more, votes, poll) == Tally(options, votes, poll)
  {
    if options != [] {
      TallyAppend(options[1..], more, votes, poll);
      assert (options + more)[1..] == options[1..] + more;
    } else if more != [] {
      TallyAppend([], more[1..], votes, poll);
      assert options + more == more && [] + more[1..] == more[1..];
    }
  }

  /** No command changes what a closed poll shows, or opens it again. */
  lemma {:induction false} ClosedStaysPut(s: PollState, c: Command, poll: nat)
    requires Sound(s) && poll in s.polls && !s.polls[poll].active
    ensures PollResults(Step(s, c), poll) == PollResults(s, poll)
  {
    match c
    case Create(creator, question, texts) =>
      OptionRowsAt(s.nextPoll, s.nextOption, texts);
      TallyAppend(s.options, OptionRows(s.nextPoll, s.nextOption, texts), s.votes, poll);
    case Cast(p, user, option) =>
      if VoteOutcome(s, p, option).None? {
        var votes' := Step(s, c).votes;
        forall i | 0 <= i < |s.options| && s.options[i].poll == poll
          ensures JoinCount(s.votes, s.options[i].id) == JoinCount(votes', s.options[i].id)
        {
          WithoutKeepsCount(s.votes, p, user, s.options[i].id);
          JoinCountAppend(WithoutVote(s.votes, p, user), Vote(p, user, option), s.options[i].id);
        }
        TallyKept(s.options, s.votes, votes', poll);
      }
    case Close(p, user) =>
  }

  lemma {:induction false} RunSnoc(cmds: seq<Command>, c: Command)
    ensures RunPolls(cmds + [c]) == Step(RunPolls(cmds), c)
  {
    assert (cmds + [c])[..|cmds|] == cmds;
  }

  /** Once a poll is closed, every later run of any commands leaves its results, closed, as they
      were. */
  lemma {:induction false} ClosedPollsAreFrozen(cmds: seq<Command>, more: seq<Command>, poll: nat)
    requires poll in RunPolls(cmds).polls && !RunPolls(cmds).polls[poll].active
    ensures PollResults(RunPolls(cmds + more), poll) == PollResults(RunPolls(cmds), poll)
  {
    if more == [] {
      assert cmds + more == cmds;
    } else {
      var front, c := more[..|more| - 1], more[|more| - 1];
      ClosedPollsAreFrozen(cmds, front, poll);
      RunSnoc(cmds + front, c);
      assert cmds + more == cmds + front + [c];
      PollsSound(cmds + front);
      ClosedStaysPut(RunPolls(cmds + front), c, poll);
    }
  }

  /** Only its creator can close an open poll. */
  lemma {:induction false} OnlyCreatorCloses(cmds: seq<Command>, c: Command, poll: nat)
    requires var s := RunPolls(cmds); poll in s.polls && s.polls[poll].active
    ensures poll in Step(RunPolls(cmds), c).polls
    ensures !Step(RunPolls(cmds), c).polls[poll].active <==> c == Close(poll, RunPolls(cmds).polls[poll].creator)
  {
    PollsSound(cmds);
  }
}
