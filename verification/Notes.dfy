/** Messages to oneself: every one is shown with its text and timestamp, once and in order. */
module Notes {
  import opened Sequences
  import opened Sessions
  import opened Relays
  import opened Clients
  import opened Messaging

  /** What a user wrote to itself, by the actions alone. */
  function Written(acts: seq<Action>, u: User): seq<Letter> {
    if acts == [] then []
    else
      Written(acts[..|acts| - 1], u) + Noted(acts[|acts| - 1], u)
  }

  function Noted(act: Action, u: User): seq<Letter> {
    if act.Chat? && act.user == u == act.to then [Letter(act.text, act.timestamp)] else []
  }

  /** What a client has shown of messages to its user from itself. */
  function ShownSel(u: User): Event -> seq<Letter> {
    (e: Event) => if e.Filed? && e.user == u && e.content.Saved? then [Letter(e.content.text, e.timestamp)] else []
  }

  function NoteSel(u: User): Envelope -> seq<Letter> {
    (e: Envelope) => if e.body.Saved? && e.sender == u then [Letter(e.body.text, e.timestamp)] else []
  }

  ghost predicate Kept(w: World, written: seq<Letter>, u: User) {
    Collect(ShownSel(u), w.log) + InTransit(NoteSel(u), w.sys, u) == written
  }

  lemma {:induction false} PollKeepsNotes(w: World, x: User, now: nat, written: seq<Letter>, u: User)
    requires x in w.sys.clients && Kept(w, written, u)
    ensures Kept(Step(w, Polling(x, now)), written, u)
  {
    var mail := Pending(w.sys.relay, x);
    TransitAfterPoll(NoteSel(u), w, x, now, u);
    ReceiptsNotSelected(NoteSel(u), x, mail, now, u);
    CollectFetchEvents(ShownSel(u), w.log, x, mail);
    assert InTransit(NoteSel(u), w.sys, u) + [] == InTransit(NoteSel(u), w.sys, u);
  }

  /** Handling shows exactly the note in the envelope. */
  lemma {:induction false} HandleShows(c: ClientState, r: RelayState, e: Envelope, now: nat, u: User)
    ensures ShownSel(u)(Handle(c, r, e, now).2) == if c.user == u then NoteSel(u)(e) else []
  {
  }

  lemma {:induction false} HandleKeepsNotes(w: World, x: User, now: nat, written: seq<Letter>, u: User)
    requires x in w.sys.clients && Batch(w.sys, x) != [] && Named(w.sys) && Kept(w, written, u)
    ensures Kept(Step(w, Handling(x, now)), written, u)
  {
    var e, c := Batch(w.sys, x)[0], w.sys.clients[x];
    var event := Handle(c, w.sys.relay, e, now).2;
    var w' := Step(w, Handling(x, now));
    HandleShows(c, w.sys.relay, e, now, u);
    TransitAfterHandle(NoteSel(u), w, x, now, u);
    assert NoteSel(u)(ReadReceipt(c.user, e, now)) == [];
    CollectSnoc(ShownSel(u), w.log, event);
    NoteMoves(Collect(ShownSel(u), w.log), InTransit(NoteSel(u), w.sys, u), ShownSel(u)(event),
              InTransit(NoteSel(u), w'.sys, u));
  }

  lemma {:induction false} NoteMoves(shown: seq<Letter>, before: seq<Letter>, moved: seq<Letter>, after: seq<Letter>)
    requires before + [] == moved + after
    ensures (shown + moved) + after == shown + before
  {
    assert before + [] == before;
    assert (shown + moved) + after == shown + (moved + after);
  }

  lemma {:induction false} SendKeepsNotes(w: World, act: Action, written: seq<Letter>, u: User)
    requires (act.Chat? || act.Pushing?) && Named(w.sys) && u in w.sys.clients && Kept(w, written, u)
    ensures Kept(Step(w, act), written + Noted(act, u), u)
  {
    SendShowsNothing(w, act, u);
    TransitAfterSend(NoteSel(u), w, act, u);
    if Reachable(w.sys, act) && act.to == u {
      PostedNote(w.sys, act, u);
    } else {
      NoteAdded(Collect(ShownSel(u), w.log), InTransit(NoteSel(u), w.sys, u), []);
    }
    NoteAdded(Collect(ShownSel(u), w.log), InTransit(NoteSel(u), w.sys, u), Noted(act, u));
  }

  lemma {:induction false} NoteAdded(shown: seq<Letter>, before: seq<Letter>, added: seq<Letter>)
    ensures shown + (before + added) == (shown + before) + added
  {
  }

  lemma {:induction false} SendShowsNothing(w: World, act: Action, u: User)
    requires (act.Chat? || act.Pushing?) && Named(w.sys)
    ensures Collect(ShownSel(u), Step(w, act).log) == Collect(ShownSel(u), w.log)
  {
    TransitAfterSend(NoteSel(u), w, act, u);
    if Reachable(w.sys, act) {
      CollectSnoc(ShownSel(u), w.log, Queued(act.user, act.to, act.text, act.timestamp));
    }
  }

  lemma {:induction false} PostedNote(sys: System, act: Action, u: User)
    requires (act.Chat? || act.Pushing?) && Reachable(sys, act) && act.to == u
    ensures NoteSel(u)(Posting(sys, act)) == Noted(act, u)
  {
  }

  lemma {:induction false} StepKeepsNotes(w: World, act: Action, written: seq<Letter>, u: User)
    requires Named(w.sys) && u in w.sys.clients && Kept(w, written, u)
    ensures Kept(Step(w, act), written + Noted(act, u), u)
  {
    match act
    case Polling(x, now) =>
      assert written + [] == written;
      if x in w.sys.clients {
        PollKeepsNotes(w, x, now, written, u);
      }
    case Handling(x, now) =>
      assert written + [] == written;
      if x in w.sys.clients && Batch(w.sys, x) != [] {
        HandleKeepsNotes(w, x, now, written, u);
      }
    case _ => SendKeepsNotes(w, act, written, u);
  }

  /** In every run, the notes a user's client has shown, followed by those in its batch and then at the
      relay, are the texts and timestamps the user wrote to itself, in order. */
  lemma {:induction false} NotesShown(ws: seq<World>, acts: seq<Action>, k: nat, u: User)
    requires IsRun(ws, acts) && k <= |acts| && u in ws[0].sys.clients
    ensures Collect(ShownSel(u), ws[k].log) + InTransit(NoteSel(u), ws[k].sys, u) == Written(acts[..k], u)
  {
    if k > 0 {
      var i := k - 1;
      NotesShown(ws, acts, i, u);
      RunKeepsClients(ws, acts, i);
      RunStep(ws, acts, k);
      assert acts[..k][..i] == acts[..i] && acts[..k][i] == acts[i];
      StepKeepsNotes(ws[i], acts[i], Written(acts[..i], u), u);
    }
  }

  /** Encrypted mail to oneself that a client does not decrypt is shown as it is. */
  lemma {:induction false} RawShown(c: ClientState, r: RelayState, e: Envelope, now: nat)
    requires e.body.Sealing? && e.sender == c.user
    ensures Handle(c, r, e, now) == (c, r, Filed(c.user, e.timestamp, e.body))
  {
  }
}
