/** A file through the whole system: its chunks are cut, encrypted, relayed, decrypted in between
    anything else, and the recipient saves the file exactly once.
 */
module Transfers {
  import opened Sequences
  import opened Crypto
  import opened Sessions
  import opened Clients
  import opened Messaging
  import opened EndToEnd
  import Files
  import Statuses

  /** How chunks are written as message texts, and recognised again. */
  type Writer = Files.Chunk -> string

  type Reader = string -> Option<Files.Chunk>

  ghost predicate Lossless(write: Writer, read: Reader) {
    forall c :: read(write(c)) == Some(c)
  }

  function ChunkIn(read: Reader, text: string): seq<Files.Chunk> {
    if read(text).Some? then [read(text).value] else []
  }

  function OfFile(id: string): Files.Chunk -> seq<Files.Chunk> {
    (c: Files.Chunk) => if c.id == id then [c] else []
  }

  /** The chunks of a file in a text. */
  function FileChunk(read: Reader, text: string, id: string): seq<Files.Chunk> {
    Collect(OfFile(id), ChunkIn(read, text))
  }

  function ReceivedSel(read: Reader, v: User): Event -> seq<Files.Chunk> {
    (e: Event) => if e.Opened? && e.to == v && e.result.Ok? then ChunkIn(read, e.result.value) else []
  }

  /** The chunks `v`'s client has decrypted, from anyone, in order. */
  function Received(w: World, read: Reader, v: User): seq<Files.Chunk> {
    Collect(ReceivedSel(read, v), w.log)
  }

  function InLetterSel(read: Reader, id: string): Letter -> seq<Files.Chunk> {
    (l: Letter) => FileChunk(read, l.text, id)
  }

  /** The chunks of a file among what `u` has sent to `v`, in order. */
  function SentOf(w: World, read: Reader, u: User, v: User, id: string): seq<Files.Chunk> {
    Collect(InLetterSel(read, id), SentLetters(w, u, v))
  }

  /** The receiver's view of a sequence of chunks. */
  function ArrivalsOf(cs: seq<Files.Chunk>): Files.Arrivals {
    if cs == [] then Files.Nothing else Files.Then(ArrivalsOf(cs[..|cs| - 1]), cs[|cs| - 1])
  }

  // ── From chunks to arrivals ─────────────────────────────────────────────

  lemma {:induction false} CameIsIn(cs: seq<Files.Chunk>, c: Files.Chunk)
    ensures Files.Came(ArrivalsOf(cs), c) <==> c in cs
  {
    if cs != [] {
      CameIsIn(cs[..|cs| - 1], c);
      assert cs == cs[..|cs| - 1] + [cs[|cs| - 1]];
    }
  }

  lemma {:induction false} AllGenuineIn(files: map<string, Files.File>, cs: seq<Files.Chunk>)
    requires forall c :: c in cs ==> Files.Genuine(files, c)
    ensures Files.AllGenuine(files, ArrivalsOf(cs))
  {
    if cs != [] {
      AllGenuineIn(files, cs[..|cs| - 1]);
    }
  }

  lemma {:induction false} NoRepeatsIn(cs: seq<Files.Chunk>, id: string)
    requires Distinct(Collect(OfFile(id), cs))
    ensures Files.NoRepeats(ArrivalsOf(cs), id)
  {
    if cs != [] {
      var front, c := cs[..|cs| - 1], cs[|cs| - 1];
      assert cs == front + [c];
      CollectSnoc(OfFile(id), front, c);
      var before := Collect(OfFile(id), front);
      if c.id == id {
        DistinctSnoc(before, c);
      } else {
        assert before + [] == before;
      }
      NoRepeatsIn(front, id);
      CameIsIn(front, c);
      InFile(front, c, id);
    }
  }

  lemma {:induction false} InFile(cs: seq<Files.Chunk>, c: Files.Chunk, id: string)
    ensures c in Collect(OfFile(id), cs) <==> c in cs && c.id == id
  {
    if c in cs && c.id == id {
      CollectMember(OfFile(id), cs, c, c);
    }
    if c in Collect(OfFile(id), cs) {
      var d := CollectSource(OfFile(id), cs, c);
    }
  }

  // ── From letters to chunks ──────────────────────────────────────────────

  /** Every chunk sent to `v` is a genuine chunk of one of the files, and only `u` sends chunks of
      the file with this id. */
  ghost predicate SentWell(w: World, read: Reader, files: map<string, Files.File>, u: User, v: User, id: string) {
    forall a, l, c :: l in SentLetters(w, a, v) && c in ChunkIn(read, l.text) ==>
      Files.Genuine(files, c) && (c.id == id ==> a == u)
  }

  function FromSel(read: Reader, u: User, v: User, id: string): Event -> seq<Files.Chunk> {
    (e: Event) =>
      if e.Opened? && e.from == u && e.to == v && e.result.Ok? then FileChunk(read, e.result.value, id) else []
  }

  /** What was decrypted was sent. */
  lemma {:induction false} OpenedWasSent(ws: seq<World>, acts: seq<Action>, k: nat, v: User, event: Event)
    returns (l: Letter)
    requires IsRun(ws, acts) && k <= |acts| && event in ws[k].log
    requires event.Opened? && event.to == v && event.result.Ok?
    ensures l in SentLetters(ws[k], event.from, v) && l.text == event.result.value
  {
    var u := event.from;
    l := Letter(event.result.value, event.timestamp);
    Statuses.AlwaysGenuine(ws, acts, k, u, v);
    CollectMember(Statuses.ReadLetterSel(u, v), ws[k].log, event, l);
  }

  lemma {:induction false} ReceivedGenuine(ws: seq<World>, acts: seq<Action>, k: nat, read: Reader,
                                           files: map<string, Files.File>, u: User, v: User, id: string)
    requires IsRun(ws, acts) && k <= |acts| && SentWell(ws[k], read, files, u, v, id)
    ensures forall c :: c in Received(ws[k], read, v) ==> Files.Genuine(files, c)
  {
    forall c | c in Received(ws[k], read, v) ensures Files.Genuine(files, c) {
      var event := CollectSource(ReceivedSel(read, v), ws[k].log, c);
      var l := OpenedWasSent(ws, acts, k, v, event);
      assert l in SentLetters(ws[k], event.from, v) && c in ChunkIn(read, l.text);
    }
  }

  /** The chunks of the file among all that was received are those in what `u` sent. */
  lemma {:induction false} ReceivedOfFile(ws: seq<World>, acts: seq<Action>, k: nat, read: Reader,
                                          files: map<string, Files.File>, u: User, v: User, id: string)
    requires IsRun(ws, acts) && k <= |acts| && SentWell(ws[k], read, files, u, v, id)
    ensures Collect(OfFile(id), Received(ws[k], read, v)) == Collect(FromSel(read, u, v, id), ws[k].log)
  {
    var log := ws[k].log;
    forall e | e in log ensures Collect(OfFile(id), ReceivedSel(read, v)(e)) == FromSel(read, u, v, id)(e) {
      if e.Opened? && e.to == v && e.result.Ok? && e.from != u {
        var l := OpenedWasSent(ws, acts, k, v, e);
        var cs := ChunkIn(read, l.text);
        if cs != [] {
          assert l in SentLetters(ws[k], e.from, v) && cs[0] in cs && cs[0].id != id;
          assert cs == [cs[0]];
          CollectOne(OfFile(id), cs[0]);
        }
      }
    }
    CollectCollect(ReceivedSel(read, v), OfFile(id), FromSel(read, u, v, id), log);
  }

  function InOpeningSel(read: Reader, id: string): Opening -> seq<Files.Chunk> {
    (o: Opening) => if o.result.Ok? then FileChunk(read, o.result.value, id) else []
  }

  /** Once everything `u` sent was opened, those are all the chunks sent. */
  lemma {:induction false} OpenedOfFile(ws: seq<World>, acts: seq<Action>, k: nat, read: Reader, u: User, v: User,
                                        id: string)
    requires IsRun(ws, acts) && k <= |acts| && OneStarts(ws, acts, k, u, v) && Flight(ws[k].sys, u, v) == []
    requires u != v && u in ws[0].sys.clients && v in ws[0].sys.clients
    ensures Collect(FromSel(read, u, v, id), ws[k].log) == SentOf(ws[k], read, u, v, id)
  {
    var w := ws[k];
    EndToEndDelivery(ws, acts, k, u, v);
    FromOpenings(w.log, read, u, v, id);
    CollectAlike(InOpeningSel(read, id), Openings(w, u, v), InLetterSel(read, id), SentLetters(w, u, v));
  }

  lemma {:induction false} FromOpenings(log: seq<Event>, read: Reader, u: User, v: User, id: string)
    ensures Collect(InOpeningSel(read, id), Collect(OpenSel(u, v), log)) == Collect(FromSel(read, u, v, id), log)
  {
    forall e | e in log ensures Collect(InOpeningSel(read, id), OpenSel(u, v)(e)) == FromSel(read, u, v, id)(e) {
      if e.Opened? && e.from == u && e.to == v {
        CollectOne(InOpeningSel(read, id), Opening(e.timestamp, e.result, e.stepped));
      }
    }
    CollectCollect(OpenSel(u, v), InOpeningSel(read, id), FromSel(read, u, v, id), log);
  }

  // ── The theorem ─────────────────────────────────────────────────────────

  /** `u` has sent the chunks of a file as its send loop cuts them, among anything else. */
  ghost predicate FileSent(w: World, read: Reader, u: User, v: User, f: Files.File) {
    IsWhole(SentOf(w, read, u, v, f.id), f)
  }

  /** The chunks of a file as `SendFile` cuts them. */
  ghost predicate IsWhole(cs: seq<Files.Chunk>, f: Files.File) {
    |cs| == |Files.Pieces(f.data)| && forall i :: 0 <= i < |cs| ==> cs[i] == Files.ChunkOf(f, i)
  }

  /** In every run and every interleaving: if `u` has sent a file to `v`, one of the two alone having
      started a session, and `v` has handled what `u` sent, then `v`'s client has saved that file
      exactly once, and nothing of it stays pending; whatever else anyone sent to `v`, as long as
      the chunks among it belong to files with other ids. */
  lemma {:induction false} FileArrivesOnce(ws: seq<World>, acts: seq<Action>, k: nat, read: Reader,
                                           files: map<string, Files.File>, u: User, v: User, id: string)
    requires IsRun(ws, acts) && k <= |acts| && OneStarts(ws, acts, k, u, v) && Flight(ws[k].sys, u, v) == []
    requires u != v && u in ws[0].sys.clients && v in ws[0].sys.clients
    requires Files.Sendable(files) && id in files && SentWell(ws[k], read, files, u, v, id)
    requires FileSent(ws[k], read, u, v, files[id])
    ensures var a := ArrivalsOf(Received(ws[k], read, v)); Files.Saves(a, id) == 1 && id !in Files.Deliver(a)
  {
    ReceivedGenuine(ws, acts, k, read, files, u, v, id);
    ReceivedOfFile(ws, acts, k, read, files, u, v, id);
    OpenedOfFile(ws, acts, k, read, u, v, id);
    FileSaved(files, Received(ws[k], read, v), id);
  }

  /** Genuine chunks among which those of the file are all of them, once each. */
  lemma {:induction false} FileSaved(files: map<string, Files.File>, cs: seq<Files.Chunk>, id: string)
    requires Files.Sendable(files) && id in files && forall c :: c in cs ==> Files.Genuine(files, c)
    requires IsWhole(Collect(OfFile(id), cs), files[id])
    ensures Files.Saves(ArrivalsOf(cs), id) == 1 && id !in Files.Deliver(ArrivalsOf(cs))
  {
    var f, mine := files[id], Collect(OfFile(id), cs);
    AllGenuineIn(files, cs);
    assert Distinct(mine) by {
      assert forall i :: 0 <= i < |mine| ==> mine[i].index == i;
    }
    NoRepeatsIn(cs, id);
    forall i: nat | i < |Files.Pieces(f.data)| ensures Files.Came(ArrivalsOf(cs), Files.ChunkOf(f, i)) {
      assert mine[i] == Files.ChunkOf(f, i) && mine[i] in mine;
      InFile(cs, mine[i], id);
      CameIsIn(cs, mine[i]);
    }
    Files.AllFilesArrive(files, ArrivalsOf(cs), id);
  }

  function Same(): Files.Chunk -> seq<Files.Chunk> {
    (c: Files.Chunk) => [c]
  }

  lemma {:induction false} CollectSame(cs: seq<Files.Chunk>)
    ensures Collect(Same(), cs) == cs
  {
    if cs != [] {
      CollectSame(cs[1..]);
    }
  }

  /** What the send loop pushes is a file sent: if the letters to `v` are the chunks of a file written
      by the writer, one after the other, after and before letters without chunks of that file. */
  lemma {:induction false} PushedIsSent(w: World, write: Writer, read: Reader, u: User, v: User, f: Files.File,
                                        cs: seq<Files.Chunk>, before: seq<Letter>, pushed: seq<Letter>,
                                        after: seq<Letter>)
    requires Lossless(write, read) && IsWhole(cs, f) && SentLetters(w, u, v) == before + pushed + after
    requires |pushed| == |cs| && forall i :: 0 <= i < |cs| ==> pushed[i].text == write(cs[i])
    requires forall l :: l in before || l in after ==> FileChunk(read, l.text, f.id) == []
    ensures FileSent(w, read, u, v, f)
  {
    var sel := InLetterSel(read, f.id);
    CollectConcat(sel, before + pushed, after);
    CollectConcat(sel, before, pushed);
    WithoutFile(read, before, f.id);
    WithoutFile(read, after, f.id);
    PushedChunks(write, read, f, cs, pushed);
    assert SentOf(w, read, u, v, f.id) == [] + cs + [] == cs;
  }

  lemma {:induction false} WithoutFile(read: Reader, ls: seq<Letter>, id: string)
    requires forall l :: l in ls ==> FileChunk(read, l.text, id) == []
    ensures Collect(InLetterSel(read, id), ls) == []
  {
    CollectNothing(InLetterSel(read, id), ls);
  }

  lemma {:induction false} PushedChunks(write: Writer, read: Reader, f: Files.File, cs: seq<Files.Chunk>,
                                        pushed: seq<Letter>)
    requires Lossless(write, read) && IsWhole(cs, f)
    requires |pushed| == |cs| && forall i :: 0 <= i < |cs| ==> pushed[i].text == write(cs[i])
    ensures Collect(InLetterSel(read, f.id), pushed) == cs
  {
    var sel := InLetterSel(read, f.id);
    forall i | 0 <= i < |cs| ensures sel(pushed[i]) == Same()(cs[i]) {
      assert read(write(cs[i])) == Some(cs[i]);
      CollectOne(OfFile(f.id), cs[i]);
    }
    CollectAlike(sel, pushed, Same(), cs);
    CollectSame(cs);
  }
}
