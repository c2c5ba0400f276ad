/** Chunked file transfer (tintin-cli/src/main.rs): the sender cuts a file into numbered chunks,
    the receiver collects them by file id and decides by counting that a file is complete.
 */
module Files {
  import opened Crypto
  import opened Hex

  const CHUNK_SIZE: nat := 256 * 1024

  datatype File = File(id: string, name: string, data: seq<Byte>)

  datatype Chunk = Chunk(id: string, name: string, size: nat, total: nat, index: nat, data: seq<Byte>)

  // ── Cutting ─────────────────────────────────────────────────────────────

  /** The number of chunks announced for a file of a given size. */
  function ChunkCount(size: nat): nat {
    if size == 0 then 1 else (size + CHUNK_SIZE - 1) / CHUNK_SIZE
  }

  /** The pieces of a file: full chunks, then what is left. */
  function Pieces(data: seq<Byte>): seq<seq<Byte>> {
    if data == [] then []
    else if |data| <= CHUNK_SIZE then [data]
    else [data[..CHUNK_SIZE]] + Pieces(data[CHUNK_SIZE..])
  }

  /** Concatenation. */
  function Join(pieces: seq<seq<Byte>>): seq<Byte> {
    if pieces == [] then [] else Join(pieces[..|pieces| - 1]) + pieces[|pieces| - 1]
  }

  lemma {:induction false} JoinCons(p: seq<Byte>, rest: seq<seq<Byte>>)
    ensures Join([p] + rest) == p + Join(rest)
  {
    var all := [p] + rest;
    if rest == [] {
      assert all[..0] == [] && all == [p];
    } else {
      JoinCons(p, rest[..|rest| - 1]);
      assert all[..|all| - 1] == [p] + rest[..|rest| - 1];
    }
  }

  /** Cutting loses nothing. */
  lemma {:induction false} PiecesJoin(data: seq<Byte>)
    ensures Join(Pieces(data)) == data
  {
    if |data| > CHUNK_SIZE {
      PiecesJoin(data[CHUNK_SIZE..]);
      JoinCons(data[..CHUNK_SIZE], Pieces(data[CHUNK_SIZE..]));
    } else if data != [] {
      assert [data][..0] == [];
    }
  }

  /** All pieces but the last have 262144 bytes, and the last has at least one. */
  lemma {:induction false} PiecesSized(data: seq<Byte>, i: nat)
    requires i < |Pieces(data)|
    ensures if i < |Pieces(data)| - 1 then |Pieces(data)[i]| == 262_144 else 0 < |Pieces(data)[i]| <= 262_144
  {
    if |data| > CHUNK_SIZE {
      AnnouncedIsSent(data[CHUNK_SIZE..]);
      if i > 0 {
        PiecesSized(data[CHUNK_SIZE..], i - 1);
      }
    }
  }

  lemma {:induction false} CountDown(size: nat)
    requires size > CHUNK_SIZE
    ensures ChunkCount(size) == 1 + ChunkCount(size - CHUNK_SIZE)
  {
  }

  /** The announced number of chunks is the number sent, unless the file is empty: then one is
      announced and none is sent, so the receiver never hears of it. */
  lemma {:induction false} AnnouncedIsSent(data: seq<Byte>)
    ensures |Pieces(data)| == ChunkCount(|data|) <==> data != []
    ensures data == [] <==> Pieces(data) == []
  {
    if |data| > CHUNK_SIZE {
      AnnouncedIsSent(data[CHUNK_SIZE..]);
      CountDown(|data|);
    }
  }

  function ChunkOf(f: File, i: nat): Chunk
    requires i < |Pieces(f.data)|
  {
    Chunk(f.id, f.name, |f.data|, |Pieces(f.data)|, i, Pieces(f.data)[i])
  }

  /** The loop of `send_file_inner`: every piece goes out once, in order, under the announced
      total. */
  method SendFile(f: File) returns (sent: seq<Chunk>)
    ensures |sent| == |Pieces(f.data)|
    ensures forall i :: 0 <= i < |sent| ==> sent[i] == ChunkOf(f, i)
  {
    var total := ChunkCount(|f.data|);
    AnnouncedIsSent(f.data);
    sent := [];
    var rest := f.data;
    while rest != []
      invariant |sent| <= |Pieces(f.data)| && Pieces(f.data)[|sent|..] == Pieces(rest)
      invariant forall i :: 0 <= i < |sent| ==> sent[i] == ChunkOf(f, i)
      decreases |rest|
    {
      var n := if |rest| <= CHUNK_SIZE then |rest| else CHUNK_SIZE;
      assert rest[..n] == Pieces(rest)[0] && Pieces(rest[n..]) == Pieces(rest)[1..];
      sent := sent + [Chunk(f.id, f.name, |f.data|, total, |sent|, rest[..n])];
      rest := rest[n..];
    }
  }

  // ── Collecting ──────────────────────────────────────────────────────────

  datatype PendingFile = PendingFile(name: string, size: nat, total: nat, received: map<nat, seq<Byte>>)

  datatype Outcome =
    | Saved(file: File)
    | Progress(received: nat, total: nat, percent: nat)
    | Panicked                                    // the percentage of zero chunks divides by zero

  /** The received chunks below `n`, in order; missing ones are passed over. */
  function Assemble(received: map<nat, seq<Byte>>, n: nat): seq<Byte> {
    if n == 0 then [] else Assemble(received, n - 1) + if n - 1 in received then received[n - 1] else []
  }

  /** The entry a chunk goes to: name, size and total are those of the first chunk. */
  function EntryWith(pending: map<string, PendingFile>, c: Chunk): PendingFile {
    var e := if c.id in pending then pending[c.id] else PendingFile(c.name, c.size, c.total, map[]);
    e.(received := e.received[c.index := c.data])
  }

  function Accept(pending: map<string, PendingFile>, c: Chunk): (map<string, PendingFile>, Outcome) {
    var e := EntryWith(pending, c);
    if |e.received| == e.total then (pending - {c.id}, Saved(File(c.id, e.name, Assemble(e.received, e.total))))
    else
      (pending[c.id := e],
       if e.total == 0 then Panicked else Progress(|e.received|, e.total, |e.received| * 100 / e.total))
  }

  class FileReceiver {
    var pending: map<string, PendingFile>

    constructor ()
      ensures pending == map[]
    {
      pending := map[];
    }

    method ProcessChunk(c: Chunk) returns (o: Outcome)
      modifies this
      ensures (pending, o) == Accept(old(pending), c)
    {
      if c.id !in pending {
        pending := pending[c.id := PendingFile(c.name, c.size, c.total, map[])];
      }
      var e := pending[c.id];
      e := e.(received := e.received[c.index := c.data]);
      pending := pending[c.id := e];
      EntryInPlace(old(pending), c, pending);
      if |e.received| == e.total {
        var full := Reassemble(e.received, e.total);
        pending := pending - {c.id};
        o := Saved(File(c.id, e.name, full));
      } else if e.total == 0 {
        o := Panicked;
      } else {
        o := Progress(|e.received|, e.total, |e.received| * 100 / e.total);
      }
    }
  }

  /** The map after the entry was made, if missing, and updated in place. */
  lemma {:induction false} EntryInPlace(before: map<string, PendingFile>, c: Chunk, after: map<string, PendingFile>)
    requires var opening := if c.id in before then before
                            else before[c.id := PendingFile(c.name, c.size, c.total, map[])];
      var e := opening[c.id];
      after == opening[c.id := e.(received := e.received[c.index := c.data])]
    ensures after == before[c.id := EntryWith(before, c)] && after - {c.id} == before - {c.id}
  {
  }

  /** The loop takes each chunk out of the map as it goes. */
  method Reassemble(chunks: map<nat, seq<Byte>>, total: nat) returns (full: seq<Byte>)
    ensures full == Assemble(chunks, total)
  {
    full := [];
    var left := chunks;
    for i := 0 to total
      invariant full == Assemble(chunks, i)
      invariant left == map k | k in chunks && k >= i :: chunks[k]
    {
      if i in left {
        full := full + left[i];
        left := left - {i};
      }
    }
  }

  // ── Counting is enough ──────────────────────────────────────────────────

  ghost predicate Within(s: set<nat>, n: nat) {
    forall i :: i in s ==> i < n
  }

  /** All indices below `n` are there. */
  ghost predicate Full(s: set<nat>, n: nat) {
    forall i: nat :: i < n ==> i in s
  }

  /** A set of indices below `n` has `n` elements exactly when it has them all. */
  lemma {:induction false} FullBySize(s: set<nat>, n: nat)
    requires Within(s, n)
    ensures |s| == n <==> Full(s, n)
    ensures |s| <= n
  {
    if n == 0 {
      assert s == {};
    } else {
      var rest := s - {n - 1};
      FullBySize(rest, n - 1);
      if n - 1 in s {
        assert |s| == |rest| + 1;
        assert Full(rest, n - 1) ==> Full(s, n);
        assert Full(s, n) ==> Full(rest, n - 1);
      } else {
        assert rest == s;
      }
    }
  }

  /** A map that holds every piece at its index assembles to their concatenation. */
  lemma {:induction false} AssembleJoins(received: map<nat, seq<Byte>>, pieces: seq<seq<Byte>>)
    requires forall i :: 0 <= i < |pieces| ==> i in received && received[i] == pieces[i]
    ensures Assemble(received, |pieces|) == Join(pieces)
  {
    if pieces != [] {
      AssembleJoins(received, pieces[..|pieces| - 1]);
    }
  }

  /** An entry has the announced facts of a file and its pieces at the given indices. */
  ghost predicate Faithful(e: PendingFile, f: File, pieces: seq<seq<Byte>>, indices: set<nat>) {
    && e.name == f.name && e.size == |f.data| && e.total == |pieces|
    && e.received.Keys == indices && Within(indices, |pieces|)
    && forall i :: i in e.received ==> e.received[i] == pieces[i]
  }

  /** The test by counting is the test for all indices, and what is assembled is the file. */
  lemma {:induction false} CountingIsEnough(e: PendingFile, f: File, indices: set<nat>)
    requires Faithful(e, f, Pieces(f.data), indices)
    ensures |e.received| == |indices|
    ensures |e.received| == e.total <==> Full(indices, |Pieces(f.data)|)
    ensures |e.received| <= e.total
    ensures Full(indices, |Pieces(f.data)|) ==> Assemble(e.received, e.total) == f.data
  {
    assert |e.received| == |e.received.Keys|;
    FullBySize(indices, |Pieces(f.data)|);
    if Full(indices, |Pieces(f.data)|) {
      AssembleJoins(e.received, Pieces(f.data));
      PiecesJoin(f.data);
    }
  }

  // ── Every arrival order ─────────────────────────────────────────────────

  /** Files on their way, by id; none of them empty. */
  ghost predicate Sendable(files: map<string, File>) {
    forall id :: id in files ==> files[id].id == id && files[id].data != []
  }

  /** A chunk that the sender of one of the files produced. */
  predicate Genuine(files: map<string, File>, c: Chunk) {
    c.id in files && c.index < |Pieces(files[c.id].data)| && c == ChunkOf(files[c.id], c.index)
  }

  /** Chunks in the order they arrived. */
  datatype Arrivals = Nothing | Then(earlier: Arrivals, chunk: Chunk)

  predicate AllGenuine(files: map<string, File>, a: Arrivals) {
    a.Then? ==> AllGenuine(files, a.earlier) && Genuine(files, a.chunk)
  }

  /** What a receiver holds after some arrivals. */
  function Deliver(a: Arrivals): map<string, PendingFile> {
    match a
    case Nothing => map[]
    case Then(earlier, c) => Accept(Deliver(earlier), c).0
  }

  /** The reference view, without maps or counting: the indices of a file that arrived since all
      of them were last there. */
  ghost function Since(files: map<string, File>, a: Arrivals, id: string): set<nat>
    requires id in files
  {
    match a
    case Nothing => {}
    case Then(earlier, c) =>
      if c.id != id then Since(files, earlier, id)
      else if Completes(files, earlier, c) then {}
      else Since(files, earlier, id) + {c.index}
  }

  /** This arrival is the one that makes its file complete. */
  ghost predicate Completes(files: map<string, File>, a: Arrivals, c: Chunk)
    requires c.id in files
  {
    Full(Since(files, a, c.id) + {c.index}, |Pieces(files[c.id].data)|)
  }

  ghost predicate Holds(files: map<string, File>, a: Arrivals, pending: map<string, PendingFile>, id: string)
    requires id in files
  {
    var indices := Since(files, a, id);
    if id in pending then indices != {} && Faithful(pending[id], files[id], Pieces(files[id].data), indices)
    else indices == {}
  }

  /** A genuine chunk adds its index to a faithful entry. */
  lemma {:induction false} EntryFaithful(f: File, pending: map<string, PendingFile>, c: Chunk, before: set<nat>)
    requires c.id == f.id && c.index < |Pieces(f.data)| && c == ChunkOf(f, c.index)
    requires c.id in pending ==> Faithful(pending[c.id], f, Pieces(f.data), before)
    requires c.id !in pending ==> before == {}
    ensures Faithful(EntryWith(pending, c), f, Pieces(f.data), before + {c.index})
  {
  }

  /** A report of some chunks out of a total, with the percentage rounded down, unless there is no such
      percentage. */
  predicate Reports(o: Outcome, received: nat, total: nat) {
    if total == 0 then o.Panicked?
    else
      && o.Progress? && o.received == received && o.total == total
      && o.percent * total <= received * 100 < (o.percent + 1) * total
  }

  predicate IsProgress(o: Outcome, received: nat, total: nat) {
    Reports(o, received, total) && received < total && o.percent < 100
  }

  lemma {:induction false} ProgressIs(received: nat, total: nat)
    requires total > 0
    ensures Reports(Progress(received, total, received * 100 / total), received, total)
    ensures received < total ==> IsProgress(Progress(received, total, received * 100 / total), received, total)
  {
    var p := received * 100 / total;
    assert received * 100 == p * total + (received * 100) % total;
    assert (p + 1) * total == p * total + total;
  }

  /** One genuine chunk is saved exactly when it completes its file, and then as sent. */
  lemma {:induction false} AcceptGenuine(files: map<string, File>, a: Arrivals, pending: map<string, PendingFile>,
                                         c: Chunk)
    requires Sendable(files) && Genuine(files, c) && Holds(files, a, pending, c.id)
    ensures var (pending', o) := Accept(pending, c);
      && Holds(files, Then(a, c), pending', c.id)
      && (Completes(files, a, c) ==> o == Saved(files[c.id]))
      && (!Completes(files, a, c) ==> IsProgress(o, |Since(files, a, c.id) + {c.index}|, |Pieces(files[c.id].data)|))
  {
    var f, now := files[c.id], Since(files, a, c.id) + {c.index};
    var e := EntryWith(pending, c);
    EntryFaithful(f, pending, c, Since(files, a, c.id));
    CountingIsEnough(e, f, now);
    if !Completes(files, a, c) {
      ProgressIs(|e.received|, e.total);
    }
  }

  /** After any arrivals of genuine chunks, in any order and with any repetition, the receiver
      holds for each file exactly the pieces that came since it was last complete. */
  lemma {:induction false} ReceiverHolds(files: map<string, File>, a: Arrivals, id: string)
    requires Sendable(files) && AllGenuine(files, a) && id in files
    ensures Holds(files, a, Deliver(a), id)
  {
    match a
    case Nothing =>
    case Then(earlier, c) =>
      ReceiverHolds(files, earlier, id);
      if c.id == id {
        AcceptGenuine(files, earlier, Deliver(earlier), c);
      }
  }

  /** For any files with distinct ids and after any arrivals of their chunks, interleaved,
      permuted and repeated in any way: the next arrival saves a file if and only if it is the
      one that makes all indices present, and what is saved is the file that was sent; otherwise
      it reports how many of the chunks are there, below one hundred per cent, and never divides by
      zero. */
  lemma {:induction false} ReassemblyIsExact(files: map<string, File>, a: Arrivals, c: Chunk)
    requires Sendable(files) && AllGenuine(files, a) && Genuine(files, c)
    ensures var o := Accept(Deliver(a), c).1;
      && (o.Saved? <==> Completes(files, a, c))
      && (o.Saved? ==> o.file == files[c.id])
      && (!o.Saved? ==> IsProgress(o, |Since(files, a, c.id) + {c.index}|, |Pieces(files[c.id].data)|))
  {
    ReceiverHolds(files, a, c.id);
    AcceptGenuine(files, a, Deliver(a), c);
  }

  // ── Each chunk once ─────────────────────────────────────────────────────

  predicate Came(a: Arrivals, c: Chunk) {
    a.Then? && (a.chunk == c || Came(a.earlier, c))
  }

  /** No chunk of a file came twice. */
  predicate NoRepeats(a: Arrivals, id: string) {
    a.Then? ==> NoRepeats(a.earlier, id) && (a.chunk.id == id ==> !Came(a.earlier, a.chunk))
  }

  function Arrived(a: Arrivals, id: string): set<nat> {
    match a
    case Nothing => {}
    case Then(earlier, c) => Arrived(earlier, id) + if c.id == id then {c.index} else {}
  }

  /** How often a file was saved. */
  function Saves(a: Arrivals, id: string): nat {
    match a
    case Nothing => 0
    case Then(earlier, c) =>
      var o := Accept(Deliver(earlier), c).1;
      Saves(earlier, id) + if o.Saved? && o.file.id == id then 1 else 0
  }

  lemma {:induction false} ArrivedAre(files: map<string, File>, a: Arrivals, id: string)
    requires id in files && Sendable(files) && AllGenuine(files, a)
    ensures forall i: nat :: i in Arrived(a, id) <==>
              i < |Pieces(files[id].data)| && Came(a, ChunkOf(files[id], i))
  {
    match a
    case Nothing =>
    case Then(earlier, c) =>
      ArrivedAre(files, earlier, id);
  }

  /** A chunk that has not come yet is missing. */
  lemma {:induction false} NewIndex(files: map<string, File>, a: Arrivals, c: Chunk)
    requires Sendable(files) && AllGenuine(files, a) && Genuine(files, c) && !Came(a, c)
    ensures c.index !in Arrived(a, c.id) && !Full(Arrived(a, c.id), |Pieces(files[c.id].data)|)
  {
    ArrivedAre(files, a, c.id);
  }

  /** If none of its chunks comes twice, in whatever order and among whatever others, a file is
      saved once if all its chunks came and not at all otherwise; in the first case nothing of it is
      left pending, in the second exactly what came is. */
  lemma {:induction false} SavedExactlyOnce(files: map<string, File>, a: Arrivals, id: string)
    requires Sendable(files) && AllGenuine(files, a) && NoRepeats(a, id) && id in files
    ensures var all := Full(Arrived(a, id), |Pieces(files[id].data)|);
      && Saves(a, id) == (if all then 1 else 0)
      && Since(files, a, id) == (if all then {} else Arrived(a, id))
  {
    AnnouncedIsSent(files[id].data);
    var n := |Pieces(files[id].data)|;
    match a
    case Nothing =>
      assert 0 !in Arrived(a, id) && 0 < n;
    case Then(earlier, c) =>
      SavedExactlyOnce(files, earlier, id);
      if c.id == id {
        SavedNow(files, earlier, c);
      } else {
        OtherChunk(files, earlier, c, id);
      }
  }

  lemma {:induction false} OtherChunk(files: map<string, File>, earlier: Arrivals, c: Chunk, id: string)
    requires Sendable(files) && AllGenuine(files, earlier) && Genuine(files, c) && c.id != id && id in files
    ensures var a := Then(earlier, c);
      && Arrived(a, id) == Arrived(earlier, id) && Saves(a, id) == Saves(earlier, id)
      && Since(files, a, id) == Since(files, earlier, id)
  {
    ReassemblyIsExact(files, earlier, c);
  }

  /** A chunk that has not come yet saves its file exactly when it is the last one missing. */
  lemma {:induction false} SavedNow(files: map<string, File>, earlier: Arrivals, c: Chunk)
    requires Sendable(files) && AllGenuine(files, earlier) && Genuine(files, c) && !Came(earlier, c)
    requires var all := Full(Arrived(earlier, c.id), |Pieces(files[c.id].data)|);
      Since(files, earlier, c.id) == (if all then {} else Arrived(earlier, c.id))
    ensures var a := Then(earlier, c);
      var all := Full(Arrived(a, c.id), |Pieces(files[c.id].data)|);
      && !Full(Arrived(earlier, c.id), |Pieces(files[c.id].data)|)
      && Saves(a, c.id) == Saves(earlier, c.id) + (if all then 1 else 0)
      && Since(files, a, c.id) == (if all then {} else Arrived(a, c.id))
  {
    NewIndex(files, earlier, c);
    ReassemblyIsExact(files, earlier, c);
  }

  /** If every chunk of a file comes once, in any order and among others, the file is saved once and
      nothing of it stays pending. */
  lemma {:induction false} AllFilesArrive(files: map<string, File>, a: Arrivals, id: string)
    requires Sendable(files) && AllGenuine(files, a) && NoRepeats(a, id) && id in files
    requires forall i: nat :: i < |Pieces(files[id].data)| ==> Came(a, ChunkOf(files[id], i))
    ensures Saves(a, id) == 1 && id !in Deliver(a)
  {
    ArrivedAre(files, a, id);
    SavedExactlyOnce(files, a, id);
    ReceiverHolds(files, a, id);
  }

  // ── Division by zero ────────────────────────────────────────────────────

  /** Some arrival divided by zero. */
  predicate Panics(a: Arrivals) {
    a.Then? && (Panics(a.earlier) || Accept(Deliver(a.earlier), a.chunk).1.Panicked?)
  }

  /** Some chunk opened an entry and announced no chunks at all. */
  predicate OpensEmpty(a: Arrivals) {
    a.Then? && (OpensEmpty(a.earlier) || (a.chunk.id !in Deliver(a.earlier) && a.chunk.total == 0))
  }

  lemma {:induction false} TotalsPositive(a: Arrivals)
    requires !Panics(a)
    ensures forall id :: id in Deliver(a) ==> Deliver(a)[id].total > 0
  {
    if a.Then? {
      TotalsPositive(a.earlier);
    }
  }

  /** Over arbitrary arrivals, genuine or not, the receiver divides by zero if and only if a chunk
      that opens an entry announces a total of zero. */
  lemma {:induction false} PanicsExactly(a: Arrivals)
    ensures Panics(a) <==> OpensEmpty(a)
  {
    if a.Then? {
      PanicsExactly(a.earlier);
      if !Panics(a.earlier) {
        TotalsPositive(a.earlier);
        assert a.chunk.index in EntryWith(Deliver(a.earlier), a.chunk).received;
      }
    }
  }

  // ── Arbitrary arrivals ──────────────────────────────────────────────────

  ghost function Indices(cs: seq<Chunk>): set<nat> {
    set i | 0 <= i < |cs| :: cs[i].index
  }

  /** The data last given for an index. */
  function LastData(cs: seq<Chunk>, index: nat): Option<seq<Byte>> {
    if cs == [] then None
    else if cs[|cs| - 1].index == index then Some(cs[|cs| - 1].data)
    else LastData(cs[..|cs| - 1], index)
  }

  /** The data last given for each index below `n`, in order; missing ones are passed over. */
  function Latest(cs: seq<Chunk>, n: nat): seq<Byte> {
    if n == 0 then []
    else Latest(cs, n - 1) + match LastData(cs, n - 1) case Some(d) => d case None => []
  }

  /** Enough indices for the total announced by the first chunk. */
  ghost predicate Enough(cs: seq<Chunk>) {
    cs != [] && |Indices(cs)| == cs[0].total
  }

  /** The chunks with an id that came since there were last enough of them. */
  ghost function Collected(a: Arrivals, id: string): seq<Chunk> {
    match a
    case Nothing => []
    case Then(earlier, c) =>
      var cs := Collected(earlier, id);
      if c.id != id then cs else if Enough(cs + [c]) then [] else cs + [c]
  }

  /** An entry made by some chunks: the facts of the first, and for each index the data last given. */
  ghost predicate MadeBy(e: PendingFile, cs: seq<Chunk>) {
    && cs != [] && e.name == cs[0].name && e.size == cs[0].size && e.total == cs[0].total
    && e.received.Keys == Indices(cs)
    && forall i :: i in e.received ==> LastData(cs, i) == Some(e.received[i])
  }

  lemma {:induction false} IndicesSnoc(cs: seq<Chunk>, c: Chunk)
    ensures Indices(cs + [c]) == Indices(cs) + {c.index}
  {
    var all := cs + [c];
    assert all[|cs|] == c;
    assert forall i :: 0 <= i < |cs| ==> all[i] == cs[i];
  }

  lemma {:induction false} LastDataSnoc(cs: seq<Chunk>, c: Chunk, index: nat)
    ensures LastData(cs + [c], index) == if c.index == index then Some(c.data) else LastData(cs, index)
  {
    assert (cs + [c])[..|cs|] == cs;
  }

  lemma {:induction false} LastDataNone(cs: seq<Chunk>, index: nat)
    ensures LastData(cs, index).Some? <==> index in Indices(cs)
  {
    if cs != [] {
      var front, c := cs[..|cs| - 1], cs[|cs| - 1];
      assert cs == front + [c];
      LastDataNone(front, index);
      LastDataSnoc(front, c, index);
      IndicesSnoc(front, c);
    }
  }

  lemma {:induction false} AssembleLatest(e: PendingFile, cs: seq<Chunk>, n: nat)
    requires MadeBy(e, cs)
    ensures Assemble(e.received, n) == Latest(cs, n)
  {
    if n > 0 {
      AssembleLatest(e, cs, n - 1);
      LastDataNone(cs, n - 1);
    }
  }

  ghost predicate HeldFor(pending: map<string, PendingFile>, cs: seq<Chunk>, id: string) {
    if cs == [] then id !in pending else id in pending && MadeBy(pending[id], cs)
  }

  lemma {:induction false} EntryMade(pending: map<string, PendingFile>, cs: seq<Chunk>, c: Chunk)
    requires HeldFor(pending, cs, c.id)
    ensures MadeBy(EntryWith(pending, c), cs + [c])
  {
    var e := EntryWith(pending, c);
    IndicesSnoc(cs, c);
    forall i | i in e.received ensures LastData(cs + [c], i) == Some(e.received[i]) {
      LastDataSnoc(cs, c, i);
    }
  }

  /** After any arrivals, genuine or not, the receiver holds for each id the entry made by the chunks
      that came since there were last enough. */
  lemma {:induction false} ReceiverCollects(a: Arrivals, id: string)
    ensures HeldFor(Deliver(a), Collected(a, id), id)
  {
    match a
    case Nothing =>
    case Then(earlier, c) =>
      ReceiverCollects(earlier, id);
      if c.id == id {
        var cs, e := Collected(earlier, id), EntryWith(Deliver(earlier), c);
        EntryMade(Deliver(earlier), cs, c);
        assert |e.received| == |e.received.Keys|;
      }
  }

  /** What the receiver says to any chunk after any arrivals: with enough indices for the total the
      first chunk announced, it saves under that chunk's name the data last given for each index;
      otherwise it reports how many indices came, or divides by zero if none were announced. */
  lemma {:induction false} OutcomeExactly(a: Arrivals, c: Chunk)
    ensures var cs, o := Collected(a, c.id) + [c], Accept(Deliver(a), c).1;
      if Enough(cs) then o == Saved(File(c.id, cs[0].name, Latest(cs, cs[0].total)))
      else Reports(o, |Indices(cs)|, cs[0].total)
  {
    var cs, e := Collected(a, c.id), EntryWith(Deliver(a), c);
    ReceiverCollects(a, c.id);
    EntryMade(Deliver(a), cs, c);
    assert |e.received| == |e.received.Keys|;
    AssembleLatest(e, cs + [c], e.total);
    if e.total > 0 {
      ProgressIs(|e.received|, e.total);
    }
  }
}
