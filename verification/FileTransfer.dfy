/**
  Binary file transfers: the reassembler that turns interleaved Begin, Chunk and End
  frames into completed reads, and the uploader that produces such frames.
*/
module FileTransfer {
  import opened Options

  type Byte = bv8

  datatype Metadata = Metadata(mime: string, size: nat, encoding: string, modifiedAt: string)

  datatype Frame =
    | FileBegin(id: string, metadata: Metadata)
    | FileChunk(id: string, payload: seq<Byte>)
    | FileEnd(id: string)

  datatype PendingRead = PendingRead(cwd: string, path: string, maxBytes: Option<int>)

  datatype Transfer = Transfer(read: PendingRead, metadata: Metadata, chunks: seq<seq<Byte>>)

  datatype ReadResult = ReadResult(bytes: seq<Byte>, metadata: Metadata, path: string)

  // What handling a frame does beside updating the maps: synthesise a response, or
  // throw the RangeError of a chunk that does not fit the declared size.
  datatype Reaction = Quiet | Completes | Refuses | Throws

  datatype Reads = Reads(
    pending: map<string, PendingRead>, active: map<string, Transfer>, completed: map<string, ReadResult>)

  // ---------------------------------------------------------------- concatenation

  function Flat(chunks: seq<seq<Byte>>): seq<Byte> {
    if chunks == [] then [] else Flat(chunks[..|chunks| - 1]) + chunks[|chunks| - 1]
  }

  function Zeros(n: nat): seq<Byte> { seq(n, _ => 0) }

  // The chunks in order, zero-padded to the declared size.
  function Padded(bytes: seq<Byte>, size: nat): seq<Byte>
    requires |bytes| <= size
  {
    bytes + Zeros(size - |bytes|)
  }

  lemma {:induction false} FlatPrefix(chunks: seq<seq<Byte>>, i: nat)
    requires i <= |chunks|
    ensures Flat(chunks[..i]) <= Flat(chunks)
  {
    if i < |chunks| {
      FlatPrefix(chunks[..|chunks| - 1], i);
      assert chunks[..|chunks| - 1][..i] == chunks[..i];
    } else {
      assert chunks[..i] == chunks;
    }
  }

  // `concatByteChunks`: None is the RangeError of `set`.
  method ConcatByteChunks(chunks: seq<seq<Byte>>, size: nat) returns (r: Option<seq<Byte>>)
    ensures r == if |Flat(chunks)| <= size then Some(Padded(Flat(chunks), size)) else None
  {
    var bytes := new Byte[size](_ => 0);
    var offset, i := 0, 0;
    while i < |chunks|
      invariant i <= |chunks| && offset == |Flat(chunks[..i])| <= size
      invariant bytes[..] == Padded(Flat(chunks[..i]), size)
    {
      ghost var before := Flat(chunks[..i]);
      var chunk := chunks[i];
      assert chunks[..i + 1][..i] == chunks[..i];
      assert Flat(chunks[..i + 1]) == before + chunk;
      if offset + |chunk| > size {
        FlatPrefix(chunks, i + 1);
        return None;
      }
      assert bytes[..offset] == before;
      forall k | 0 <= k < |chunk| { bytes[offset + k] := chunk[k]; }
      assert bytes[..] == Padded(before + chunk, size);
      offset, i := offset + |chunk|, i + 1;
    }
    assert chunks[..|chunks|] == chunks;
    r := Some(bytes[..]);
  }

  // ------------------------------------------------------------ the reassembler

  // The size check against the byte budget: a zero budget counts as none.
  predicate OverBudget(t: Transfer) {
    t.read.maxBytes.Some? && t.read.maxBytes.value != 0 && t.metadata.size > t.read.maxBytes.value
  }

  function Handle(s: Reads, f: Frame): Reads {
    match f
    case FileBegin(id, m) =>
      if id in s.pending then s.(active := s.active[id := Transfer(s.pending[id], m, [])]) else s
    case FileChunk(id, payload) =>
      if id !in s.active || OverBudget(s.active[id]) then s
      else s.(active := s.active[id := s.active[id].(chunks := s.active[id].chunks + [payload])])
    case FileEnd(id) =>
      if id !in s.active then s
      else
        var t := s.active[id];
        if OverBudget(t) then s.(active := s.active - {id})
        else if |Flat(t.chunks)| > t.metadata.size then s
        else
          var result := ReadResult(Padded(Flat(t.chunks), t.metadata.size), t.metadata, t.read.path);
          s.(active := s.active - {id}, completed := s.completed[id := result])
  }

  function ReactionTo(s: Reads, f: Frame): Reaction {
    if !f.FileEnd? || f.id !in s.active then Quiet
    else if OverBudget(s.active[f.id]) then Refuses
    else if |Flat(s.active[f.id].chunks)| > s.active[f.id].metadata.size then Throws
    else Completes
  }

  // `readFile` before its request, and after its response.
  function StartRead(s: Reads, id: string, p: PendingRead): Reads {
    s.(pending := s.pending[id := p])
  }

  function FinishRead(s: Reads, id: string, failed: bool): Reads {
    Reads(s.pending - {id}, s.active - {id}, if failed then s.completed else s.completed - {id})
  }

  // Everything that acts on the maps: a frame, and a caller's read starting or finishing.
  datatype Event =
    | Arrives(frame: Frame)
    | Starts(reader: string, read: PendingRead)
    | Finishes(reader: string, failed: bool)

  function IdOf(e: Event): string { if e.Arrives? then e.frame.id else e.reader }

  function Apply(s: Reads, e: Event): Reads {
    match e
    case Arrives(f) => Handle(s, f)
    case Starts(id, read) => StartRead(s, id, read)
    case Finishes(id, failed) => FinishRead(s, id, failed)
  }

  function ApplyAll(s: Reads, es: seq<Event>): Reads {
    if es == [] then s else Apply(ApplyAll(s, es[..|es| - 1]), es[|es| - 1])
  }

  const EMPTY := Reads(map[], map[], map[])

  class FileReads {
    var pendingBinaryFileReads: map<string, PendingRead>
    var activeBinaryFileTransfers: map<string, Transfer>
    var completedBinaryFileReads: map<string, ReadResult>

    ghost function Model(): Reads
      reads this
    {
      Reads(pendingBinaryFileReads, activeBinaryFileTransfers, completedBinaryFileReads)
    }

    constructor ()
      ensures Model() == EMPTY
    {
      pendingBinaryFileReads, activeBinaryFileTransfers, completedBinaryFileReads := map[], map[], map[];
    }

    method Begin(id: string, p: PendingRead)
      modifies this
      ensures Model() == StartRead(old(Model()), id, p)
    {
      pendingBinaryFileReads := pendingBinaryFileReads[id := p];
    }

    method HandleFileTransferFrame(f: Frame) returns (reaction: Reaction)
      modifies this
      ensures Model() == Handle(old(Model()), f) && reaction == ReactionTo(old(Model()), f)
    {
      reaction := Quiet;
      if f.FileBegin? {
        if f.id in pendingBinaryFileReads {
          var transfer := Transfer(pendingBinaryFileReads[f.id], f.metadata, []);
          activeBinaryFileTransfers := activeBinaryFileTransfers[f.id := transfer];
        }
        return;
      }
      if f.id !in activeBinaryFileTransfers { return; }
      var transfer := activeBinaryFileTransfers[f.id];
      if f.FileChunk? {
        if OverBudget(transfer) { return; }
        activeBinaryFileTransfers :=
          activeBinaryFileTransfers[f.id := transfer.(chunks := transfer.chunks + [f.payload])];
        return;
      }
      if OverBudget(transfer) {
        activeBinaryFileTransfers := activeBinaryFileTransfers - {f.id};
        return Refuses;
      }
      var bytes := ConcatByteChunks(transfer.chunks, transfer.metadata.size);
      if bytes.None? { return Throws; }
      activeBinaryFileTransfers := activeBinaryFileTransfers - {f.id};
      completedBinaryFileReads :=
        completedBinaryFileReads[f.id := ReadResult(bytes.value, transfer.metadata, transfer.read.path)];
      return Completes;
    }

    // The rest of `readFile` once its response is in: the completed read, if any.
    method Finish(id: string, failed: bool) returns (r: Option<ReadResult>)
      modifies this
      ensures Model() == FinishRead(old(Model()), id, failed)
      ensures r == if !failed && id in old(completedBinaryFileReads) then Some(old(completedBinaryFileReads)[id])
              else None
    {
      r := None;
      if !failed && id in completedBinaryFileReads { r := Some(completedBinaryFileReads[id]); }
      if !failed { completedBinaryFileReads := completedBinaryFileReads - {id}; }
      pendingBinaryFileReads := pendingBinaryFileReads - {id};
      activeBinaryFileTransfers := activeBinaryFileTransfers - {id};
    }

    method Replay(es: seq<Event>)
      modifies this
      ensures Model() == ApplyAll(old(Model()), es)
    {
      for i := 0 to |es|
        invariant Model() == ApplyAll(old(Model()), es[..i])
      {
        ghost var before := Model();
        match es[i] {
          case Arrives(f) => var _ := HandleFileTransferFrame(f);
          case Starts(reader, read) => Begin(reader, read);
          case Finishes(reader, failed) => var _ := Finish(reader, failed);
        }
        assert Model() == Apply(before, es[i]);
        assert es[..i + 1][..i] == es[..i];
      }
      assert es[..|es|] == es;
    }
  }

  // -------------------------------------------------------------- the byte budget

  // The declared size fits the budget that the reader gave; zero is no budget.
  predicate Fits(read: PendingRead, m: Metadata) {
    read.maxBytes.None? || read.maxBytes.value == 0 || m.size <= read.maxBytes.value
  }

  // ------------------------------------------------------------------ invariants

  // Every active transfer belongs to a pending read.
  ghost predicate Owned(s: Reads) {
    forall id :: id in s.active ==> id in s.pending
  }

  lemma ApplyKeepsOwned(s: Reads, e: Event)
    requires Owned(s)
    ensures Owned(Apply(s, e))
  {
  }

  // Over every history of frames, starts and finishes.
  lemma {:induction false} OwnedOverHistories(es: seq<Event>)
    ensures Owned(ApplyAll(EMPTY, es))
  {
    if es != [] {
      OwnedOverHistories(es[..|es| - 1]);
      ApplyKeepsOwned(ApplyAll(EMPTY, es[..|es| - 1]), es[|es| - 1]);
    }
  }

  // A read completes with exactly the declared size, which a non-zero budget bounds.
  lemma BudgetIsKept(s: Reads, f: Frame)
    requires ReactionTo(s, f) == Completes
    ensures var r := Handle(s, f).completed[f.id];
            && |r.bytes| == r.metadata.size
            && (s.active[f.id].read.maxBytes.Some? ==>
                  (|r.bytes| <= s.active[f.id].read.maxBytes.value || s.active[f.id].read.maxBytes.value == 0))
  {
  }

  // ------------------------------------------------------------- non-interference

  datatype View = View(pending: Option<PendingRead>, active: Option<Transfer>, completed: Option<ReadResult>)

  function Get<V>(m: map<string, V>, id: string): Option<V> {
    if id in m then Some(m[id]) else None
  }

  function ViewOf(s: Reads, id: string): View {
    View(Get(s.pending, id), Get(s.active, id), Get(s.completed, id))
  }

  // The events of one request.
  function Only(es: seq<Event>, id: string): seq<Event> {
    if es == [] then []
    else if IdOf(es[|es| - 1]) == id then Only(es[..|es| - 1], id) + [es[|es| - 1]]
    else Only(es[..|es| - 1], id)
  }

  lemma ApplyIsLocal(s: Reads, t: Reads, e: Event, id: string)
    requires ViewOf(s, id) == ViewOf(t, id)
    ensures ViewOf(Apply(s, e), id) == if IdOf(e) == id then ViewOf(Apply(t, e), id) else ViewOf(t, id)
  {
  }

  // Whatever is interleaved with them, frames or reads that start and finish, one
  // request's events act on it as if they had come alone.
  lemma {:induction false} OtherRequestsDoNotMatter(s: Reads, es: seq<Event>, id: string)
    ensures ViewOf(ApplyAll(s, es), id) == ViewOf(ApplyAll(s, Only(es, id)), id)
  {
    if es != [] {
      var init, last := es[..|es| - 1], es[|es| - 1];
      OtherRequestsDoNotMatter(s, init, id);
      ApplyIsLocal(ApplyAll(s, init), ApplyAll(s, Only(init, id)), last, id);
      if IdOf(last) == id { ApplyAllAppend(s, Only(init, id), last); }
    }
  }

  // --------------------------------------------------------- what a read returns

  function ChunkFrames(id: string, cs: seq<seq<Byte>>): seq<Frame> {
    seq(|cs|, i requires 0 <= i < |cs| => FileChunk(id, cs[i]))
  }

  function Arrivals(fs: seq<Frame>): seq<Event> { seq(|fs|, i requires 0 <= i < |fs| => Arrives(fs[i])) }

  lemma ApplyAllAppend(s: Reads, es: seq<Event>, e: Event)
    ensures ApplyAll(s, es + [e]) == Apply(ApplyAll(s, es), e)
  {
    assert (es + [e])[..|es|] == es;
  }

  // A Begin frame and the chunks that have arrived since.
  function Opened(id: string, m: Metadata, cs: seq<seq<Byte>>): seq<Event> {
    Arrivals([FileBegin(id, m)] + ChunkFrames(id, cs))
  }

  lemma OpenedOneMore(id: string, m: Metadata, cs: seq<seq<Byte>>, c: seq<Byte>)
    ensures Opened(id, m, cs + [c]) == Opened(id, m, cs) + [Arrives(FileChunk(id, c))]
  {
  }

  // The transfer once these chunks have arrived.
  function Collected(read: PendingRead, m: Metadata, cs: seq<seq<Byte>>): Transfer {
    Transfer(read, m, if Fits(read, m) then cs else [])
  }

  lemma {:induction false} ChunksAccumulate(s: Reads, before: seq<Event>, id: string, m: Metadata, cs: seq<seq<Byte>>)
    requires id in ApplyAll(s, before).pending
    ensures var r := ApplyAll(s, before + Opened(id, m, cs));
            id in r.active && r.active[id] == Collected(ApplyAll(s, before).pending[id], m, cs)
  {
    if cs == [] {
      ApplyAllAppend(s, before, Arrives(FileBegin(id, m)));
      assert Opened(id, m, cs) == [Arrives(FileBegin(id, m))];
    } else {
      var init, last := cs[..|cs| - 1], cs[|cs| - 1];
      ChunksAccumulate(s, before, id, m, init);
      OpenedOneMore(id, m, init, last);
      Associate(before, Opened(id, m, init), [Arrives(FileChunk(id, last))]);
      ApplyAllAppend(s, before + Opened(id, m, init), Arrives(FileChunk(id, last)));
      assert init + [last] == cs;
    }
  }

  lemma Associate<T>(a: seq<T>, b: seq<T>, c: seq<T>)
    ensures (a + b) + c == a + (b + c)
  {
  }

  // How the End of a transfer is answered, given what was declared, allowed and sent.
  lemma EndExactly(s: Reads, id: string, before: seq<Event>, m: Metadata, cs: seq<seq<Byte>>)
    requires id in ApplyAll(s, before).pending
    ensures var read, open := ApplyAll(s, before).pending[id], ApplyAll(s, before + Opened(id, m, cs));
            var reaction, done := ReactionTo(open, FileEnd(id)), Handle(open, FileEnd(id));
            && (reaction == Refuses <==>
                  read.maxBytes.Some? && read.maxBytes.value != 0 && m.size > read.maxBytes.value)
            && (reaction == Throws <==> reaction != Refuses && |Flat(cs)| > m.size)
            && (reaction == Completes <==> reaction != Refuses && |Flat(cs)| <= m.size)
            && (reaction == Refuses ==> id !in done.active && done.completed == open.completed)
  {
    ChunksAccumulate(s, before, id, m, cs);
  }

  // A frame of a read that was never asked for, or of a transfer that was never begun,
  // is ignored.
  lemma StrayFrameIsIgnored(s: Reads, f: Frame)
    requires if f.FileBegin? then f.id !in s.pending else f.id !in s.active
    ensures Handle(s, f) == s && ReactionTo(s, f) == Quiet
  {
  }

  // A start leaves every transfer and result as it is, even under the same id.
  lemma StartDisturbsNothing(s: Reads, id: string, p: PendingRead)
    ensures var r := StartRead(s, id, p);
            r.active == s.active && r.completed == s.completed && Get(r.pending, id) == Some(p)
  {
  }

  // The read that waits under an id: what the latest call about it started, if it did.
  function Waiting(es: seq<Event>, id: string): Option<PendingRead> {
    if es == [] then None
    else
      var e := es[|es| - 1];
      if e.Arrives? || e.reader != id then Waiting(es[..|es| - 1], id) else if e.Starts? then Some(e.read) else None
  }

  // Over every history: frames neither add nor take away a waiting read.
  lemma {:induction false} WaitingOverHistories(es: seq<Event>, id: string)
    ensures Get(ApplyAll(EMPTY, es).pending, id) == Waiting(es, id)
  {
    if es != [] { WaitingOverHistories(es[..|es| - 1], id); }
  }

  // A finished read is forgotten, but for a completed result that a failed read leaves.
  lemma FinishForgets(s: Reads, id: string, failed: bool)
    ensures var r := FinishRead(s, id, failed);
            id !in r.pending && id !in r.active && (id in r.completed <==> failed && id in s.completed)
  {
  }

  lemma EndOfTransfer(s: Reads, id: string, before: seq<Event>, m: Metadata, cs: seq<seq<Byte>>)
    requires id in ApplyAll(s, before).pending
    requires Fits(ApplyAll(s, before).pending[id], m)
    ensures var open := ApplyAll(s, before + Opened(id, m, cs));
            var done := ApplyAll(s, before + Opened(id, m, cs) + [Arrives(FileEnd(id))]);
            && done == Handle(open, FileEnd(id))
            && (|Flat(cs)| <= m.size ==>
                  id in done.completed && id !in done.active
                  && done.completed[id] ==
                       ReadResult(Padded(Flat(cs), m.size), m, ApplyAll(s, before).pending[id].path))
            && (|Flat(cs)| > m.size ==> done == open && ReactionTo(open, FileEnd(id)) == Throws)
  {
    ChunksAccumulate(s, before, id, m, cs);
    ApplyAllAppend(s, before + Opened(id, m, cs), Arrives(FileEnd(id)));
  }

  // A completed read holds exactly its own chunks since its latest Begin, in order
  // and zero-padded, under any interleaving with other reads and their transfers.
  // `before` is what happened to this request before that Begin.
  lemma CompletedReadIsExact(s: Reads, es: seq<Event>, id: string, before: seq<Event>, m: Metadata, cs: seq<seq<Byte>>)
    requires id in ApplyAll(s, before).pending
    requires Fits(ApplyAll(s, before).pending[id], m)
    requires Only(es, id) == before + Opened(id, m, cs) + [Arrives(FileEnd(id))] && |Flat(cs)| <= m.size
    ensures var r := ApplyAll(s, es);
            id in r.completed && id !in r.active
            && r.completed[id] == ReadResult(Padded(Flat(cs), m.size), m, ApplyAll(s, before).pending[id].path)
  {
    OtherRequestsDoNotMatter(s, es, id);
    EndOfTransfer(s, id, before, m, cs);
    assert Get(ApplyAll(s, es).completed, id) == Get(ApplyAll(s, Only(es, id)).completed, id);
    assert Get(ApplyAll(s, es).active, id) == Get(ApplyAll(s, Only(es, id)).active, id);
  }

  // ------------------------------------------------------------------ the uploader

  function Min(a: nat, b: nat): nat { if a <= b then a else b }

  // The bytes from `offset` on, cut into pieces of `chunkSize`.
  function Pieces(bytes: seq<Byte>, chunkSize: nat, offset: nat): seq<seq<Byte>>
    requires 0 < chunkSize
    decreases if offset < |bytes| then |bytes| - offset else 0
  {
    if offset >= |bytes| then []
    else [bytes[offset..Min(offset + chunkSize, |bytes|)]] + Pieces(bytes, chunkSize, offset + chunkSize)
  }

  function UploadFrames(id: string, m: Metadata, bytes: seq<Byte>, chunkSize: nat): seq<Frame>
    requires 0 < chunkSize
  {
    [FileBegin(id, m)] + ChunkFrames(id, Pieces(bytes, chunkSize, 0)) + [FileEnd(id)]
  }

  // What the client finds after yielding before a chunk.
  datatype Situation = Proceed | ResponseSettled | ConnectionChanged

  datatype Upload = Uploaded | Abandoned | Failed

  // `uploadFile`, from its Begin frame on; `at` is the situation at each offset.
  method SendUpload(id: string, m: Metadata, bytes: seq<Byte>, chunkSize: nat, at: nat -> Situation)
    returns (frames: seq<Frame>, outcome: Upload)
    requires 0 < chunkSize
    ensures frames <= UploadFrames(id, m, bytes, chunkSize)
    ensures outcome == Uploaded <==> frames == UploadFrames(id, m, bytes, chunkSize)
    ensures FileEnd(id) in frames ==> outcome == Uploaded
    ensures outcome == Uploaded <== forall offset: nat :: at(offset) == Proceed
  {
    frames := [FileBegin(id, m)];
    var offset := 0;
    ghost var all := UploadFrames(id, m, bytes, chunkSize);
    while offset < |bytes|
      invariant all == frames + ChunkFrames(id, Pieces(bytes, chunkSize, offset)) + [FileEnd(id)]
      invariant FileEnd(id) !in frames
    {
      var situation := at(offset);
      if situation != Proceed {
        return frames, if situation == ResponseSettled then Abandoned else Failed;
      }
      var piece := bytes[offset..Min(offset + chunkSize, |bytes|)];
      ChunkFramesPrepend(id, piece, Pieces(bytes, chunkSize, offset + chunkSize));
      frames := frames + [FileChunk(id, piece)];
      offset := offset + chunkSize;
    }
    frames := frames + [FileEnd(id)];
    outcome := Uploaded;
  }

  lemma ChunkFramesPrepend(id: string, c: seq<Byte>, cs: seq<seq<Byte>>)
    ensures ChunkFrames(id, [c] + cs) == [FileChunk(id, c)] + ChunkFrames(id, cs)
  {
  }

  lemma {:induction false} FlatPrepend(c: seq<Byte>, cs: seq<seq<Byte>>)
    ensures Flat([c] + cs) == c + Flat(cs)
  {
    var all := [c] + cs;
    if cs == [] {
      assert all[..|all| - 1] == [];
    } else {
      FlatPrepend(c, cs[..|cs| - 1]);
      assert all[..|all| - 1] == [c] + cs[..|cs| - 1];
    }
  }

  lemma Rejoined(bytes: seq<Byte>, offset: nat, cut: nat)
    requires offset <= cut <= |bytes|
    ensures bytes[offset..cut] + bytes[cut..] == bytes[offset..]
  {
  }

  lemma {:induction false} PiecesCoverBytes(bytes: seq<Byte>, chunkSize: nat, offset: nat)
    requires 0 < chunkSize
    ensures Flat(Pieces(bytes, chunkSize, offset)) == if offset < |bytes| then bytes[offset..] else []
    decreases if offset < |bytes| then |bytes| - offset else 0
  {
    if offset < |bytes| {
      var cut, rest := Min(offset + chunkSize, |bytes|), Pieces(bytes, chunkSize, offset + chunkSize);
      PiecesCoverBytes(bytes, chunkSize, offset + chunkSize);
      assert Flat(rest) == bytes[cut..];
      FlatPrepend(bytes[offset..cut], rest);
      Rejoined(bytes, offset, cut);
    }
  }

  // What the uploader sends, the reassembler gives back: the original bytes, for
  // any chunk size and whatever other reads and transfers are interleaved.
  lemma UploadRoundTrip(s: Reads, es: seq<Event>, id: string, before: seq<Event>, m: Metadata, bytes: seq<Byte>,
                        chunkSize: nat)
    requires 0 < chunkSize && m.size == |bytes| && id in ApplyAll(s, before).pending
    requires Fits(ApplyAll(s, before).pending[id], m)
    requires Only(es, id) == before + Arrivals(UploadFrames(id, m, bytes, chunkSize))
    ensures var r := ApplyAll(s, es);
            id in r.completed && r.completed[id] == ReadResult(bytes, m, ApplyAll(s, before).pending[id].path)
  {
    var cs := Pieces(bytes, chunkSize, 0);
    PiecesCoverBytes(bytes, chunkSize, 0);
    assert Flat(cs) == bytes;
    assert Arrivals(UploadFrames(id, m, bytes, chunkSize)) == Opened(id, m, cs) + [Arrives(FileEnd(id))];
    Associate(before, Opened(id, m, cs), [Arrives(FileEnd(id))]);
    CompletedReadIsExact(s, es, id, before, m, cs);
    assert Padded(bytes, m.size) == bytes;
  }

  lemma ReadGetsBytes(es: seq<Event>, id: string, read: PendingRead, m: Metadata, bytes: seq<Byte>, chunkSize: nat)
    requires 0 < chunkSize && m.size == |bytes| && Fits(read, m)
    requires Only(es, id) == [Starts(id, read)] + Arrivals(UploadFrames(id, m, bytes, chunkSize))
    ensures Get(ApplyAll(EMPTY, es).completed, id) == Some(ReadResult(bytes, m, read.path))
  {
    assert [Starts(id, read)][..0] == [] && ApplyAll(EMPTY, [Starts(id, read)]) == StartRead(EMPTY, id, read);
    UploadRoundTrip(EMPTY, es, id, [Starts(id, read)], m, bytes, chunkSize);
  }

  // One read through the object: whatever else happens meanwhile, its caller gets the
  // bytes that were uploaded.
  method ReadBack(es: seq<Event>, id: string, read: PendingRead, m: Metadata, bytes: seq<Byte>, chunkSize: nat)
      returns (r: Option<ReadResult>)
    requires 0 < chunkSize && m.size == |bytes| && Fits(read, m)
    requires Only(es, id) == [Starts(id, read)] + Arrivals(UploadFrames(id, m, bytes, chunkSize))
    ensures r == Some(ReadResult(bytes, m, read.path))
  {
    var files := new FileReads();
    files.Replay(es);
    ReadGetsBytes(es, id, read, m, bytes, chunkSize);
    r := files.Finish(id, false);
  }

  // A finished transfer hands its reader more than the budget it gave exactly when
  // that budget is zero, which the check reads as no budget.
  lemma BudgetExactly(s: Reads, before: seq<Event>, id: string, m: Metadata, cs: seq<seq<Byte>>, n: int)
    requires id in ApplyAll(s, before).pending && ApplyAll(s, before).pending[id].maxBytes == Some(n)
             && |Flat(cs)| <= m.size
    ensures var open := ApplyAll(s, before + Opened(id, m, cs));
            (ReactionTo(open, FileEnd(id)) == Completes && |Handle(open, FileEnd(id)).completed[id].bytes| > n)
            <==> n == 0 && m.size > 0
  {
    ChunksAccumulate(s, before, id, m, cs);
  }
}
