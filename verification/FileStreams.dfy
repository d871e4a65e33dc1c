/**
 Reading finished log files through the agent: OpenFile cuts a file into chunks (pkg/slurm-agent/api/slurm.go), and
 OpenFileReader reads the streams of several files as one (pkg/slurm-virtual-kubelet/reader.go).
 */
module FileStreams {
  import opened Lines
  import opened Seqs

  const CHUNK_SIZE := 128

  /** What Recv will give on one stream: chunks, and then always io.EOF or, if not `ok`, another error. */
  datatype Stream = Stream(chunks: seq<Text>, ok: bool)

  datatype ReadError = NoError | EndOfFile | Broken | OutOfRange

  datatype ReaderState = ReaderState(streams: seq<Stream>, readIndex: nat, buff: Text) {
    predicate Valid() { readIndex < |streams| || (readIndex == 0 && streams == [] && buff == []) }
  }

  /** The retry loop of Read: makes the buffer hold a received chunk, moving on over streams that have ended. */
  function Refill(s: ReaderState): (r: (ReaderState, ReadError))
    requires s.readIndex < |s.streams|
    ensures r.0.readIndex < |s.streams| == |r.0.streams|
    decreases |s.streams| - s.readIndex
  {
    var i := s.readIndex;
    var cur := s.streams[i];
    if s.buff != [] then (s, NoError)
    else if cur.chunks != [] then
      (s.(streams := s.streams[i := cur.(chunks := cur.chunks[1..])], buff := cur.chunks[0]), NoError)
    else if i == |s.streams| - 1 then (s, if cur.ok then EndOfFile else Broken)
    else if !cur.ok then (s, Broken)
    else Refill(s.(readIndex := i + 1))
  }

  datatype ReadResult = ReadResult(bytes: Text, err: ReadError, next: ReaderState)

  function ReadStep(s: ReaderState, size: nat): ReadResult {
    if s.readIndex >= |s.streams| then ReadResult([], OutOfRange, s)
    else
      var (t, e) := Refill(s);
      if e != NoError then ReadResult([], e, t)
      else
        var n := Min(size, |t.buff|);
        ReadResult(t.buff[..n], NoError, t.(buff := t.buff[n..]))
  }

  class OpenFileReader {
    var streams: seq<Stream>
    var readIndex: nat
    var buff: Text

    ghost function State(): ReaderState
      reads this
    {
      ReaderState(streams, readIndex, buff)
    }

    /** Recv of the current stream; None stands for its end. */
    method Recv() returns (chunk: Text, err: ReadError)
      requires readIndex < |streams|
      modifies this`streams
      ensures var cur := old(streams)[readIndex];
              if cur.chunks == [] then err == (if cur.ok then EndOfFile else Broken) && streams == old(streams)
              else && err == NoError && chunk == cur.chunks[0]
                   && streams == old(streams)[readIndex := cur.(chunks := cur.chunks[1..])]
    {
      var cur := streams[readIndex];
      if cur.chunks == [] {
        return [], if cur.ok then EndOfFile else Broken;
      }
      streams := streams[readIndex := cur.(chunks := cur.chunks[1..])];
      return cur.chunks[0], NoError;
    }

    /** The loop at the start of Read. */
    method FillBuffer() returns (err: ReadError)
      requires readIndex < |streams|
      modifies this
      ensures (State(), err) == Refill(old(State()))
    {
      while |buff| == 0
        invariant readIndex < |streams|
        invariant Refill(State()) == Refill(old(State()))
        decreases |streams| - readIndex, |buff| == 0
      {
        var chunk, e := Recv();
        if e == NoError {
          buff := chunk;
          return NoError;
        }
        if readIndex == |streams| - 1 {
          return e;
        }
        if e != EndOfFile {
          return e;
        }
        readIndex := readIndex + 1;
      }
      return NoError;
    }

    method Read(p: array<byte>) returns (n: nat, err: ReadError)
      modifies this, p
      ensures var r := ReadStep(old(State()), p.Length);
              && n == |r.bytes| && err == r.err && State() == r.next
              && n <= p.Length && p[..n] == r.bytes && p[n..] == old(p[n..])
    {
      hide Refill;
      if readIndex >= |streams| {
        return 0, OutOfRange;
      }
      err := FillBuffer();
      if err != NoError {
        return 0, err;
      }
      var readLen := p.Length;
      if readLen > |buff| {
        readLen := |buff|;
      }
      forall i | 0 <= i < readLen {
        p[i] := buff[i];
      }
      assert p[..readLen] == buff[..readLen];
      buff := buff[readLen..];
      return readLen, NoError;
    }
  }

  // What is still to come

  /** The bytes of the streams up to the first that breaks. */
  function Deliverable(streams: seq<Stream>): Text {
    if streams == [] then []
    else Concat(streams[0].chunks) + if streams[0].ok then Deliverable(streams[1..]) else []
  }

  predicate AllOk(streams: seq<Stream>) {
    forall i | 0 <= i < |streams| :: streams[i].ok
  }

  function ToCome(s: ReaderState): Text
    requires s.Valid()
  {
    s.buff + Deliverable(s.streams[s.readIndex..])
  }

  predicate Sound(s: ReaderState)
    requires s.Valid()
  {
    AllOk(s.streams[s.readIndex..])
  }

  function Ending(s: ReaderState): ReadError
    requires s.Valid()
  {
    if Sound(s) then EndOfFile else Broken
  }

  lemma TakeChunk(streams: seq<Stream>)
    requires streams != [] && streams[0].chunks != []
    ensures var rest := streams[0].(chunks := streams[0].chunks[1..]);
            && Deliverable(streams) == streams[0].chunks[0] + Deliverable([rest] + streams[1..])
            && AllOk(streams) == AllOk([rest] + streams[1..])
  {
    var rest := streams[0].(chunks := streams[0].chunks[1..]);
    var after := [rest] + streams[1..];
    assert after[1..] == streams[1..];
    assert forall i | 1 <= i < |streams| :: after[i] == streams[i];
  }

  lemma UpdatedTail(streams: seq<Stream>, i: nat, stream: Stream)
    requires i < |streams|
    ensures streams[i := stream][i..] == [stream] + streams[i + 1..]
    ensures streams[i..][1..] == streams[i + 1..]
  {
  }

  lemma LaterStreams(streams: seq<Stream>)
    requires streams != []
    ensures AllOk(streams) <==> streams[0].ok && AllOk(streams[1..])
  {
    assert forall i | 1 <= i < |streams| :: streams[i] == streams[1..][i - 1];
  }

  /** Refilling moves bytes but loses none, and gives up only at the end of what can be delivered. */
  lemma {:induction false} RefillKeeps(s: ReaderState)
    requires s.readIndex < |s.streams|
    ensures var (t, e) := Refill(s);
            && ToCome(t) == ToCome(s) && Sound(t) == Sound(s)
            && (e != NoError ==> ToCome(s) == [] && e == Ending(s))
    decreases |s.streams| - s.readIndex
  {
    var i := s.readIndex;
    var cur := s.streams[i];
    if s.buff == [] {
      UpdatedTail(s.streams, i, cur.(chunks := if cur.chunks == [] then [] else cur.chunks[1..]));
      LaterStreams(s.streams[i..]);
      if cur.chunks != [] {
        hide AllOk, Deliverable;
        TakeChunk(s.streams[i..]);
      } else if i < |s.streams| - 1 && cur.ok {
        RefillKeeps(s.(readIndex := i + 1));
      }
    }
  }

  lemma CutBuffer(buff: Text, n: nat, rest: Text)
    requires n <= |buff|
    ensures buff[..n] + (buff[n..] + rest) == buff + rest
  {
  }

  lemma NothingToCome(s: ReaderState)
    requires s.Valid() && s.streams == []
    ensures ToCome(s) == []
  {
  }

  /** One Read hands out the next bytes, or says how the streams ended when there are none left. */
  lemma ReadConserves(s: ReaderState, size: nat)
    requires s.Valid()
    ensures var r := ReadStep(s, size);
            && r.next.Valid() && |r.next.streams| == |s.streams| && Sound(r.next) == Sound(s)
            && r.bytes + ToCome(r.next) == ToCome(s)
            && (r.err != NoError ==> r.bytes == [] && ToCome(s) == [])
            && (r.err != NoError && s.streams != [] ==> r.err == Ending(s))
            && (r.err == OutOfRange <==> s.streams == [])
  {
    hide Refill, Deliverable, AllOk;
    if s.readIndex < |s.streams| {
      RefillKeeps(s);
      var (t, e) := Refill(s);
      if e == NoError {
        CutBuffer(t.buff, Min(size, |t.buff|), Deliverable(t.streams[t.readIndex..]));
      }
    } else {
      NothingToCome(s);
    }
  }

  /** A successful Read fills the caller's buffer, or hands out all that is left of the chunk. */
  lemma ReadGivesAllItCan(s: ReaderState, size: nat)
    requires s.Valid() && ReadStep(s, size).err == NoError
    ensures var r := ReadStep(s, size); |r.bytes| == size || (|r.bytes| < size && r.next.buff == [])
  {
    hide Refill;
  }

  // Many reads

  function Reads(s: ReaderState, sizes: seq<nat>): ReaderState
    decreases |sizes|
  {
    if sizes == [] then s else Reads(ReadStep(s, sizes[0]).next, sizes[1..])
  }

  function Received(s: ReaderState, sizes: seq<nat>): Text
    decreases |sizes|
  {
    if sizes == [] then []
    else ReadStep(s, sizes[0]).bytes + Received(ReadStep(s, sizes[0]).next, sizes[1..])
  }

  /** Whatever the sizes, what was read is what was to come at first, without what is to come now. */
  lemma {:induction false} ReadsConserve(s: ReaderState, sizes: seq<nat>)
    requires s.Valid()
    ensures Reads(s, sizes).Valid() && |Reads(s, sizes).streams| == |s.streams| && Sound(Reads(s, sizes)) == Sound(s)
    ensures Received(s, sizes) + ToCome(Reads(s, sizes)) == ToCome(s)
    decreases |sizes|
  {
    hide ReadStep, ToCome, Sound, ReaderState.Valid;
    if sizes != [] {
      var r := ReadStep(s, sizes[0]);
      ReadConserves(s, sizes[0]);
      ReadsConserve(r.next, sizes[1..]);
      Associate(r.bytes, Received(r.next, sizes[1..]), ToCome(Reads(s, sizes)));
    }
  }

  /** An end of file, or an error, is only reported after everything before it was handed out. */
  lemma EndMeansEverything(s: ReaderState, sizes: seq<nat>, size: nat)
    requires s.Valid() && s.streams != []
    requires ReadStep(Reads(s, sizes), size).err != NoError
    ensures Received(s, sizes) == ToCome(s)
    ensures ReadStep(Reads(s, sizes), size).err == Ending(s)
  {
    hide ReadStep, ToCome, Sound;
    ReadsConserve(s, sizes);
    ReadConserves(Reads(s, sizes), size);
  }

  // Progress

  function ChunkWeight(chunks: seq<Text>): nat {
    if chunks == [] then 0 else 1 + |chunks[0]| + ChunkWeight(chunks[1..])
  }

  function Weight(streams: seq<Stream>): nat {
    if streams == [] then 0 else ChunkWeight(streams[0].chunks) + Weight(streams[1..])
  }

  /** A bound on the number of reads that can still succeed. */
  function Work(s: ReaderState): nat
    requires s.Valid()
  {
    |s.buff| + Weight(s.streams[s.readIndex..])
  }

  lemma {:induction false} RefillWork(s: ReaderState)
    requires s.readIndex < |s.streams|
    ensures var (t, e) := Refill(s);
            && (e == NoError ==> Work(t) <= Work(s) && (t.buff == [] ==> Work(t) < Work(s)))
            && (e != NoError ==> Refill(t) == (t, e))
            && (Work(s) == 0 ==> e != NoError)
    decreases |s.streams| - s.readIndex
  {
    var i := s.readIndex;
    var cur := s.streams[i];
    if s.buff == [] {
      UpdatedTail(s.streams, i, cur.(chunks := if cur.chunks == [] then [] else cur.chunks[1..]));
      if cur.chunks == [] && i < |s.streams| - 1 && cur.ok {
        RefillWork(s.(readIndex := i + 1));
      }
    }
  }

  lemma ReadWorks(s: ReaderState, size: nat)
    requires s.Valid() && s.streams != [] && size > 0
    ensures var r := ReadStep(s, size);
            && (r.err == NoError ==> r.next.Valid() && Work(r.next) < Work(s))
            && (r.err != NoError ==> forall n: nat :: ReadStep(r.next, n) == ReadResult([], r.err, r.next))
  {
    hide Refill, Weight;
    RefillWork(s);
  }

  lemma {:induction false} ReadsAfterTheEnd(s: ReaderState, sizes: seq<nat>, e: ReadError)
    requires forall n: nat :: ReadStep(s, n) == ReadResult([], e, s)
    ensures Reads(s, sizes) == s
    decreases |sizes|
  {
    hide ReadStep;
    if sizes != [] {
      ReadsAfterTheEnd(s, sizes[1..], e);
    }
  }

  /** Reads into non-empty buffers come to an end: after enough of them everything was received. */
  lemma {:induction false} EventuallyEnds(s: ReaderState, sizes: seq<nat>, size: nat)
    requires s.Valid() && s.streams != [] && |sizes| >= Work(s)
    requires forall i | 0 <= i < |sizes| :: sizes[i] > 0
    ensures ReadStep(Reads(s, sizes), size).err == Ending(s) && Received(s, sizes) == ToCome(s)
  {
    hide ReadStep, Received, Reads, Sound, ToCome;
    EndIsReached(s, sizes, size);
    EndMeansEverything(s, sizes, size);
  }

  lemma {:induction false} EndIsReached(s: ReaderState, sizes: seq<nat>, size: nat)
    requires s.Valid() && s.streams != [] && |sizes| >= Work(s)
    requires forall i | 0 <= i < |sizes| :: sizes[i] > 0
    ensures ReadStep(Reads(s, sizes), size).err != NoError
    decreases |sizes|
  {
    hide Refill, ReadStep, Sound, ToCome, Work;
    if sizes == [] {
      NoWorkIsTheEnd(s, size);
    } else {
      var r := ReadStep(s, sizes[0]);
      ReadWorks(s, sizes[0]);
      if r.err == NoError {
        ReadConserves(s, sizes[0]);
        EndIsReached(r.next, sizes[1..], size);
      } else {
        ReadsAfterTheEnd(r.next, sizes[1..], r.err);
      }
    }
  }

  lemma NoWorkIsTheEnd(s: ReaderState, size: nat)
    requires s.Valid() && s.streams != [] && Work(s) == 0
    ensures ReadStep(s, size).err != NoError
  {
    hide Refill, Weight;
    RefillWork(s);
  }

  // The agent's side

  /** One file, read in pieces of at most 128 bytes; a read returns what it likes, and may fail. */
  method OpenFile(content: Text, amount: nat -> nat, fails: nat -> bool) returns (stream: Stream)
    ensures forall i | 0 <= i < |stream.chunks| :: 1 <= |stream.chunks[i]| <= 128
    ensures stream.ok ==> Concat(stream.chunks) == content
    ensures !stream.ok ==> Concat(stream.chunks) <= content && fails(|Concat(stream.chunks)|)
    ensures (forall p: nat :: p <= |content| ==> !fails(p)) ==> stream.ok
  {
    var buff := new byte[CHUNK_SIZE];
    var pos := 0;
    var chunks: seq<Text> := [];
    while true
      invariant 0 <= pos <= |content|
      invariant Concat(chunks) == content[..pos]
      invariant forall i | 0 <= i < |chunks| :: 1 <= |chunks[i]| <= CHUNK_SIZE
      decreases |content| - pos
    {
      if fails(pos) {
        return Stream(chunks, false);
      }
      if pos == |content| {
        assert content[..pos] == content;
        return Stream(chunks, true);
      }
      var n := Min(Min(CHUNK_SIZE, |content| - pos), 1 + amount(pos));
      forall i | 0 <= i < n {
        buff[i] := content[pos + i];
      }
      assert buff[..n] == content[pos..pos + n];
      OneMoreChunk(chunks, content, pos, n);
      chunks := chunks + [buff[..n]];
      pos := pos + n;
    }
  }

  lemma OneMoreChunk(chunks: seq<Text>, content: Text, pos: nat, n: nat)
    requires pos + n <= |content| && Concat(chunks) == content[..pos]
    ensures Concat(chunks + [content[pos..pos + n]]) == content[..pos + n]
  {
    var chunk := content[pos..pos + n];
    ConcatAppend(chunks, [chunk]);
    assert Concat([chunk]) == chunk + [];
  }

  /** The files' bytes, one file after the other, arrive at the reader. */
  lemma {:induction false} FilesArrive(streams: seq<Stream>, contents: seq<Text>)
    requires |streams| == |contents|
    requires forall i | 0 <= i < |streams| :: streams[i].ok && Concat(streams[i].chunks) == contents[i]
    ensures Deliverable(streams) == Concat(contents)
    decreases |streams|
  {
    if streams != [] {
      FilesArrive(streams[1..], contents[1..]);
    }
  }

  /** All of the log files is read before the end of file, and whatever was read is the beginning of them. */
  lemma LogsAreReadWhole(streams: seq<Stream>, contents: seq<Text>, sizes: seq<nat>, size: nat)
    requires |streams| == |contents| > 0
    requires forall i | 0 <= i < |streams| :: streams[i].ok && Concat(streams[i].chunks) == contents[i]
    ensures var s := ReaderState(streams, 0, []);
            && Received(s, sizes) <= Concat(contents)
            && (ReadStep(Reads(s, sizes), size).err != NoError ==>
                  ReadStep(Reads(s, sizes), size).err == EndOfFile && Received(s, sizes) == Concat(contents))
  {
    hide ReadStep, Reads, Received;
    FilesArrive(streams, contents);
    var s := ReaderState(streams, 0, []);
    assert streams[0..] == streams && [] + Deliverable(streams) == Deliverable(streams);
    ReadsConserve(s, sizes);
    if ReadStep(Reads(s, sizes), size).err != NoError {
      EndMeansEverything(s, sizes, size);
    }
  }
}
