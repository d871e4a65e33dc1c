/**
 The way of the tailed bytes to a client: pkg/common/tail/reader.go (readTail fills a buffer that Read drains),
 the agent's TailFile handler, which sends what it reads as chunks, and the kubelet's TailFileReader.
 */
module TailReader {
  import opened Lines
  import opened Options
  import opened Seqs

  /** held: the line readTail has received and not written yet; isClosed: readTail has returned. */
  datatype ReaderState = ReaderState(buff: Text, held: Option<Text>, isClosed: bool)

  predicate CanReceiveLine(r: ReaderState) { r.held.None? && !r.isClosed }

  function ReceiveLineStep(r: ReaderState, line: Text): ReaderState { r.(held := Some(line)) }

  predicate CanWriteLine(r: ReaderState) { r.held.Some? }

  function WriteLineStep(r: ReaderState): ReaderState
    requires CanWriteLine(r)
  {
    r.(buff := r.buff + r.held.value + [NEWLINE], held := None)
  }

  function CloseStep(r: ReaderState): ReaderState { r.(isClosed := true) }

  /** io.ReadFull on the buffer, under the lock: what is there, up to `want` bytes. */
  function Taken(r: ReaderState, want: nat): Text { r.buff[..Min(want, |r.buff|)] }

  function ReadLockedStep(r: ReaderState, want: nat): ReaderState { r.(buff := r.buff[Min(want, |r.buff|)..]) }

  class Reader {
    var buff: Text
    var held: Option<Text>
    var isClosed: bool

    ghost function State(): ReaderState
      reads this
    {
      ReaderState(buff, held, isClosed)
    }

    constructor ()
      ensures State() == ReaderState([], None, false)
    {
      buff, held, isClosed := [], None, false;
    }

    method ReceiveLine(line: Text)
      requires CanReceiveLine(State())
      modifies this
      ensures State() == ReceiveLineStep(old(State()), line)
    {
      held := Some(line);
    }

    method WriteLine()
      requires CanWriteLine(State())
      modifies this
      ensures State() == WriteLineStep(old(State()))
    {
      buff := buff + held.value + [NEWLINE];
      held := None;
    }

    /** readTail returns: the Lines channel is closed. */
    method FinishReadTail()
      requires CanReceiveLine(State())
      modifies this
      ensures State() == CloseStep(old(State()))
    {
      isClosed := true;
    }

    /** The locked part of Read into a buffer `p`; `short` says ReadFull answered EOF or ErrUnexpectedEOF. */
    method ReadLocked(p: array<byte>) returns (n: nat, short: bool)
      modifies this, p
      ensures n == Min(p.Length, |old(buff)|) && p[..n] == Taken(old(State()), p.Length)
      ensures p[n..] == old(p[n..])
      ensures short <==> n < p.Length
      ensures State() == ReadLockedStep(old(State()), p.Length)
    {
      n := 0;
      while n < p.Length && n < |buff|
        invariant n <= p.Length && n <= |buff|
        invariant p[..n] == buff[..n]
        invariant p[n..] == old(p[..])[n..]
        invariant unchanged(this)
      {
        p[n] := buff[n];
        n := n + 1;
      }
      buff := buff[n..];
      short := n < p.Length;
    }

    /** The rest of Read, after the lock is released: end of file is reported only once closed. */
    method ReadCheck(short: bool) returns (eof: bool)
      ensures eof <==> short && isClosed
    {
      eof := short && isClosed;
    }
  }

  /** The agent's handler. The end of its loop is a cancelled context or a Read that answers end of file. */
  datatype HandlerPc =
    | Idle
    | Closing                                                // in Close, until the follower has stopped
    | Answering(chunk: Text, short: bool, closedThen: bool)    // between the two parts of Read
    | SendingChunk(chunk: Text)
    | Cancelled
    | Ended(closedThen: bool)

  /** What TailFile does with the answer of Read. closedThen is history: was the reader closed when it was locked? */
  function AnswerStep(pc: HandlerPc, isClosed: bool): HandlerPc
    requires pc.Answering?
  {
    if pc.short && isClosed && pc.chunk == [] then Ended(pc.closedThen)
    else if pc.chunk == [] then Idle
    else SendingChunk(pc.chunk)
  }

  class TailFileHandler {
    var pc: HandlerPc
    var network: seq<Text>

    constructor ()
      ensures pc == Idle && network == []
    {
      pc, network := Idle, [];
    }

    /** A tick: the locked part of Read into the handler's buffer. */
    method Read(reader: Reader, p: array<byte>)
      requires pc == Idle
      modifies this, reader, p
      ensures pc == Answering(Taken(old(reader.State()), p.Length), |old(reader.buff)| < p.Length, old(reader.isClosed))
      ensures reader.State() == ReadLockedStep(old(reader.State()), p.Length) && network == old(network)
    {
      hide Taken, ReadLockedStep;
      var closedThen := reader.isClosed;
      var n, short := reader.ReadLocked(p);
      pc := Answering(p[..n], short, closedThen);
    }

    /** Read answers, and the loop ends, goes on, or has a chunk to send. */
    method Answer(reader: Reader)
      requires pc.Answering?
      modifies this
      ensures pc == AnswerStep(old(pc), reader.isClosed) && network == old(network)
    {
      var chunk, closedThen := pc.chunk, pc.closedThen;
      var eof := reader.ReadCheck(pc.short);
      if eof && |chunk| == 0 {
        pc := Ended(closedThen);
        return;
      }
      if |chunk| == 0 {
        pc := Idle;
        return;
      }
      pc := SendingChunk(chunk);
    }

    method Send()
      requires pc.SendingChunk?
      modifies this
      ensures network == old(network) + [old(pc).chunk] && pc == Idle
    {
      network := network + [pc.chunk];
      pc := Idle;
    }
  }

  /** The kubelet's side of the stream: the unread rest of the last chunk. */
  datatype ClientState = ClientState(buff: Text)

  predicate CanClientRead(c: ClientState, network: seq<Text>) { c.buff != [] || network != [] }

  /** The bytes in reach of one Read: the rest of the last chunk, or the next one. */
  function InReach(c: ClientState, network: seq<Text>): Text
    requires CanClientRead(c, network)
  {
    if c.buff == [] then network[0] else c.buff
  }

  function Unreceived(c: ClientState, network: seq<Text>): seq<Text>
    requires CanClientRead(c, network)
  {
    if c.buff == [] then network[1..] else network
  }

  class TailFileReader {
    var buff: Text
    var network: seq<Text>

    ghost function State(): ClientState
      reads this
    {
      ClientState(buff)
    }

    method Read(p: array<byte>) returns (n: nat)
      requires CanClientRead(State(), network)
      modifies this, p
      ensures n == Min(p.Length, |InReach(old(State()), old(network))|)
      ensures p[..n] == InReach(old(State()), old(network))[..n] && p[n..] == old(p[n..])
      ensures buff == InReach(old(State()), old(network))[n..]
      ensures network == Unreceived(old(State()), old(network))
    {
      if |buff| == 0 {
        buff := network[0];
        network := network[1..];
      }
      var readLen := p.Length;
      if readLen > |buff| {
        readLen := |buff|;
      }
      forall i | 0 <= i < readLen {
        p[i] := buff[i];
      }
      assert p[..readLen] == buff[..readLen];
      buff := buff[readLen..];
      n := readLen;
    }
  }
}
