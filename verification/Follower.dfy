/**
 pkg/tail/tail.go: the goroutine that follows a growing file in follow mode.

 Between two of its atomic actions anybody may append to the file, so each action is a step of its own:
 a value-level step function says what it does to the goroutine's state, and class `Tail` carries it out on
 its fields. `FollowerRuns` interleaves the steps with appends.
 */
module Follower {
  import opened Lines

  /** Where the goroutine is in tailFileSync. */
  datatype Pc =
    | LoopTop                // about to note the position
    | Reading                // inside ReadString
    | Sending                // handing the pieces of a line to the Lines channel
    | AtEof(half: bool)      // read end of file; `half` says a half-line came with it
    | Waiting                // in waitForChanges
    | Stopped(atEof: bool)   // returned, from waitForChanges or from the check after an iteration

  /** The tomb: alive, or dying for one of the two reasons a caller can give. */
  datatype Dying = Alive | StopNow | StopAtEof

  /**
   fpos is the offset of the open file, buf what the buffered reader has read ahead of its caller, acc the
   fragments ReadString has collected so far, offset the noted position, queue the pieces not handed over yet.
   */
  datatype TailState = TailState(
    maxLineSize: nat,
    pc: Pc,
    fpos: nat,
    buf: Text,
    acc: Text,
    offset: int,
    queue: seq<Text>)

  /** openReader: two bytes more than a line, bufio's minimum of 16, bufio's default without a limit. */
  function BufferSize(maxLineSize: nat): (n: nat)
    ensures n >= 16
    ensures maxLineSize == 0 ==> n == 4096
    ensures maxLineSize > 0 ==> n >= maxLineSize + 2 && (n == 16 || n == maxLineSize + 2)
  {
    if maxLineSize == 0 then 4096 else if maxLineSize + 2 < 16 then 16 else maxLineSize + 2
  }

  /** Tell: the file's offset less what is buffered. */
  function Position(t: TailState): int {
    t.fpos - |t.buf|
  }

  predicate CanTell(t: TailState) { t.pc == LoopTop }

  function TellStep(t: TailState): TailState {
    t.(pc := Reading, offset := Position(t), acc := [])
  }

  predicate NeedsMore(t: TailState) {
    t.pc == Reading && NewlineFree(t.buf) && |t.buf| < BufferSize(t.maxLineSize)
  }

  predicate CanFill(t: TailState, content: Text, n: nat) {
    && NeedsMore(t)
    && 1 <= n <= BufferSize(t.maxLineSize) - |t.buf|
    && t.fpos + n <= |content|
  }

  function FillStep(t: TailState, content: Text, n: nat): TailState
    requires t.fpos + n <= |content|
  {
    t.(buf := t.buf + content[t.fpos..t.fpos + n], fpos := t.fpos + n)
  }

  predicate CanSpill(t: TailState) {
    t.pc == Reading && NewlineFree(t.buf) && |t.buf| >= BufferSize(t.maxLineSize)
  }

  function SpillStep(t: TailState): TailState {
    t.(acc := t.acc + t.buf, buf := [])
  }

  predicate CanTakeLine(t: TailState) { t.pc == Reading && !NewlineFree(t.buf) }

  function TakeLineStep(t: TailState): TailState
    requires CanTakeLine(t)
  {
    var i := FirstNewline(t.buf);
    t.(pc := Sending,
       queue := PiecesOfLine(t.acc + t.buf[..i], t.maxLineSize),
       buf := t.buf[i + 1..],
       acc := [])
  }

  predicate CanHitEof(t: TailState, content: Text) { NeedsMore(t) && t.fpos >= |content| }

  function HitEofStep(t: TailState): TailState {
    t.(pc := AtEof(t.acc + t.buf != []), acc := [], buf := [])
  }

  predicate CanBackUp(t: TailState) { t.pc == AtEof(true) && t.offset >= 0 }

  function BackUpStep(t: TailState): TailState
    requires CanBackUp(t)
  {
    t.(pc := AtEof(false), fpos := t.offset, buf := [])
  }

  predicate CanBeginWait(t: TailState) { t.pc == AtEof(false) }

  function BeginWaitStep(t: TailState): TailState { t.(pc := Waiting) }

  predicate CanSendPiece(t: TailState) { t.pc == Sending && t.queue != [] }

  function SendPieceStep(t: TailState): TailState
    requires CanSendPiece(t)
  {
    t.(queue := t.queue[1..])
  }

  /** The check after an iteration: only a plain Stop ends the loop there. */
  function NextIteration(dying: Dying): Pc {
    if dying == StopNow then Stopped(false) else LoopTop
  }

  predicate CanFinishLine(t: TailState) { t.pc == Sending && t.queue == [] }

  function FinishLineStep(t: TailState, dying: Dying): TailState { t.(pc := NextIteration(dying)) }

  predicate CanWake(t: TailState) { t.pc == Waiting }

  function WakeStep(t: TailState, dying: Dying): TailState { t.(pc := NextIteration(dying)) }

  predicate CanAbandon(t: TailState, dying: Dying) { t.pc == Waiting && dying != Alive }

  function AbandonStep(t: TailState): TailState { t.(pc := Stopped(true)) }

  /** The file on disk. Writers only append; every change moves its modification time forward. */
  class LogFile {
    var content: Text
    var mtime: nat

    constructor (initial: Text)
      ensures content == initial && mtime == 0
    {
      content, mtime := initial, 0;
    }

    method Append(data: Text)
      modifies this
      ensures content == old(content) + data && mtime == old(mtime) + 1
    {
      content, mtime := content + data, mtime + 1;
    }
  }

  class Tail {
    const maxLineSize: nat
    const file: LogFile
    var pc: Pc
    var fpos: nat
    var buf: Text
    var acc: Text
    var offset: int
    var queue: seq<Text>

    ghost function State(): TailState
      reads this
    {
      TailState(maxLineSize, pc, fpos, buf, acc, offset, queue)
    }

    /** The loop is entered with the file open and sought to the requested location. */
    constructor (file: LogFile, maxLineSize: nat, location: nat)
      ensures this.file == file && this.maxLineSize == maxLineSize
      ensures State() == TailState(maxLineSize, LoopTop, location, [], [], 0, [])
    {
      this.file, this.maxLineSize := file, maxLineSize;
      pc, fpos, buf, acc, offset, queue := LoopTop, location, [], [], 0, [];
    }

    method Tell()
      requires CanTell(State())
      modifies this
      ensures State() == TellStep(old(State()))
    {
      offset := fpos;
      offset := offset - |buf|;
      acc := [];
      pc := Reading;
    }

    /** One read system call of the buffered reader, returning `n` bytes. */
    method Fill(n: nat)
      requires CanFill(State(), file.content, n)
      modifies this
      ensures State() == FillStep(old(State()), file.content, n)
    {
      var chunk := file.content[fpos..fpos + n];
      fpos := fpos + n;
      buf := buf + chunk;
    }

    /** A full buffer without a newline moves to the fragments collected by ReadString. */
    method Spill()
      requires CanSpill(State())
      modifies this
      ensures State() == SpillStep(old(State()))
    {
      acc := acc + buf;
      buf := [];
    }

    /** ReadString finds its newline; sendLine cuts the line and starts sending. */
    method TakeLine()
      requires CanTakeLine(State())
      modifies this
      ensures State() == TakeLineStep(old(State()))
    {
      var i := FirstNewline(buf);
      var line := acc + buf[..i];
      buf := buf[i + 1..];
      acc := [];
      queue := [line];
      if maxLineSize > 0 && |line| > maxLineSize {
        queue := PartitionString(line, maxLineSize);
      }
      pc := Sending;
    }

    method HitEof()
      requires CanHitEof(State(), file.content)
      modifies this
      ensures State() == HitEofStep(old(State()))
    {
      var line := acc + buf;
      acc, buf := [], [];
      pc := AtEof(line != []);
    }

    /** seekTo the noted position; the read buffer is reset. */
    method BackUp()
      requires CanBackUp(State())
      modifies this
      ensures State() == BackUpStep(old(State()))
    {
      fpos := offset;
      buf := [];
      pc := AtEof(false);
    }

    method BeginWait()
      requires CanBeginWait(State())
      modifies this
      ensures State() == BeginWaitStep(old(State()))
    {
      pc := Waiting;
    }

    /** One send on the Lines channel; the receiver gets `piece`. */
    method SendPiece() returns (piece: Text)
      requires CanSendPiece(State())
      modifies this
      ensures piece == old(queue)[0]
      ensures State() == SendPieceStep(old(State()))
    {
      piece := queue[0];
      queue := queue[1..];
    }

    method FinishLine(dying: Dying)
      requires CanFinishLine(State())
      modifies this
      ensures State() == FinishLineStep(old(State()), dying)
    {
      pc := NextIteration(dying);
    }

    method Wake(dying: Dying)
      requires CanWake(State())
      modifies this
      ensures State() == WakeStep(old(State()), dying)
    {
      pc := NextIteration(dying);
    }

    method Abandon(dying: Dying)
      requires CanAbandon(State(), dying)
      modifies this
      ensures State() == AbandonStep(old(State()))
    {
      pc := Stopped(true);
    }
  }
}
