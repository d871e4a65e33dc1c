/** The following goroutine left alone: it always goes on, comes to rest, and has then sent everything. */
module FollowerProgress {
  import opened Lines
  import opened Follower
  import opened FollowerRuns

  /** A step the goroutine takes by itself: not the file's, not a caller's, and none that ends its sleep. */
  predicate Own(a: Action) { !(a.Append? || a.Touch? || a.Kill? || a.Wake? || a.Abandon?) }

  predicate OwnSteps(actions: seq<Action>) {
    forall i | 0 <= i < |actions| :: Own(actions[i])
  }

  predicate AtRest(s: State) { s.tail.pc == Waiting || s.tail.pc.Stopped? }

  /** Inside ReadString exactly one of three things is the case. */
  lemma ReadingIsSettled(t: TailState)
    requires t.pc == Reading
    ensures NeedsMore(t) || CanSpill(t) || CanTakeLine(t)
    ensures !(NeedsMore(t) && CanSpill(t)) && !(NeedsMore(t) && CanTakeLine(t)) && !(CanSpill(t) && CanTakeLine(t))
  {
  }

  lemma NextStep(t: State) returns (a: Action)
    requires Inv(t) && !AtRest(t)
    ensures Own(a) && Enabled(t, a)
  {
    hide LinesOf, Pieces, Complete;
    match t.tail.pc
    case LoopTop => a := Tell;
    case Reading =>
      ReadingIsSettled(t.tail);
      a := if CanTakeLine(t.tail) then TakeLine
           else if CanSpill(t.tail) then Spill
           else if CanHitEof(t.tail, t.content) then HitEof
           else Fill(1);
    case Sending => a := if t.tail.queue == [] then FinishLine else SendPiece;
    case AtEof(half) => a := if half then BackUp else BeginWait;
  }

  /** Whatever the file and its buffers, some step of the goroutine is possible unless it waits or has stopped. */
  lemma NeverBlocked(s: State, actions: seq<Action>) returns (a: Action)
    requires Init(s) && Run(s, actions) && !AtRest(After(s, actions))
    ensures Own(a) && Enabled(After(s, actions), a)
  {
    InitInv(s);
    RunKeeps(s, actions);
    a := NextStep(After(s, actions));
  }

  // Left alone, it comes to rest

  /** A byte still to be read is worth more than one in the buffer, and that more than one taken or a piece to send. */
  function Rank(s: State): nat
    requires s.tail.fpos <= |s.content|
  {
    var work := 5 * (|s.content| - s.tail.fpos) + 4 * |s.tail.buf| + |s.tail.acc| + |s.tail.queue|;
    match s.tail.pc
    case LoopTop => work + 4
    case Reading => work + 3
    case Sending => work + 5
    case AtEof(half) => if half then 2 else 1
    case _ => 0
  }

  lemma {:induction false} PartitionIsShort(s: Text, size: nat)
    requires size > 0
    ensures |Partition(s, size)| <= |s| + 1
    decreases |s|
  {
    if |s| > size {
      PartitionIsShort(s[size..], size);
    }
  }

  lemma OwnStepRanks(s: State, a: Action)
    requires BufferMatches(s) && TakenAtLineStart(s) && Own(a) && Enabled(s, a)
    ensures var t := Apply(s, a);
            && t.content == s.content && t.dying == s.dying && t.tail.fpos <= |t.content|
            && Rank(t) < Rank(s)
  {
    hide NewlineFree, Complete;
    if a == TakeLine && s.tail.maxLineSize > 0 {
      PartitionIsShort(s.tail.acc + s.tail.buf[..FirstNewline(s.tail.buf)], s.tail.maxLineSize);
    }
  }

  lemma InvGivesBuffer(s: State)
    requires Inv(s)
    ensures BufferMatches(s) && TakenAtLineStart(s)
  {
  }

  /** No file, buffer or line keeps the goroutine busy for ever: from any moment on its own steps are limited. */
  lemma {:induction false} OwnStepsEnd(s: State, actions: seq<Action>)
    requires Inv(s) && Run(s, actions) && OwnSteps(actions)
    ensures |actions| <= Rank(s)
    decreases |actions|
  {
    InvGivesBuffer(s);
    hide Inv, Enabled, Apply, Rank, Own;
    if actions != [] {
      OwnStepRanks(s, actions[0]);
      StepKeeps(s, actions[0]);
      assert forall i | 0 <= i < |actions[1..]| :: actions[1..][i] == actions[i + 1];
      OwnStepsEnd(Apply(s, actions[0]), actions[1..]);
    }
  }

  lemma {:induction false} CatchUp(s: State) returns (own: seq<Action>)
    requires Inv(s) && s.dying != StopNow && !s.tail.pc.Stopped?
    ensures OwnSteps(own) && Run(s, own)
    ensures var t := After(s, own);
            && Inv(t) && t.tail.pc == Waiting && t.content == s.content && t.start == s.start
            && t.eofSize == if RestingAtEof(s) then s.eofSize else |s.content|
    decreases Rank(s)
  {
    own := [];
    if s.tail.pc != Waiting {
      var a := NextStep(s);
      InvGivesBuffer(s);
      OwnStepRanks(s, a);
      StepKeeps(s, a);
      OwnStepRests(s, a);
      hide Inv, Enabled, Apply, Rank, Own, RestingAtEof;
      var more := CatchUp(Apply(s, a));
      own := [a] + more;
      assert own[1..] == more;
    }
  }

  lemma OwnStepRests(s: State, a: Action)
    requires Own(a) && Enabled(s, a) && s.dying != StopNow && !s.tail.pc.Stopped?
    ensures var t := Apply(s, a);
            && !t.tail.pc.Stopped? && t.start == s.start
            && (RestingAtEof(s) ==> RestingAtEof(t) && t.eofSize == s.eofSize)
            && (RestingAtEof(t) && !RestingAtEof(s) ==> t.eofSize == |s.content|)
  {
  }

  /**
   Progress. From every reachable state, unless it was told to stop at once or has returned, the goroutine falls
   asleep after steps of its own alone, and has then sent every complete line of the file; if it had read end of file
   before, every line complete then. OwnStepsEnd says that it cannot go on without falling asleep.
   */
  lemma CatchesUp(s: State, before: seq<Action>) returns (own: seq<Action>)
    requires Init(s) && Run(s, before)
    requires var t := After(s, before); t.dying != StopNow && !t.tail.pc.Stopped?
    ensures var t := After(s, before);
            && OwnSteps(own) && Run(t, own)
            && var u := After(t, own);
            && u.tail.pc == Waiting && u.content == t.content
            && var seen := if RestingAtEof(t) then t.eofSize else |t.content|;
            && s.start <= seen <= |t.content|
            && u.sent == Pieces(LinesOf(t.content[s.start..seen]), u.tail.maxLineSize)
  {
    InitInv(s);
    RunKeeps(s, before);
    RunGrows(s, before);
    var t := After(s, before);
    own := CatchUp(t);
    CaughtUp(After(t, own));
  }

  // Positions and the buffer

  /** At end of file everything that was read is accounted for, and what is put back is read again from its start. */
  lemma EofAndBack(t: TailState, content: Text)
    requires CanHitEof(t, content)
    ensures var u := HitEofStep(t);
            && Position(u) == u.fpos == t.fpos && u.acc == []
            && (u.pc == AtEof(true) <==> |t.acc| + |t.buf| > 0)
            && (CanBackUp(u) ==>
                  var v := BackUpStep(u); Position(v) == v.fpos == t.offset && CanBeginWait(v) && !CanBackUp(v))
  {
  }

  lemma BufferFitsStep(s: State, a: Action)
    requires |s.tail.buf| <= BufferSize(s.tail.maxLineSize) && Enabled(s, a)
    ensures var t := Apply(s, a); |t.tail.buf| <= BufferSize(t.tail.maxLineSize)
  {
    hide NewlineFree, BufferSize, PiecesOfLine;
  }

  /** The buffer never holds more than its size. */
  lemma {:induction false} BufferFits(s: State, actions: seq<Action>)
    requires |s.tail.buf| <= BufferSize(s.tail.maxLineSize) && Run(s, actions)
    ensures var t := After(s, actions); |t.tail.buf| <= BufferSize(t.tail.maxLineSize)
    decreases |actions|
  {
    if actions != [] {
      BufferFitsStep(s, actions[0]);
      BufferFits(Apply(s, actions[0]), actions[1..]);
    }
  }

  // Told to stop at once, it does

  function Tells(actions: seq<Action>): nat {
    if actions == [] then 0 else (if actions[0] == Tell then 1 else 0) + Tells(actions[1..])
  }

  predicate NoLaterReason(actions: seq<Action>) {
    forall i | 0 <= i < |actions| :: actions[i] != Kill(StopAtEof)
  }

  /** Told to stop at once, the goroutine looks for a line once more at most. */
  lemma {:induction false} StopIsObeyed(s: State, actions: seq<Action>)
    requires Run(s, actions) && s.dying == StopNow && NoLaterReason(actions)
    ensures Tells(actions) <= if s.tail.pc == LoopTop then 1 else 0
    decreases |actions|
  {
    if actions != [] {
      var t := Apply(s, actions[0]);
      assert actions[0] != Kill(StopAtEof);
      assert forall i | 0 <= i < |actions[1..]| :: actions[1..][i] == actions[i + 1];
      StopStays(s, actions[0]);
      StopIsObeyed(t, actions[1..]);
    }
  }

  lemma StopStays(s: State, a: Action)
    requires Enabled(s, a) && s.dying == StopNow && a != Kill(StopAtEof)
    ensures var t := Apply(s, a);
            t.dying == StopNow && (t.tail.pc == LoopTop ==> s.tail.pc == LoopTop && a != Tell)
  {
  }
}
