/** Every interleaving of the following goroutine with appends to its file, touches and stop requests. */
module FollowerRuns {
  import opened Lines
  import opened Follower

  /**
   start is where following began. sent, eofSize and eofMtime are history: what the Lines channel has carried,
   and the size and modification time of the file when the goroutine last read end of file.
   */
  datatype State = State(
    start: nat,
    content: Text,
    mtime: nat,
    dying: Dying,
    tail: TailState,
    sent: seq<Text>,
    eofSize: nat,
    eofMtime: nat)

  datatype Action =
    | Append(data: Text)
    | Touch
    | Kill(reason: Dying)
    | Tell
    | Fill(n: nat)
    | Spill
    | TakeLine
    | HitEof
    | BackUp
    | BeginWait
    | SendPiece
    | FinishLine
    | Wake
    | Abandon

  predicate Init(s: State) {
    && s.start <= |s.content|
    && s.dying == Alive
    && s.tail == TailState(s.tail.maxLineSize, LoopTop, s.start, [], [], 0, [])
    && s.sent == []
    && s.eofSize == 0 && s.eofMtime == 0
  }

  predicate Enabled(s: State, a: Action) {
    match a
    case Append(data) => data != []
    case Touch => true
    case Kill(reason) => reason != Alive
    case Tell => CanTell(s.tail)
    case Fill(n) => CanFill(s.tail, s.content, n)
    case Spill => CanSpill(s.tail)
    case TakeLine => CanTakeLine(s.tail)
    case HitEof => CanHitEof(s.tail, s.content)
    case BackUp => CanBackUp(s.tail)
    case BeginWait => CanBeginWait(s.tail)
    case SendPiece => CanSendPiece(s.tail)
    case FinishLine => CanFinishLine(s.tail)
    case Wake => CanWake(s.tail)
    case Abandon => CanAbandon(s.tail, s.dying)
  }

  function Apply(s: State, a: Action): State
    requires Enabled(s, a)
  {
    match a
    case Append(data) => s.(content := s.content + data, mtime := s.mtime + 1)
    case Touch => s.(mtime := s.mtime + 1)
    case Kill(reason) => if s.dying == StopAtEof then s else s.(dying := reason)
    case Tell => s.(tail := TellStep(s.tail))
    case Fill(n) => s.(tail := FillStep(s.tail, s.content, n))
    case Spill => s.(tail := SpillStep(s.tail))
    case TakeLine => s.(tail := TakeLineStep(s.tail))
    case HitEof => s.(tail := HitEofStep(s.tail), eofSize := |s.content|, eofMtime := s.mtime)
    case BackUp => s.(tail := BackUpStep(s.tail))
    case BeginWait => s.(tail := BeginWaitStep(s.tail))
    case SendPiece => s.(tail := SendPieceStep(s.tail), sent := s.sent + [s.tail.queue[0]])
    case FinishLine => s.(tail := FinishLineStep(s.tail, s.dying))
    case Wake => s.(tail := WakeStep(s.tail, s.dying))
    case Abandon => s.(tail := AbandonStep(s.tail))
  }

  /** The actions can be taken one after the other from `s`. */
  predicate Run(s: State, actions: seq<Action>)
    decreases |actions|
  {
    actions == [] || (Enabled(s, actions[0]) && Run(Apply(s, actions[0]), actions[1..]))
  }

  function After(s: State, actions: seq<Action>): State
    requires Run(s, actions)
    decreases |actions|
  {
    if actions == [] then s else After(Apply(s, actions[0]), actions[1..])
  }

  /** The end of the text whose lines have been taken: the noted position while a line is being read. */
  function Taken(s: State): int {
    if s.tail.pc == Reading || s.tail.pc == AtEof(true) then s.tail.offset else Position(s.tail)
  }

  predicate BufferMatches(s: State) {
    && |s.tail.buf| <= s.tail.fpos <= |s.content|
    && s.tail.buf == s.content[Position(s.tail)..s.tail.fpos]
  }

  predicate TakenAtLineStart(s: State) {
    && s.start <= Taken(s) <= |s.content|
    && Complete(s.content[s.start..Taken(s)])
  }

  predicate FragmentsMatch(s: State)
    requires BufferMatches(s)
  {
    s.tail.pc == Reading ==>
      && 0 <= s.tail.offset <= Position(s.tail)
      && s.tail.acc == s.content[s.tail.offset..Position(s.tail)]
      && NewlineFree(s.tail.acc)
  }

  predicate PiecesMatch(s: State)
    requires TakenAtLineStart(s)
  {
    && s.sent + s.tail.queue == Pieces(LinesOf(s.content[s.start..Taken(s)]), s.tail.maxLineSize)
    && (s.tail.pc != Sending ==> s.tail.queue == [])
  }

  /** Since the last end of file the goroutine has taken nothing. */
  predicate RestingAtEof(s: State) {
    s.tail.pc.AtEof? || s.tail.pc == Waiting || s.tail.pc == Stopped(true)
  }

  predicate EofMatches(s: State)
    requires TakenAtLineStart(s)
  {
    && s.eofSize <= |s.content|
    && s.eofMtime <= s.mtime
    && (s.eofSize < |s.content| && RestingAtEof(s) ==> s.eofMtime < s.mtime)
    && (RestingAtEof(s) ==> Taken(s) <= s.eofSize && NewlineFree(s.content[Taken(s)..s.eofSize]))
    && (RestingAtEof(s) && s.tail.pc != AtEof(true) ==> s.tail.buf == [])
  }

  predicate Inv(s: State) {
    && BufferMatches(s)
    && TakenAtLineStart(s)
    && FragmentsMatch(s)
    && PiecesMatch(s)
    && EofMatches(s)
  }

  lemma SplitAt(content: Text, a: nat, b: nat, c: nat)
    requires a <= b <= c <= |content|
    ensures content[a..c] == content[a..b] + content[b..c]
  {
  }

  lemma InitInv(s: State)
    requires Init(s)
    ensures Inv(s)
  {
    assert s.content[s.start..Taken(s)] == [];
  }

  lemma AppendKeeps(s: State, data: Text)
    requires Inv(s) && data != []
    ensures Inv(Apply(s, Append(data)))
  {
    hide LinesOf, Pieces, Complete, NewlineFree;
    var s' := Apply(s, Append(data));
    assert forall i, j | 0 <= i <= j <= |s.content| :: s'.content[i..j] == s.content[i..j];
  }

  lemma TellKeeps(s: State)
    requires Inv(s) && CanTell(s.tail)
    ensures Inv(Apply(s, Tell))
  {
  }

  lemma FillKeeps(s: State, n: nat)
    requires Inv(s) && CanFill(s.tail, s.content, n)
    ensures Inv(Apply(s, Fill(n)))
  {
    var s' := Apply(s, Fill(n));
    assert Taken(s') == Taken(s) && Position(s'.tail) == Position(s.tail);
    SplitAt(s.content, Position(s.tail), s.tail.fpos, s.tail.fpos + n);
  }

  lemma SpillKeeps(s: State)
    requires Inv(s) && CanSpill(s.tail)
    ensures Inv(Apply(s, Spill))
  {
    var s' := Apply(s, Spill);
    assert Taken(s') == Taken(s) && Position(s'.tail) == s.tail.fpos;
    SplitAt(s.content, s.tail.offset, Position(s.tail), s.tail.fpos);
  }

  function WithLine(s: State, line: Text, newline: nat): State
    requires newline < s.tail.fpos <= |s.content|
  {
    s.(tail := s.tail.(pc := Sending,
                       queue := PiecesOfLine(line, s.tail.maxLineSize),
                       buf := s.content[newline + 1..s.tail.fpos],
                       acc := []))
  }

  /** The line ReadString returns is the file's text from the noted position to the next newline. */
  lemma LineRead(s: State) returns (line: Text, newline: nat)
    requires BufferMatches(s) && FragmentsMatch(s) && CanTakeLine(s.tail)
    ensures s.tail.offset <= newline < s.tail.fpos
    ensures s.content[newline] == NEWLINE
    ensures line == s.content[s.tail.offset..newline] && NewlineFree(line)
    ensures Apply(s, TakeLine) == WithLine(s, line, newline)
  {
    hide PiecesOfLine, LinesOf, Complete, Partition;
    var i := FirstNewline(s.tail.buf);
    newline := Position(s.tail) + i;
    line := s.content[s.tail.offset..newline];
    assert s.tail.buf[..i] == s.content[Position(s.tail)..newline];
    assert s.tail.buf[i + 1..] == s.content[newline + 1..s.tail.fpos];
    SplitAt(s.content, s.tail.offset, Position(s.tail), newline);
    assert line == s.tail.acc + s.tail.buf[..i];
  }

  lemma ExtendByLine(content: Text, a: nat, b: nat, newline: nat)
    requires a <= b <= newline < |content| && content[newline] == NEWLINE
    ensures content[a..newline + 1] == content[a..b] + content[b..newline] + [NEWLINE]
    ensures Complete(content[a..newline + 1])
  {
  }

  /** Taking a line moves the position just past its newline. */
  lemma WithLineTaken(s: State, line: Text, newline: nat)
    requires BufferMatches(s) && TakenAtLineStart(s) && s.tail.pc == Reading
    requires s.tail.offset <= newline < s.tail.fpos && s.content[newline] == NEWLINE
    requires line == s.content[s.tail.offset..newline]
    ensures BufferMatches(WithLine(s, line, newline)) && TakenAtLineStart(WithLine(s, line, newline))
    ensures s.start <= s.tail.offset && Complete(s.content[s.start..s.tail.offset])
    ensures s.content[s.start..Taken(WithLine(s, line, newline))]
         == s.content[s.start..s.tail.offset] + line + [NEWLINE]
  {
    ExtendByLine(s.content, s.start, s.tail.offset, newline);
    assert Taken(WithLine(s, line, newline)) == newline + 1;
  }

  lemma WithLineKeeps(s: State, line: Text, newline: nat)
    requires Inv(s) && s.tail.pc == Reading
    requires s.tail.offset <= newline < s.tail.fpos && s.content[newline] == NEWLINE
    requires line == s.content[s.tail.offset..newline] && NewlineFree(line)
    ensures Inv(WithLine(s, line, newline))
  {
    WithLineTaken(s, line, newline);
    PiecesOfOneMoreLine(s.content[s.start..s.tail.offset], line, s.tail.maxLineSize);
    assert s.sent + s.tail.queue == s.sent;
  }

  lemma HitEofKeeps(s: State)
    requires Inv(s) && CanHitEof(s.tail, s.content)
    ensures Inv(Apply(s, HitEof))
  {
    var s' := Apply(s, HitEof);
    var half := s.tail.acc + s.tail.buf;
    assert half == s.content[s.tail.offset..|s.content|];
    assert NewlineFree(half);
    if half == [] {
      assert Taken(s') == s.tail.offset;
    }
  }

  lemma SendPieceKeeps(s: State)
    requires Inv(s) && CanSendPiece(s.tail)
    ensures Inv(Apply(s, SendPiece))
  {
    hide LinesOf, Pieces, Complete, NewlineFree;
    SendFirst(s.sent, s.tail.queue);
  }

  lemma BackUpKeeps(s: State)
    requires Inv(s) && CanBackUp(s.tail)
    ensures Inv(Apply(s, BackUp))
  {
  }

  predicate OnlyMovesOn(t: TailState, pc: Pc) {
    || (CanBeginWait(t) && pc == Waiting)
    || (CanFinishLine(t) && (pc == LoopTop || pc == Stopped(false)))
    || (CanWake(t) && (pc == LoopTop || pc.Stopped?))
  }

  lemma MovingOnKeeps(s: State, pc: Pc)
    requires Inv(s) && OnlyMovesOn(s.tail, pc)
    ensures Inv(s.(tail := s.tail.(pc := pc)))
  {
    var s' := s.(tail := s.tail.(pc := pc));
    assert Taken(s') == Taken(s);
  }

  lemma EnvironmentKeeps(s: State, mtime: nat, dying: Dying)
    requires Inv(s) && mtime >= s.mtime
    ensures Inv(s.(mtime := mtime, dying := dying))
  {
    assert Taken(s.(mtime := mtime, dying := dying)) == Taken(s);
  }

  /** No interleaving leaves the invariant. */
  lemma StepKeeps(s: State, a: Action)
    requires Inv(s) && Enabled(s, a)
    ensures Inv(Apply(s, a))
  {
    match a
    case Append(data) => AppendKeeps(s, data);
    case Touch => EnvironmentKeeps(s, s.mtime + 1, s.dying);
    case Kill(reason) => EnvironmentKeeps(s, s.mtime, Apply(s, a).dying);
    case Tell => TellKeeps(s);
    case Fill(n) => FillKeeps(s, n);
    case Spill => SpillKeeps(s);
    case TakeLine =>
      var line, newline := LineRead(s);
      WithLineKeeps(s, line, newline);
    case HitEof => HitEofKeeps(s);
    case BackUp => BackUpKeeps(s);
    case SendPiece => SendPieceKeeps(s);
    case BeginWait => MovingOnKeeps(s, Waiting);
    case FinishLine => MovingOnKeeps(s, NextIteration(s.dying));
    case Wake => MovingOnKeeps(s, NextIteration(s.dying));
    case Abandon => MovingOnKeeps(s, Stopped(true));
  }

  lemma {:induction false} RunKeeps(s: State, actions: seq<Action>)
    requires Inv(s) && Run(s, actions)
    ensures Inv(After(s, actions))
    decreases |actions|
  {
    if actions != [] {
      StepKeeps(s, actions[0]);
      RunKeeps(Apply(s, actions[0]), actions[1..]);
    }
  }

  predicate Grown(s: State, t: State) {
    && t.start == s.start && t.tail.maxLineSize == s.tail.maxLineSize
    && s.content <= t.content
  }

  lemma {:induction false} RunGrows(s: State, actions: seq<Action>)
    requires Run(s, actions)
    ensures Grown(s, After(s, actions))
    decreases |actions|
  {
    if actions != [] {
      RunGrows(Apply(s, actions[0]), actions[1..]);
    }
  }

  predicate ExactlySent(t: State, p: int) {
    && t.start <= p <= |t.content|
    && (p == t.start || t.content[p - 1] == 10)
    && t.sent == Pieces(LinesOf(t.content[t.start..p]), t.tail.maxLineSize)
    && (t.tail.maxLineSize == 0 ==> Unlines(t.sent) == t.content[t.start..p])
  }

  lemma EndsWhereALineEnds(content: Text, a: nat, p: nat)
    requires a <= p <= |content| && Complete(content[a..p])
    ensures p == a || content[p - 1] == NEWLINE
  {
  }

  lemma ExactAtLoopTop(t: State)
    requires TakenAtLineStart(t) && PiecesMatch(t) && t.tail.pc == LoopTop
    ensures ExactlySent(t, Position(t.tail))
  {
    hide LinesOf, Pieces, Unlines, NewlineFree;
    var p := Position(t.tail);
    EndsWhereALineEnds(t.content, t.start, p);
    assert t.sent + [] == t.sent;
    if t.tail.maxLineSize == 0 {
      UnlinesOfPieces(t.content[t.start..p]);
    }
  }

  /**
   Exact output. Whatever the interleaving: at the top of the loop Tell answers the place where following began or
   the place just after a newline, and what the Lines channel has carried is exactly the newline-terminated lines
   between the two, each cut into pieces; no half-line, none lost, none twice. Without a limit the lines and their
   newlines are the file's text.
   */
  lemma ExactOutput(s: State, actions: seq<Action>)
    requires Init(s) && Run(s, actions)
    ensures var t := After(s, actions);
      && Grown(s, t)
      && (t.tail.pc == LoopTop ==> ExactlySent(t, Position(t.tail)))
  {
    InitInv(s);
    RunKeeps(s, actions);
    RunGrows(s, actions);
    if After(s, actions).tail.pc == LoopTop {
      ExactAtLoopTop(After(s, actions));
    }
  }

  /** At every moment, also between the pieces of one line, what was sent is a prefix of what is to be sent. */
  lemma NeverAhead(s: State, actions: seq<Action>)
    requires Init(s) && Run(s, actions)
    ensures var t := After(s, actions);
      && s.start <= Taken(t) <= |t.content|
      && Complete(t.content[s.start..Taken(t)])
      && t.sent <= Pieces(LinesOf(t.content[s.start..Taken(t)]), s.tail.maxLineSize)
  {
    InitInv(s);
    RunKeeps(s, actions);
    RunGrows(s, actions);
  }

  /** With a limit nothing longer than it is ever sent. */
  lemma NothingTooLong(s: State, actions: seq<Action>)
    requires Init(s) && Run(s, actions) && s.tail.maxLineSize > 0
    ensures AllFit(After(s, actions).sent, s.tail.maxLineSize)
  {
    hide Init, Run, After, LinesOf, Pieces;
    NeverAhead(s, actions);
    var t := After(s, actions);
    PiecesFit(LinesOf(t.content[s.start..Taken(t)]), s.tail.maxLineSize);
  }

  lemma CaughtUp(t: State)
    requires Inv(t) && RestingAtEof(t)
    ensures t.start <= t.eofSize <= |t.content|
    ensures t.sent == Pieces(LinesOf(t.content[t.start..t.eofSize]), t.tail.maxLineSize)
  {
    var text, half := t.content[t.start..Taken(t)], t.content[Taken(t)..t.eofSize];
    SplitAt(t.content, t.start, Taken(t), t.eofSize);
    LinesOfHalfLine(text, half);
    assert t.sent + [] == t.sent;
  }

  /** Nothing is held back: at end of file every line complete by then has been sent, only a half-line has not. */
  lemma CaughtUpAtEof(s: State, actions: seq<Action>)
    requires Init(s) && Run(s, actions)
    requires RestingAtEof(After(s, actions))
    ensures var t := After(s, actions);
      && s.start <= t.eofSize <= |t.content|
      && t.sent == Pieces(LinesOf(t.content[s.start..t.eofSize]), s.tail.maxLineSize)
  {
    InitInv(s);
    RunKeeps(s, actions);
    RunGrows(s, actions);
    CaughtUp(After(s, actions));
  }

  predicate NoHardStop(actions: seq<Action>) {
    Kill(StopNow) !in actions
  }

  lemma {:induction false} SoftRunKeeps(s: State, actions: seq<Action>)
    requires Run(s, actions) && NoHardStop(actions)
    requires s.dying != StopNow && s.tail.pc != Stopped(false)
    ensures After(s, actions).dying != StopNow && After(s, actions).tail.pc != Stopped(false)
    decreases |actions|
  {
    if actions != [] {
      assert actions[0] in actions;
      SoftRunKeeps(Apply(s, actions[0]), actions[1..]);
    }
  }

  /** StopAtEOF keeps its promise: a goroutine that was never told to stop at once returns only when caught up. */
  lemma StopAtEofLosesNothing(s: State, actions: seq<Action>)
    requires Init(s) && Run(s, actions) && NoHardStop(actions)
    requires After(s, actions).tail.pc.Stopped?
    ensures var t := After(s, actions);
      && s.start <= t.eofSize <= |t.content|
      && t.sent == Pieces(LinesOf(t.content[s.start..t.eofSize]), s.tail.maxLineSize)
  {
    SoftRunKeeps(s, actions);
    CaughtUpAtEof(s, actions);
  }
}
