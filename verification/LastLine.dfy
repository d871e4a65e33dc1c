/**
 What the end of a tailed stream can cost. Only the handler stops the follower, by Close, which returns once it has
 stopped; so between the locked part of a Read and its look at isClosed nothing but the line in readTail's hand can be
 written. A stream that ends lacks that line or nothing.
 */
module LastLine {
  import opened Follower
  import opened Lines
  import opened TailReader
  import opened TailStream

  predicate NotKill(a: Action) { !(a.Follow? && a.step.Kill?) }

  /** Nobody but the handler stops the follower. */
  predicate NoKills(actions: seq<Action>) {
    forall i | 0 <= i < |actions| :: NotKill(actions[i])
  }

  predicate FollowerStopped(s: State) { s.f.tail.pc.Stopped? }

  /** The follower stops in Close, and only there. */
  predicate StopInv(s: State) {
    && s.f.dying != StopNow
    && (s.f.dying == Alive ==> !FollowerStopped(s))
    && (s.f.dying != Alive ==> s.handler == Closing || FollowerStopped(s))
  }

  predicate ClosedInv(s: State) {
    && (s.reader.isClosed ==> s.reader.held.None? && FollowerStopped(s))
    && (s.handler.Ended? ==> s.reader.isClosed)
  }

  predicate IsLastSent(s: State, line: Text) { s.f.sent != [] && line == s.f.sent[|s.f.sent| - 1] }

  predicate HeldInv(s: State) { s.reader.held.Some? ==> IsLastSent(s, s.reader.held.value) }

  /** The reader's buffer holds nothing, or the last line that was sent. */
  predicate AtMostOneLeft(s: State) {
    || s.reader.buff == []
    || (s.reader.held.None? && s.f.sent != [] && s.reader.buff == s.f.sent[|s.f.sent| - 1] + [NEWLINE])
  }

  /** A Read that was short has emptied the buffer. */
  predicate ShortInv(s: State) {
    && (s.handler.Answering? && s.handler.short && FollowerStopped(s) ==> AtMostOneLeft(s))
    && (s.handler.Ended? ==> AtMostOneLeft(s))
  }

  predicate LossInv(s: State) { StopInv(s) && ClosedInv(s) && HeldInv(s) && ShortInv(s) }

  lemma FollowKeepsLoss(s: State, step: F.Action)
    requires LossInv(s) && Enabled(s, Follow(step)) && NotKill(Follow(step))
    ensures LossInv(Apply(s, Follow(step)))
  {
    hide LinesOf, Unlines, Concat, PiecesOfLine, FirstNewline;
  }

  lemma WriteKeepsLoss(s: State)
    requires LossInv(s) && Enabled(s, WriteLine)
    ensures LossInv(Apply(s, WriteLine))
  {
    assert [] + s.reader.held.value + [NEWLINE] == s.reader.held.value + [NEWLINE];
  }

  lemma HandlerKeepsLoss(s: State, a: Action)
    requires LossInv(s) && Enabled(s, a) && !a.Follow? && !a.WriteLine?
    ensures LossInv(Apply(s, a))
  {
  }

  lemma LossStep(s: State, a: Action)
    requires LossInv(s) && Enabled(s, a) && NotKill(a)
    ensures LossInv(Apply(s, a))
  {
    hide LossInv, Enabled, Apply;
    match a
    case Follow(step) => FollowKeepsLoss(s, step);
    case WriteLine => WriteKeepsLoss(s);
    case _ => HandlerKeepsLoss(s, a);
  }

  lemma {:induction false} LossRun(s: State, actions: seq<Action>)
    requires LossInv(s) && Run(s, actions) && NoKills(actions)
    ensures LossInv(After(s, actions))
    decreases |actions|
  {
    hide LossInv, Enabled, Apply, NotKill;
    if actions != [] {
      LossStep(s, actions[0]);
      LossRun(Apply(s, actions[0]), actions[1..]);
    }
  }

  lemma LossAtStart(s: State)
    requires Init(s)
    ensures LossInv(s)
  {
  }

  // What a client lacks

  lemma WithoutTheLast(received: Text, buff: Text, sent: seq<Text>)
    requires received + buff == Unlines(sent) && sent != [] && buff == sent[|sent| - 1] + [NEWLINE]
    ensures received == Unlines(sent[..|sent| - 1])
  {
    hide Unlines;
    var n := |sent| - 1;
    UnlinesAppend(sent[..n], [sent[n]]);
    assert sent == sent[..n] + [sent[n]];
    UnlinesOne(sent[n]);
    assert |received| == |Unlines(sent[..n])|;
    assert received == (received + buff)[..|received|];
  }

  lemma UnlinesOne(line: Text)
    ensures Unlines([line]) == line + [NEWLINE]
  {
    assert Unlines([line]) == line + [NEWLINE] + Unlines([line][1..]);
  }

  /** Whatever the interleaving: a client that reads to the end gets all lines that were sent, or all but the last. */
  lemma MissesAtMostTheLastLine(s: State, actions: seq<Action>)
    requires Init(s) && Run(s, actions) && NoKills(actions)
    requires After(s, actions).handler.Ended? && Drained(After(s, actions))
    ensures var t := After(s, actions);
            || t.received == Unlines(t.f.sent)
            || (t.f.sent != [] && t.received == Unlines(t.f.sent[..|t.f.sent| - 1]))
  {
    hide Init, Run, Enabled, After, NoKills, Unlines;
    EndOfFileMisses(s, actions);
    LossAtStart(s);
    LossRun(s, actions);
    var t := After(s, actions);
    if t.reader.buff != [] {
      WithoutTheLast(t.received, t.reader.buff, t.f.sent);
    }
  }

  // When a line can be lost

  /** The stream has ended, and not all lines that were sent are with the client or on their way to it. */
  predicate Incomplete(s: State) { s.handler.Ended? && Shipped(s) != Unlines(s.f.sent) }

  ghost predicate CanEndIncomplete(s: State) {
    exists actions :: Run(s, actions) && NoKills(actions) && Incomplete(After(s, actions))
  }

  /** Where the last line has to be for the end to come before it. */
  predicate AtRisk(s: State) {
    match s.handler
    case Answering(chunk, short, _) =>
      s.reader.held.Some? || (chunk == [] && short && s.reader.buff != [])
    case Ended(_) => s.reader.buff != []
    case Cancelled => false
    case _ => s.reader.held.Some?
  }

  lemma IncompleteIffLeft(s: State)
    requires Balanced(s) && s.handler.Ended?
    ensures Incomplete(s) <==> s.reader.buff != []
  {
    hide Shipped, Unlines;
    assert InFlight(s) == Shipped(s) + s.reader.buff + [];
  }

  lemma SafeStays(s: State, a: Action)
    requires LossInv(s) && FollowerStopped(s) && !AtRisk(s) && Enabled(s, a) && NotKill(a)
    ensures FollowerStopped(Apply(s, a)) && !AtRisk(Apply(s, a))
  {
    hide LinesOf, Unlines, Concat, PiecesOfLine, FirstNewline, HeldInv, ShortInv;
  }

  lemma {:induction false} SafeRun(s: State, actions: seq<Action>)
    requires LossInv(s) && FollowerStopped(s) && !AtRisk(s) && Run(s, actions) && NoKills(actions)
    ensures !AtRisk(After(s, actions))
    decreases |actions|
  {
    hide LossInv, FollowerStopped, AtRisk, Enabled, Apply, NotKill;
    if actions != [] {
      LossStep(s, actions[0]);
      SafeStays(s, actions[0]);
      SafeRun(Apply(s, actions[0]), actions[1..]);
    }
  }

  ghost predicate CanReach(s: State, t: State) {
    exists actions :: Run(s, actions) && NoKills(actions) && After(s, actions) == t
  }

  lemma Stays(s: State)
    ensures CanReach(s, s)
  {
    assert Run(s, []) && NoKills([]) && After(s, []) == s;
  }

  lemma Goes(s: State, t: State, a: Action) returns (next: State)
    requires CanReach(s, t) && Enabled(t, a) && NotKill(a)
    ensures next == Apply(t, a) && CanReach(s, next)
  {
    hide Enabled, Apply, NotKill;
    var actions :| Run(s, actions) && NoKills(actions) && After(s, actions) == t;
    RunSnoc(s, actions, a);
    assert NoKills(actions + [a]);
    next := Apply(t, a);
  }

  /** The end is near: an empty, short answer is about to be given while a line is still there. */
  predicate AboutToEnd(s: State) {
    && s.handler.Answering? && s.handler.chunk == [] && s.handler.short
    && FollowerStopped(s)
    && (s.reader.held.Some? || s.reader.buff != [])
    && (s.reader.isClosed ==> s.reader.held.None?)
  }

  lemma EndsWithoutIt(s: State, t: State) returns (end: State)
    requires CanReach(s, t) && AboutToEnd(t)
    ensures CanReach(s, end) && end.handler.Ended? && end.reader.buff != []
  {
    hide CanReach;
    end := t;
    if end.reader.held.Some? {
      end := Goes(s, end, WriteLine);
    }
    if !end.reader.isClosed {
      end := Goes(s, end, FinishReadTail);
    }
    end := Goes(s, end, ReadCheck);
  }

  /** The handler is idle, the follower has stopped, and readTail holds the last line. */
  predicate IdleWithLine(s: State) {
    s.handler == Idle && FollowerStopped(s) && s.reader.held.Some? && !s.reader.isClosed
  }

  lemma EmptyTheBuffer(s: State, t: State) returns (next: State)
    requires CanReach(s, t) && IdleWithLine(t)
    ensures CanReach(s, next) && IdleWithLine(next) && next.reader.buff == []
  {
    hide CanReach;
    next := t;
    if t.reader.buff != [] {
      var size := |t.reader.buff|;
      next := Goes(s, next, ReadLocked(size));
      assert next.handler == Answering(t.reader.buff, false, false) && next.reader.buff == [];
      next := Goes(s, next, ReadCheck);
      next := Goes(s, next, SendChunk);
    }
  }

  lemma AboutToEndFromIdle(s: State, t: State) returns (next: State)
    requires CanReach(s, t) && IdleWithLine(t)
    ensures CanReach(s, next) && AboutToEnd(next)
  {
    hide CanReach;
    next := EmptyTheBuffer(s, t);
    next := Goes(s, next, ReadLocked(1));
    assert next.handler == Answering([], true, false);
  }

  /** Back to idle with the line still in readTail's hand. */
  lemma BackToIdle(s: State) returns (t: State)
    requires LossInv(s) && FollowerStopped(s) && AtRisk(s) && !AboutToEnd(s) && !s.handler.Ended?
    ensures CanReach(s, t) && IdleWithLine(t)
  {
    hide CanReach, HeldInv, ShortInv;
    Stays(s);
    t := s;
    if t.handler == Closing {
      t := Goes(s, t, CloseReturns);
    }
    if t.handler.Answering? {
      t := Goes(s, t, ReadCheck);
    }
    if t.handler.SendingChunk? {
      t := Goes(s, t, SendChunk);
    }
  }

  lemma AtRiskEndsWithoutIt(s: State) returns (end: State)
    requires LossInv(s) && FollowerStopped(s) && AtRisk(s)
    ensures CanReach(s, end) && end.handler.Ended? && end.reader.buff != []
  {
    hide CanReach, HeldInv, ShortInv, StopInv;
    Stays(s);
    if s.handler.Ended? {
      end := s;
    } else if AboutToEnd(s) {
      end := EndsWithoutIt(s, s);
    } else {
      var t := BackToIdle(s);
      var u := AboutToEndFromIdle(s, t);
      end := EndsWithoutIt(s, u);
    }
  }

  /**
   Exactly when the end can come too early. Once the follower has stopped, the stream can still end without the last
   line if and only if readTail holds that line, or the Read that may end the stream has found nothing and the line was
   written only after it had looked.
   */
  lemma CanEndIncompleteIff(s: State, actions: seq<Action>)
    requires Init(s) && Run(s, actions) && NoKills(actions) && FollowerStopped(After(s, actions))
    ensures CanEndIncomplete(After(s, actions)) <==> AtRisk(After(s, actions))
  {
    hide Init, Run, Enabled, After, NoKills, LossInv, AtRisk;
    LossAtStart(s);
    LossRun(s, actions);
    InitInv(s);
    RunKeeps(s, actions);
    CanEndIncompleteAt(After(s, actions));
  }

  lemma CanEndIncompleteAt(s: State)
    requires Inv(s) && LossInv(s) && FollowerStopped(s)
    ensures CanEndIncomplete(s) <==> AtRisk(s)
  {
    hide Inv, LossInv, FollowerStopped, Incomplete, Run, After, NoKills, AtRisk;
    if CanEndIncomplete(s) {
      var more :| Run(s, more) && NoKills(more) && Incomplete(After(s, more));
      RunKeeps(s, more);
      EndedAtRisk(After(s, more));
      if !AtRisk(s) {
        SafeRun(s, more);
      }
    } else if AtRisk(s) {
      var end := AtRiskEndsWithoutIt(s);
      var more :| Run(s, more) && NoKills(more) && After(s, more) == end;
      RunKeeps(s, more);
      EndedAtRisk(end);
    }
  }

  lemma EndedAtRisk(s: State)
    requires Inv(s)
    ensures Incomplete(s) <==> s.handler.Ended? && s.reader.buff != []
    ensures Incomplete(s) ==> AtRisk(s)
  {
    if s.handler.Ended? {
      IncompleteIffLeft(s);
    }
  }
}
