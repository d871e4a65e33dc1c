/** The way from the Lines channel to the client is never blocked: every line sent can arrive. */
module StreamProgress {
  import opened Lines
  import opened TailReader
  import opened TailStream

  /** The handler is in its loop, and not about to end it. */
  predicate InLoop(s: State) {
    && (s.handler == Idle || s.handler.Answering? || s.handler.SendingChunk?)
    && !(s.handler.Answering? && s.handler.short && s.handler.chunk == [] && s.reader.isClosed)
  }

  predicate AllReceived(s: State) {
    && s.reader.held.None? && s.reader.buff == [] && s.handler == Idle
    && s.network == [] && s.client.buff == []
  }

  /** How many steps at most are left. */
  function Rank(s: State): nat {
    (if s.reader.held.Some? then 5 else 0) + (if s.reader.buff != [] then 4 else 0)
    + (if s.handler.Answering? then 3 else if s.handler.SendingChunk? then 2 else 0)
    + |s.network| + (if s.client.buff != [] then 1 else 0)
  }

  /** The next step on the way: of the handler, of readTail, of the handler again, and of the client. */
  function NextOnTheWay(s: State): Action {
    if s.handler.Answering? then ReadCheck
    else if s.handler.SendingChunk? then SendChunk
    else if s.reader.held.Some? then WriteLine
    else if s.reader.buff != [] then ReadLocked(|s.reader.buff|)
    else ClientRead(if s.client.buff != [] then |s.client.buff| else if s.network != [] then |s.network[0]| else 0)
  }

  lemma OnTheWay(s: State)
    requires Balanced(s) && InLoop(s) && !AllReceived(s)
    ensures Enabled(s, NextOnTheWay(s))
    ensures var t := Apply(s, NextOnTheWay(s)); InLoop(t) && t.f == s.f && Rank(t) < Rank(s)
  {
    hide InFlight, Unlines;
  }

  lemma {:induction false} Flush(s: State) returns (run: seq<Action>)
    requires Inv(s) && InLoop(s)
    ensures Run(s, run)
    ensures var t := After(s, run); Inv(t) && AllReceived(t) && t.f == s.f
    ensures |run| <= Rank(s)
    decreases Rank(s)
  {
    run := [];
    if !AllReceived(s) {
      var a := NextOnTheWay(s);
      OnTheWay(s);
      StepKeeps(s, a);
      hide Inv, InLoop, AllReceived, Rank, Enabled, Apply, NextOnTheWay;
      var more := Flush(Apply(s, a));
      run := [a] + more;
      assert run[1..] == more;
    }
  }

  lemma NothingLeft(s: State)
    requires Inv(s) && AllReceived(s)
    ensures s.received == Unlines(s.f.sent)
  {
  }

  /**
   From every reachable state in which the handler is in its loop, readTail, the handler and the client can bring every
   line that was sent to the client, without another step of the follower.
   */
  lemma EverythingCanArrive(s: State, before: seq<Action>) returns (more: seq<Action>)
    requires Init(s) && Run(s, before) && InLoop(After(s, before))
    ensures var t := After(s, before);
            && Run(t, more)
            && After(t, more).f == t.f && After(t, more).received == Unlines(t.f.sent)
  {
    InitInv(s);
    RunKeeps(s, before);
    more := Flush(After(s, before));
    NothingLeft(After(After(s, before), more));
  }
}
