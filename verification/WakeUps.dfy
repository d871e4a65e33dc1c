/** The following goroutine and its poller together: no append is slept through. */
module WakeUps {
  import opened Follower
  import opened Options
  import opened Polling
  import F = FollowerRuns

  datatype State = State(f: F.State, w: WatchState)

  /** A step of the follower or its file, or one of the poller's two steps. */
  datatype Action = Follow(step: F.Action) | Stat | Compare

  const NOT_WATCHING := WatchState(false, 0, None, None, false, false)

  predicate Init(s: State) { F.Init(s.f) && s.w == NOT_WATCHING }

  predicate Enabled(s: State, a: Action) {
    match a
    case Follow(step) => F.Enabled(s.f, step) && (step == F.Wake ==> CanReceive(s.w))
    case Stat => CanStat(s.w)
    case Compare => CanCompare(s.w)
  }

  /** waitForChanges subscribes with the file's offset on its first call, and returns on a Modified token. */
  function Apply(s: State, a: Action): State
    requires Enabled(s, a)
  {
    match a
    case Follow(step) =>
      var w := if step == F.BeginWait then SubscribeStep(s.w, s.f.tail.fpos)
               else if step == F.Wake then ReceiveStep(s.w)
               else s.w;
      State(F.Apply(s.f, step), w)
    case Stat => s.(w := StatStep(s.w, FileInfo(|s.f.content|, s.f.mtime)))
    case Compare => s.(w := CompareStep(s.w))
  }

  predicate Run(s: State, actions: seq<Action>)
    decreases |actions|
  {
    actions == [] || (Enabled(s, actions[0]) && Run(Apply(s, actions[0]), actions[1..]))
  }

  function After(s: State, actions: seq<Action>): State
    requires Run(s, actions)
    decreases |actions|
  {
    if actions == [] then s else After(Apply(s, actions[0]), actions[1..])
  }

  /** Everything the poller remembers or holds in its hand is a truth about the file's past. */
  predicate RemembersThePast(s: State) {
    var w, size, mtime := s.w, |s.f.content|, s.f.mtime;
    && w.prevSize <= size
    && (w.prevMtime.Some? ==> w.prevMtime.value <= mtime)
    && (w.prevMtime == Some(mtime) ==> w.prevSize == size)
    && (w.snapshot.Some? ==>
          var fi := w.snapshot.value;
          && w.prevSize <= fi.size <= size
          && fi.mtime <= mtime
          && (fi.mtime == mtime ==> fi.size == size)
          && (w.prevMtime.Some? ==> w.prevMtime.value <= fi.mtime)
          && (w.prevMtime == Some(fi.mtime) ==> w.prevSize == fi.size))
  }

  /** What the poller has already reported, the follower has seen or is still to be told. */
  predicate ReportsArrive(s: State) {
    F.RestingAtEof(s.f) && !s.w.modified ==>
      && s.w.prevSize <= s.f.eofSize
      && (s.w.prevMtime.Some? ==> s.w.prevMtime.value <= s.f.eofMtime)
  }

  /** What the poller's invariant needs to know about the follower. */
  predicate EofFacts(f: F.State) {
    && f.eofSize <= |f.content| && f.eofMtime <= f.mtime
    && (F.RestingAtEof(f) && f.eofSize < |f.content| ==> f.eofMtime < f.mtime)
    && (f.tail.pc == AtEof(false) ==> f.tail.fpos <= f.eofSize)
  }

  predicate WatchInv(s: State) {
    && (!s.w.running ==> s.w == NOT_WATCHING)
    && (s.f.tail.pc == Waiting ==> s.w.running)
    && RemembersThePast(s)
    && ReportsArrive(s)
    && !s.w.truncated
  }

  predicate Inv(s: State) {
    F.Inv(s.f) && WatchInv(s)
  }

  lemma FollowKeepsWatch(s: State, step: F.Action)
    requires EofFacts(s.f) && WatchInv(s) && Enabled(s, Follow(step))
    ensures WatchInv(Apply(s, Follow(step)))
  {
  }

  lemma CompareKeepsWatch(s: State)
    requires EofFacts(s.f) && WatchInv(s) && Enabled(s, Compare)
    ensures WatchInv(Apply(s, Compare))
  {
  }

  lemma InvGivesEofFacts(f: F.State)
    requires F.Inv(f)
    ensures EofFacts(f)
  {
  }

  lemma StepKeeps(s: State, a: Action)
    requires Inv(s) && Enabled(s, a)
    ensures Inv(Apply(s, a))
  {
    InvGivesEofFacts(s.f);
    match a
    case Follow(step) =>
      F.StepKeeps(s.f, step);
      FollowKeepsWatch(s, step);
    case Stat =>
    case Compare => CompareKeepsWatch(s);
  }

  lemma {:induction false} RunKeeps(s: State, actions: seq<Action>)
    requires Inv(s) && Run(s, actions)
    ensures Inv(After(s, actions))
    decreases |actions|
  {
    if actions != [] {
      StepKeeps(s, actions[0]);
      RunKeeps(Apply(s, actions[0]), actions[1..]);
    }
  }

  lemma InitInv(s: State)
    requires Init(s)
    ensures Inv(s)
  {
    F.InitInv(s.f);
  }

  /** The goroutine waits, no token is on its way, and the file has grown since its last end of file. */
  predicate WouldSleep(s: State) {
    s.f.tail.pc == Waiting && !s.w.modified && s.f.eofSize < |s.f.content|
  }

  /** Comparing a stat of the file as it is now would post Modified. */
  predicate PollWouldNotify(s: State) {
    var now := s.w.(snapshot := Some(FileInfo(|s.f.content|, s.f.mtime)));
    s.w.running && CompareStep(now).modified
  }

  /**
   No lost wake-up. In every reachable state of follower, writers and poller: if the goroutine waits at a file that
   has grown since it last saw its end, then a Modified token is there, or the poller's memory differs from the file
   so that its next look posts one. Truncated is never posted for a file that only grows.
   */
  lemma NoLostWakeUp(s: State, actions: seq<Action>)
    requires Init(s) && Run(s, actions)
    ensures var t := After(s, actions);
      && !t.w.truncated
      && (WouldSleep(t) ==> PollWouldNotify(t))
  {
    InitInv(s);
    RunKeeps(s, actions);
    InvGivesEofFacts(After(s, actions).f);
  }

  /** The follower stays where it waits; writers and the poller go on. */
  predicate FollowerWaits(actions: seq<Action>) {
    forall a | a in actions && a.Follow? :: a.step.Append? || a.step.Touch? || a.step.Kill?
  }

  function Comparisons(actions: seq<Action>): nat {
    if actions == [] then 0 else (if actions[0] == Compare then 1 else 0) + Comparisons(actions[1..])
  }

  /** How many comparisons the poller is away from a token. */
  function ComparisonsNeeded(w: WatchState): nat {
    if w.modified then 0 else if w.snapshot.None? || CompareStep(w).modified then 1 else 2
  }

  lemma WaitingStep(s: State, a: Action)
    requires Inv(s) && Enabled(s, a) && FollowerWaits([a])
    requires s.f.tail.pc == Waiting && s.f.eofSize < |s.f.content|
    ensures var t := Apply(s, a);
      && t.f.tail.pc == Waiting && t.f.eofSize < |t.f.content|
      && ComparisonsNeeded(t.w) <= ComparisonsNeeded(s.w)
      && (a == Compare ==> ComparisonsNeeded(s.w) == 0 || ComparisonsNeeded(t.w) < ComparisonsNeeded(s.w))
  {
    InvGivesEofFacts(s.f);
    assert a in [a];
  }

  /**
   The bound behind it: while the goroutine waits at a file that has grown, two comparisons of the poller suffice to
   put the token there, whatever is appended and whatever else happens before, between and after them.
   */
  lemma {:induction false} TwoComparisonsWakeUp(s: State, actions: seq<Action>)
    requires Inv(s) && Run(s, actions) && FollowerWaits(actions)
    requires s.f.tail.pc == Waiting && s.f.eofSize < |s.f.content|
    requires Comparisons(actions) >= ComparisonsNeeded(s.w)
    ensures ComparisonsNeeded(s.w) <= 2
    ensures CanWake(After(s, actions).f.tail) && After(s, actions).w.modified
    decreases |actions|
  {
    if actions != [] {
      assert actions[0] in actions;
      StepKeeps(s, actions[0]);
      WaitingStep(s, actions[0]);
      assert forall a | a in actions[1..] :: a in actions;
      TwoComparisonsWakeUp(Apply(s, actions[0]), actions[1..]);
    }
  }

  /** The same for every reachable state in which the goroutine would sleep. */
  lemma WokenWithinTwoComparisons(s: State, before: seq<Action>, actions: seq<Action>)
    requires Init(s) && Run(s, before) && WouldSleep(After(s, before))
    requires Run(After(s, before), actions) && FollowerWaits(actions) && Comparisons(actions) >= 2
    ensures Enabled(After(After(s, before), actions), Follow(F.Wake))
  {
    InitInv(s);
    RunKeeps(s, before);
    TwoComparisonsWakeUp(After(s, before), actions);
  }

  /** The poller remembers the file as it is. */
  predicate Remembered(s: State) {
    && s.w.running && s.w.prevSize == |s.f.content| && s.w.prevMtime == Some(s.f.mtime)
    && (s.w.snapshot.Some? ==> s.w.snapshot == Some(FileInfo(|s.f.content|, s.f.mtime)))
  }

  predicate FileRests(actions: seq<Action>) {
    forall i | 0 <= i < |actions| :: actions[i].Follow? ==> !actions[i].step.Append? && !actions[i].step.Touch?
  }

  lemma RememberedStep(s: State, a: Action)
    requires Remembered(s) && Enabled(s, a)
    requires a.Follow? ==> !a.step.Append? && !a.step.Touch?
    ensures Remembered(Apply(s, a)) && (Apply(s, a).w.modified ==> s.w.modified)
  {
  }

  /** And it is not woken for nothing: once the poller remembers the file, no token appears until the file changes. */
  lemma {:induction false} NoIdleWakeUp(s: State, actions: seq<Action>)
    requires Remembered(s) && !s.w.modified && Run(s, actions) && FileRests(actions)
    ensures !After(s, actions).w.modified
    decreases |actions|
  {
    hide Remembered, Enabled, Apply;
    if actions != [] {
      RememberedStep(s, actions[0]);
      assert forall i | 0 <= i < |actions[1..]| :: actions[1..][i] == actions[i + 1];
      NoIdleWakeUp(Apply(s, actions[0]), actions[1..]);
    }
  }

  function Wakes(actions: seq<Action>): nat {
    if actions == [] then 0 else (if actions[0] == Follow(F.Wake) then 1 else 0) + Wakes(actions[1..])
  }

  /** A token wakes once: over every run the wake-ups are no more than the poller's looks and a token from before. */
  lemma {:induction false} EveryTokenWakesOnce(s: State, actions: seq<Action>)
    requires Run(s, actions)
    ensures var t := After(s, actions);
            Wakes(actions) + (if t.w.modified then 1 else 0) <= (if s.w.modified then 1 else 0) + Comparisons(actions)
    decreases |actions|
  {
    hide CompareStep;
    if actions != [] {
      EveryTokenWakesOnce(Apply(s, actions[0]), actions[1..]);
    }
  }
}
