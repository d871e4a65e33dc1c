/** Writers, poller and follower together: whatever has happened, poller and follower alone can deliver all there is. */
module Delivery {
  import opened Lines
  import opened Follower
  import opened WakeUps
  import F = FollowerRuns
  import P = FollowerProgress

  /** A step of the follower or the poller; writers and callers stand still. */
  predicate Inner(a: Action) { a.Follow? ==> P.Own(a.step) || a.step == F.Wake }

  predicate InnerSteps(actions: seq<Action>) {
    forall i | 0 <= i < |actions| :: Inner(actions[i])
  }

  ghost predicate Leads(s: State, t: State) {
    exists actions :: InnerSteps(actions) && Run(s, actions) && After(s, actions) == t
  }

  lemma Stay(s: State)
    ensures Leads(s, s)
  {
    assert InnerSteps([]) && Run(s, []) && After(s, []) == s;
  }

  lemma {:induction false} RunSnoc(s: State, actions: seq<Action>, a: Action)
    requires Run(s, actions) && Enabled(After(s, actions), a)
    ensures Run(s, actions + [a]) && After(s, actions + [a]) == Apply(After(s, actions), a)
    decreases |actions|
  {
    if actions == [] {
      assert actions + [a] == [a] && [a][1..] == [];
      assert Run(Apply(s, a), [a][1..]);
    } else {
      RunSnoc(Apply(s, actions[0]), actions[1..], a);
      assert (actions + [a])[1..] == actions[1..] + [a];
    }
  }

  lemma Step(s: State, t: State, a: Action) returns (next: State)
    requires Leads(s, t) && Inv(t) && Enabled(t, a) && Inner(a)
    ensures next == Apply(t, a) && Leads(s, next) && Inv(next)
  {
    hide Inv, Enabled, Apply, Run, After, Inner;
    var actions :| InnerSteps(actions) && Run(s, actions) && After(s, actions) == t;
    RunSnoc(s, actions, a);
    StepKeeps(t, a);
    next := Apply(t, a);
    assert InnerSteps(actions + [a]);
  }

  predicate Going(f: F.State) { f.dying != StopNow && !f.tail.pc.Stopped? }

  /** The follower's own steps bring it to rest. */
  lemma {:induction false} FollowerRests(s: State, t: State) returns (u: State)
    requires Leads(s, t) && Inv(t) && Going(t.f)
    ensures Leads(s, u) && Inv(u) && Going(u.f)
    ensures u.f.tail.pc == Waiting && u.f.content == t.f.content && u.f.start == t.f.start
    ensures u.f.eofSize == if F.RestingAtEof(t.f) then t.f.eofSize else |t.f.content|
    decreases P.Rank(t.f)
  {
    u := t;
    if t.f.tail.pc != Waiting {
      var a := P.NextStep(t.f);
      P.OwnStepRanks(t.f, a);
      P.OwnStepRests(t.f, a);
      u := Step(s, t, Follow(a));
      hide Inv, Leads, F.RestingAtEof, P.Rank;
      u := FollowerRests(s, u);
    }
  }

  /** Of a sleeping follower at a file that has grown: two looks of the poller at most put the token there. */
  lemma PollerPosts(s: State, t: State) returns (u: State)
    requires Leads(s, t) && Inv(t) && t.f.tail.pc == Waiting && t.f.eofSize < |t.f.content|
    ensures Leads(s, u) && Inv(u) && u.f == t.f && u.w.modified
  {
    u := t;
    InvGivesEofFacts(t.f);
    if !u.w.modified && u.w.snapshot.Some? {
      u := Step(s, u, Compare);
    }
    if !u.w.modified {
      u := Step(s, u, Stat);
      u := Step(s, u, Compare);
    }
  }

  lemma AllThereIs(s: State, t: State) returns (u: State)
    requires Leads(s, t) && Inv(t) && Going(t.f)
    ensures Leads(s, u) && Inv(u) && u.f.content == t.f.content && u.f.start == t.f.start
    ensures u.f.tail.pc == Waiting && u.f.eofSize == |u.f.content|
  {
    hide Leads, F.Inv, WatchInv;
    u := FollowerRests(s, t);
    InvGivesEofFacts(u.f);
    if u.f.eofSize < |u.f.content| {
      u := PollerPosts(s, u);
      u := Step(s, u, Follow(F.Wake));
      u := FollowerRests(s, u);
    }
  }

  lemma AllSent(u: State)
    requires Inv(u) && u.f.tail.pc == Waiting && u.f.eofSize == |u.f.content|
    ensures u.f.start <= |u.f.content|
    ensures u.f.sent == Pieces(LinesOf(u.f.content[u.f.start..]), u.f.tail.maxLineSize)
  {
    hide LinesOf, Pieces;
    F.CaughtUp(u.f);
    assert u.f.content[u.f.start..|u.f.content|] == u.f.content[u.f.start..];
  }

  /**
   Delivery. From every reachable state of writers, poller and follower, unless the follower was told to stop at once or
   has returned: the steps of poller and follower alone can lead to a state in which the follower sleeps and every
   complete line of the file has been sent.
   */
  lemma EverythingIsDelivered(s: State, before: seq<Action>) returns (more: seq<Action>)
    requires Init(s) && Run(s, before) && Going(After(s, before).f)
    ensures var t := After(s, before);
            && InnerSteps(more) && Run(t, more)
            && var u := After(t, more);
            && u.f.tail.pc == Waiting && u.f.content == t.f.content && u.f.start == t.f.start
            && t.f.start <= |t.f.content|
            && u.f.sent == Pieces(LinesOf(t.f.content[t.f.start..]), u.f.tail.maxLineSize)
  {
    InitInv(s);
    RunKeeps(s, before);
    var t := After(s, before);
    Stay(t);
    var u := AllThereIs(t, t);
    AllSent(u);
    hide Inv, Run, After, Enabled, Apply, LinesOf, Pieces, Inner;
    more :| InnerSteps(more) && Run(t, more) && After(t, more) == u;
  }
}
