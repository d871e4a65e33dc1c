/**
 What holds of submission in every run, also when requests for one pod overlap and when sbatch prints something other
 than an id: exactly when a pod can be submitted once more, and when a stored answer can change.
 */
module Overlaps {
  import opened GoText
  import opened Options
  import opened Submission
  import opened SubmissionRuns

  lemma AfterThree(w: World, a: Action, b: Action, c: Action)
    ensures After(w, [a, b, c]) == Apply(Apply(Apply(w, a), b), c)
  {
    hide Apply;
    assert [a, b, c][1..] == [b, c] && [b, c][1..] == [c];
    assert After(Apply(Apply(w, a), b), [c]) == Apply(Apply(Apply(w, a), b), c);
    assert After(Apply(w, a), [b, c]) == After(Apply(Apply(w, a), b), [c]);
  }

  lemma {:induction false} AfterOneMore(w: World, run: seq<Action>, a: Action)
    ensures After(w, run + [a]) == Apply(After(w, run), a)
    decreases |run|
  {
    hide Apply;
    if run == [] {
      assert run + [a] == [a] && [a][1..] == [];
      assert After(Apply(w, a), [a][1..]) == Apply(w, a);
    } else {
      assert (run + [a])[0] == run[0] && (run + [a])[1..] == run[1..] + [a];
      AfterOneMore(Apply(w, run[0]), run[1..], a);
    }
  }

  lemma NoJobsYet(u: Uid)
    ensures JobsOf([], u) == []
  {
  }

  lemma {:induction false} FreshNumber(keys: set<nat>) returns (c: nat)
    ensures forall k :: k in keys ==> k < c
  {
    if keys == {} {
      c := 0;
    } else {
      var k :| k in keys;
      var rest := keys - {k};
      var d := FreshNumber(rest);
      c := if d > k then d else k + 1;
      assert forall j :: j in keys ==> j == k || j in rest;
    }
  }

  function NewCopy(u: Uid): Pod { Pod(u, false, SizeCar, None, [["#!/bin/sh"]]) }

  /** One request of the kubelet for a pod that is not known, up to sbatch. */
  function SubmitRun(c: nat, u: Uid, outcome: Sbatch): seq<Action> {
    [Create(c, NewCopy(u)), Load(c), RunSbatch(c, outcome)]
  }

  lemma RequestArrives(w: World, c: nat, u: Uid)
    requires c !in w.handlers && u in w.cars && u != "" && w.partition != ""
    ensures Apply(w, Create(c, NewCopy(u))) == w.(handlers := w.handlers[c := Handler(u, Arrived)])
  {
  }

  lemma SubmitRunEnds(w: World, c: nat, u: Uid, outcome: Sbatch)
    requires c !in w.handlers && u in w.cars && u != "" && w.partition != "" && u !in w.knownJobs
    ensures After(w, SubmitRun(c, u, outcome)) == w.(
      handlers := w.handlers[c := Handler(u, SbatchStep(outcome))], queue := w.queue + QueuedBy(u, outcome))
  {
    hide After, QueuedBy, SbatchStep;
    var run := SubmitRun(c, u, outcome);
    AfterThree(w, run[0], run[1], run[2]);
    RequestArrives(w, c, u);
    var w1 := w.(handlers := w.handlers[c := Handler(u, Arrived)]);
    var w2 := w.(handlers := w.handlers[c := Handler(u, Missed)]);
    assert w1.handlers[c := Handler(u, Missed)] == w2.handlers;
    assert w2.handlers[c := Handler(u, SbatchStep(outcome))] == w.handlers[c := Handler(u, SbatchStep(outcome))];
  }

  lemma SubmitAgain(w: World, c: nat, u: Uid, outcome: Sbatch)
    requires c !in w.handlers && u in w.cars && u != "" && w.partition != "" && u !in w.knownJobs
    requires !outcome.Rejected?
    ensures JobsOf(After(w, SubmitRun(c, u, outcome)).queue, u) == JobsOf(w.queue, u) + [outcome.id]
  {
    hide After, JobsOf;
    SubmitRunEnds(w, c, u, outcome);
    JobsOfMore(w.queue, u, u, outcome);
  }

  // Exactly when a pod can be submitted once more

  ghost predicate CanSubmitAgain(w: World, u: Uid) {
    exists run :: |JobsOf(After(w, run).queue, u)| > |JobsOf(w.queue, u)|
  }

  predicate HasMissed(w: World, u: Uid) {
    exists c :: c in w.handlers && w.handlers[c] == Handler(u, Missed)
  }

  /** Every request of the pod, present or to come, is answered from the table. */
  predicate Quiet(w: World, u: Uid) {
    && CarsOnly(w)
    && (MaySubmit(w, u) ==> u in w.knownJobs)
    && !HasMissed(w, u)
  }

  lemma QuietLoad(w: World, c: nat, u: Uid)
    requires Quiet(w, u) && At(w, c, Arrived)
    ensures w.handlers[c].uid == u ==> LoadStep(w.knownJobs, u).Answered?
    ensures !HasMissed(Apply(w, Load(c)), u)
  {
    var t := Apply(w, Load(c));
    forall d | d in t.handlers ensures t.handlers[d] != Handler(u, Missed) {
      if d != c {
        assert w.handlers[d] != Handler(u, Missed);
      } else {
        assert MaySubmit(w, w.handlers[c].uid);
      }
    }
  }

  /** No other step leads to sbatch. */
  lemma OtherStepsMissNothing(w: World, a: Action, u: Uid)
    requires !HasMissed(w, u) && !a.Load?
    ensures !HasMissed(Apply(w, a), u)
  {
    hide LoadStep;
    var t := Apply(w, a);
    forall d | d in t.handlers ensures t.handlers[d] != Handler(u, Missed) {
      if d in w.handlers {
        assert w.handlers[d] != Handler(u, Missed);
      }
    }
  }

  lemma KnownStaysKnown(w: World, a: Action, u: Uid)
    ensures u in w.knownJobs ==> u in Apply(w, a).knownJobs
    ensures MaySubmit(Apply(w, a), u) == MaySubmit(w, u)
  {
  }

  lemma OnlyMissedQueues(w: World, a: Action, u: Uid)
    requires !HasMissed(w, u)
    ensures JobsOf(Apply(w, a).queue, u) == JobsOf(w.queue, u)
  {
    hide JobsOf, LoadStep;
    if a.RunSbatch? && At(w, a.c, Missed) {
      JobsOfMore(w.queue, u, w.handlers[a.c].uid, a.outcome);
      assert w.handlers[a.c] == Handler(w.handlers[a.c].uid, Missed);
    }
  }

  lemma QuietStep(w: World, a: Action, u: Uid)
    requires Quiet(w, u)
    ensures Quiet(Apply(w, a), u) && JobsOf(Apply(w, a).queue, u) == JobsOf(w.queue, u)
  {
    hide Apply, CarsOnly, HasMissed, JobsOf, MaySubmit;
    StepKeepsCarsOnly(w, a);
    KnownStaysKnown(w, a, u);
    OnlyMissedQueues(w, a, u);
    if a.Load? {
      LoadMissesNothing(w, a, u);
    } else {
      OtherStepsMissNothing(w, a, u);
    }
  }

  lemma LoadMissesNothing(w: World, a: Action, u: Uid)
    requires Quiet(w, u) && a.Load?
    ensures !HasMissed(Apply(w, a), u)
  {
    hide HasMissed;
    if At(w, a.c, Arrived) {
      QuietLoad(w, a.c, u);
    }
  }

  lemma {:induction false} QuietRun(w: World, run: seq<Action>, u: Uid)
    requires Quiet(w, u)
    ensures JobsOf(After(w, run).queue, u) == JobsOf(w.queue, u)
    decreases |run|
  {
    hide Quiet, Apply, JobsOf;
    if run != [] {
      QuietStep(w, run[0], u);
      QuietRun(Apply(w, run[0]), run[1..], u);
    }
  }

  lemma MissedSubmits(w: World, c: nat, u: Uid)
    requires c in w.handlers && w.handlers[c] == Handler(u, Missed)
    ensures CanSubmitAgain(w, u)
  {
    hide JobsOf;
    var run := [RunSbatch(c, Accepted(1))];
    assert run[1..] == [];
    JobsOfMore(w.queue, u, u, Accepted(1));
    assert After(w, run) == Apply(w, run[0]);
    assert |JobsOf(After(w, run).queue, u)| > |JobsOf(w.queue, u)|;
  }

  lemma UnknownSubmits(w: World, u: Uid)
    requires MaySubmit(w, u) && u !in w.knownJobs
    ensures CanSubmitAgain(w, u)
  {
    hide JobsOf, After;
    var c := FreshNumber(w.handlers.Keys);
    SubmitAgain(w, c, u, Accepted(1));
    assert |JobsOf(After(w, SubmitRun(c, u, Accepted(1))).queue, u)| > |JobsOf(w.queue, u)|;
  }

  /**
   In every reachable world: sbatch can run once more for a pod if and only if the agent has not stored a job for this
   size-car pod, or a request for it has already looked, before one was stored.
   */
  lemma SecondSubmissionIff(start: World, run: seq<Action>, u: Uid)
    requires IsStart(start)
    ensures var w := After(start, run);
            CanSubmitAgain(w, u) <==> (MaySubmit(w, u) && u !in w.knownJobs) || HasMissed(w, u)
  {
    hide After, CarsOnly;
    StartIsInv(start);
    WorkersNeverSubmit(start, run);
    SecondSubmissionAt(After(start, run), u);
  }

  lemma SecondSubmissionAt(w: World, u: Uid)
    requires CarsOnly(w)
    ensures CanSubmitAgain(w, u) <==> (MaySubmit(w, u) && u !in w.knownJobs) || HasMissed(w, u)
  {
    hide CarsOnly, JobsOf, After, MaySubmit;
    if HasMissed(w, u) {
      var c :| c in w.handlers && w.handlers[c] == Handler(u, Missed);
      MissedSubmits(w, c, u);
    } else if MaySubmit(w, u) && u !in w.knownJobs {
      UnknownSubmits(w, u);
    } else if CanSubmitAgain(w, u) {
      var more :| |JobsOf(After(w, more).queue, u)| > |JobsOf(w.queue, u)|;
      QuietRun(w, more, u);
    }
  }

  /** Two requests that both look before either stores: two jobs, and the stored answer changes. */
  lemma OverlapSubmitsTwice(start: World, u: Uid)
    requires IsStart(start) && MaySubmit(start, u)
    ensures var w := After(start, [Create(0, NewCopy(u)), Create(1, NewCopy(u)), Load(0)]
                                  + [Load(1), RunSbatch(0, Accepted(1)), Store(0)]);
            && JobsOf(w.queue, u) == [1] && u in w.knownJobs && w.knownJobs[u] == 1
            && var t := After(w, [RunSbatch(1, Accepted(2)), Store(1)]);
               JobsOf(t.queue, u) == [1, 2] && u in t.knownJobs && t.knownJobs[u] == 2
  {
    hide After, JobsOf;
    var w3 := BothArrived(start, u);
    var w6 := FirstStored(w3, u);
    AfterAppend(start, [Create(0, NewCopy(u)), Create(1, NewCopy(u)), Load(0)],
                [Load(1), RunSbatch(0, Accepted(1)), Store(0)]);
    SecondStored(w6, u);
  }

  lemma BothArrived(start: World, u: Uid) returns (w: World)
    requires IsStart(start) && MaySubmit(start, u)
    ensures w == After(start, [Create(0, NewCopy(u)), Create(1, NewCopy(u)), Load(0)])
    ensures w == start.(handlers := map[0 := Handler(u, Missed), 1 := Handler(u, Arrived)])
  {
    hide After;
    AfterThree(start, Create(0, NewCopy(u)), Create(1, NewCopy(u)), Load(0));
    RequestArrives(start, 0, u);
    var w1 := start.(handlers := start.handlers[0 := Handler(u, Arrived)]);
    RequestArrives(w1, 1, u);
    var w2 := w1.(handlers := w1.handlers[1 := Handler(u, Arrived)]);
    w := Apply(w2, Load(0));
    assert w.handlers == map[0 := Handler(u, Missed), 1 := Handler(u, Arrived)];
  }

  lemma FirstStored(w: World, u: Uid) returns (t: World)
    requires w.handlers == map[0 := Handler(u, Missed), 1 := Handler(u, Arrived)]
    requires w.knownJobs == map[] && w.queue == []
    ensures t == After(w, [Load(1), RunSbatch(0, Accepted(1)), Store(0)])
    ensures t.handlers == map[0 := Handler(u, Answered(1)), 1 := Handler(u, Missed)]
    ensures t.knownJobs == map[u := 1] && JobsOf(t.queue, u) == [1]
  {
    hide After, JobsOf;
    AfterThree(w, Load(1), RunSbatch(0, Accepted(1)), Store(0));
    var w1 := Apply(w, Load(1));
    assert w1.handlers == map[0 := Handler(u, Missed), 1 := Handler(u, Missed)];
    var w2 := Apply(w1, RunSbatch(0, Accepted(1)));
    assert w2.handlers == map[0 := Handler(u, Queued(1)), 1 := Handler(u, Missed)];
    JobsOfMore([], u, u, Accepted(1));
    NoJobsYet(u);
    t := Apply(w2, Store(0));
  }

  lemma SecondStored(w: World, u: Uid)
    requires 1 in w.handlers && w.handlers[1] == Handler(u, Missed) && JobsOf(w.queue, u) == [1]
    ensures var t := After(w, [RunSbatch(1, Accepted(2)), Store(1)]);
            JobsOf(t.queue, u) == [1, 2] && u in t.knownJobs && t.knownJobs[u] == 2
  {
    hide JobsOf;
    assert [RunSbatch(1, Accepted(2)), Store(1)] == [RunSbatch(1, Accepted(2))] + [Store(1)];
    AfterOneMore(w, [RunSbatch(1, Accepted(2))], Store(1));
    AfterOneMore(w, [], RunSbatch(1, Accepted(2)));
    assert [] + [RunSbatch(1, Accepted(2))] == [RunSbatch(1, Accepted(2))];
    JobsOfMore(w.queue, u, u, Accepted(2));
  }

  lemma {:induction false} AfterAppend(w: World, run: seq<Action>, more: seq<Action>)
    ensures After(w, run + more) == After(After(w, run), more)
    decreases |run|
  {
    hide Apply;
    if run == [] {
      assert run + more == more;
    } else {
      assert (run + more)[0] == run[0] && (run + more)[1..] == run[1..] + more;
      AfterAppend(Apply(w, run[0]), run[1..], more);
    }
  }

  /** A job that sbatch queues without printing a number is not stored: the kubelet's next try queues a second one. */
  lemma GarbledOutputSubmitsTwice(w: World, c: nat, d: nat, u: Uid)
    requires c !in w.handlers && d !in w.handlers && c != d
    requires u in w.cars && u != "" && w.partition != "" && u !in w.knownJobs
    ensures var t := After(w, SubmitRun(c, u, Garbled(1)));
            && c in t.handlers && t.handlers[c] == Handler(u, Refused)
            && JobsOf(After(t, SubmitRun(d, u, Accepted(2))).queue, u) == JobsOf(w.queue, u) + [1] + [2]
  {
    hide After, JobsOf;
    SubmitAgain(w, c, u, Garbled(1));
    SubmitRunEnds(w, c, u, Garbled(1));
    SubmitAgain(After(w, SubmitRun(c, u, Garbled(1))), d, u, Accepted(2));
  }

  // Exactly when a stored answer can change

  predicate Settled(w: World, u: Uid) {
    && u in w.knownJobs
    && forall c | c in w.handlers && w.handlers[c].uid == u :: !w.handlers[c].at.Missed? && !w.handlers[c].at.Queued?
  }

  lemma StepKeepsSettled(w: World, a: Action, u: Uid)
    requires Settled(w, u)
    ensures var t := Apply(w, a); Settled(t, u) && JobsOf(t.queue, u) == JobsOf(w.queue, u)
    ensures Apply(w, a).knownJobs[u] == w.knownJobs[u]
  {
    hide JobsOf;
    if a.RunSbatch? && At(w, a.c, Missed) {
      JobsOfMore(w.queue, u, w.handlers[a.c].uid, a.outcome);
    }
  }

  /**
   After the agent has stored a pod's job, and while no request for the pod stands between its look and its store, no
   later requests of any kind submit the pod again or change its answer.
   */
  lemma {:induction false} StoredIsFinal(w: World, run: seq<Action>, u: Uid)
    requires Settled(w, u)
    ensures var t := After(w, run);
            JobsOf(t.queue, u) == JobsOf(w.queue, u) && u in t.knownJobs && t.knownJobs[u] == w.knownJobs[u]
    decreases |run|
  {
    hide Settled, JobsOf, Apply;
    SettledIsKnown(w, u);
    if run != [] {
      StepKeepsSettled(w, run[0], u);
      StoredIsFinal(Apply(w, run[0]), run[1..], u);
    }
  }

  lemma SettledIsKnown(w: World, u: Uid)
    requires Settled(w, u)
    ensures u in w.knownJobs
  {
  }

  ghost predicate CanChangeAnswer(w: World, u: Uid)
    requires u in w.knownJobs
  {
    exists run :: u in After(w, run).knownJobs && After(w, run).knownJobs[u] != w.knownJobs[u]
  }

  /** The request will store, or may store, another id. */
  predicate Differs(h: Handler, u: Uid, id: JobId) {
    h.uid == u && (h.at.Missed? || (h.at.Queued? && h.at.id != id))
  }

  predicate HasOther(w: World, u: Uid, id: JobId) {
    exists c :: c in w.handlers && Differs(w.handlers[c], u, id)
  }

  predicate Steady(w: World, u: Uid, id: JobId) {
    u in w.knownJobs && w.knownJobs[u] == id && !HasOther(w, u, id)
  }

  lemma SteadyStep(w: World, a: Action, u: Uid, id: JobId)
    requires Steady(w, u, id)
    ensures Steady(Apply(w, a), u, id)
  {
    hide JobsOf;
    var t := Apply(w, a);
    forall d | d in t.handlers ensures !Differs(t.handlers[d], u, id) {
      if d in w.handlers {
        assert !Differs(w.handlers[d], u, id);
      }
    }
    if a.Store? && a.c in w.handlers {
      assert !Differs(w.handlers[a.c], u, id);
    }
  }

  lemma {:induction false} SteadyRun(w: World, run: seq<Action>, u: Uid, id: JobId)
    requires Steady(w, u, id)
    ensures Steady(After(w, run), u, id)
    decreases |run|
  {
    hide Steady, Apply;
    if run != [] {
      SteadyStep(w, run[0], u, id);
      SteadyRun(Apply(w, run[0]), run[1..], u, id);
    }
  }

  lemma QueuedChanges(w: World, c: nat, u: Uid)
    requires u in w.knownJobs && c in w.handlers && w.handlers[c].uid == u
    requires w.handlers[c].at.Queued? && w.handlers[c].at.id != w.knownJobs[u]
    ensures CanChangeAnswer(w, u)
  {
    var run := [Store(c)];
    assert run[1..] == [];
    assert After(w, run) == Apply(w, run[0]);
    assert After(w, run).knownJobs[u] != w.knownJobs[u];
  }

  lemma MissedChanges(w: World, c: nat, u: Uid)
    requires u in w.knownJobs && c in w.handlers && w.handlers[c] == Handler(u, Missed)
    ensures CanChangeAnswer(w, u)
  {
    var id: JobId := if w.knownJobs[u] == 1 then 2 else 1;
    var run := [RunSbatch(c, Accepted(id))] + [Store(c)];
    AfterOneMore(w, [], RunSbatch(c, Accepted(id)));
    assert [] + [RunSbatch(c, Accepted(id))] == [RunSbatch(c, Accepted(id))];
    AfterOneMore(w, [RunSbatch(c, Accepted(id))], Store(c));
    assert After(w, run).knownJobs[u] == id;
  }

  /** In any world: a stored answer can change if and only if a request stands there that may store another one. */
  lemma AnswerCanChangeIff(w: World, u: Uid)
    requires u in w.knownJobs
    ensures CanChangeAnswer(w, u) <==> HasOther(w, u, w.knownJobs[u])
  {
    hide After;
    var id := w.knownJobs[u];
    if HasOther(w, u, id) {
      var c :| c in w.handlers && Differs(w.handlers[c], u, id);
      if w.handlers[c].at.Missed? {
        MissedChanges(w, c, u);
      } else {
        QueuedChanges(w, c, u);
      }
    } else if CanChangeAnswer(w, u) {
      var run :| u in After(w, run).knownJobs && After(w, run).knownJobs[u] != w.knownJobs[u];
      SteadyRun(w, run, u, id);
    }
  }

  // What deletion cancels

  /** The reply to a successful request is lost: the pod has a job of which the kubelet knows nothing. */
  lemma LostReplyLeavesTheJob(start: World, c: nat, u: Uid, id: JobId, failing: set<int>)
    requires IsStart(start) && u in start.cars && u != "" && start.partition != ""
    ensures var run := SubmitRun(c, u, Accepted(id)) + [Store(c)];
            var w := After(start, run);
            && CarefulRun(start, run) && JobsOf(w.queue, u) == [id]
            && Copy(w, NewCopy(u)) && Cancelled(w, NewCopy(u), failing) == []
  {
    hide After, CarefulRun, Careful, JobsOf, Cancellations, Apply;
    var run := SubmitRun(c, u, Accepted(id));
    SubmitAgain(start, c, u, Accepted(id));
    SubmitRunEnds(start, c, u, Accepted(id));
    NoJobsYet(u);
    AfterOneMore(start, run, Store(c));
    var w := After(start, run);
    StoreStep(w, c, u, id);
    FirstIsCareful(start, run[0]);
    FirstRunIsCareful(start, run + [Store(c)]);
  }

  lemma StoreStep(w: World, c: nat, u: Uid, id: JobId)
    requires c in w.handlers && w.handlers[c] == Handler(u, Queued(id))
    ensures Apply(w, Store(c)) == Moved(w, c, Answered(id)).(knownJobs := w.knownJobs[u := id])
  {
  }

  lemma FirstIsCareful(start: World, a: Action)
    requires start.handlers == map[] && a.Create?
    ensures Careful(start, a)
  {
  }

  /** With one request there is nothing to overlap with. */
  lemma FirstRunIsCareful(start: World, run: seq<Action>)
    requires run != [] && Careful(start, run[0])
    requires forall i | 1 <= i < |run| :: !run[i].Create? && (run[i].RunSbatch? ==> !run[i].outcome.Garbled?)
    ensures CarefulRun(start, run)
  {
    hide Apply;
    NoRequestsIsCareful(Apply(start, run[0]), run[1..]);
  }

  lemma {:induction false} NoRequestsIsCareful(w: World, run: seq<Action>)
    requires forall i | 0 <= i < |run| :: !run[i].Create? && (run[i].RunSbatch? ==> !run[i].outcome.Garbled?)
    ensures CarefulRun(w, run)
    decreases |run|
  {
    hide Apply;
    if run != [] {
      NoRequestsIsCareful(Apply(w, run[0]), run[1..]);
    }
  }

  predicate IsOwnId(text: string, jobs: seq<JobId>) {
    exists i | 0 <= i < |jobs| :: text == FormatInt(jobs[i])
  }

  predicate HasId(h: Handling) { h.Queued? || h.Answered? }

  /** Every id that is anywhere on its way to the kubelet is the id of a job of its pod. */
  predicate OwnIds(w: World, u: Uid) {
    var jobs := JobsOf(w.queue, u);
    && (u in w.knownJobs ==> w.knownJobs[u] in jobs)
    && (forall c | c in w.handlers :: OwnHandlerId(w.handlers[c], u, jobs))
    && (u in w.cars && u in w.knownPods ==> IsOwnId(w.knownPods[u], jobs))
    && (u in w.cars && u in w.labels ==> IsOwnId(w.labels[u], jobs))
  }

  predicate OwnHandlerId(h: Handler, u: Uid, jobs: seq<JobId>) { h.uid == u && HasId(h.at) ==> h.at.id in jobs }

  lemma MoreJobs(w: World, a: Action, u: Uid)
    ensures JobsOf(w.queue, u) <= JobsOf(Apply(w, a).queue, u)
  {
    hide JobsOf, LoadStep, FormatInt;
    if a.RunSbatch? && At(w, a.c, Missed) {
      JobsOfMore(w.queue, u, w.handlers[a.c].uid, a.outcome);
    }
  }

  lemma OwnIdStays(text: string, id: JobId, jobs: seq<JobId>, more: seq<JobId>)
    requires jobs <= more
    ensures IsOwnId(text, jobs) ==> IsOwnId(text, more)
    ensures id in jobs ==> id in more
  {
    hide FormatInt;
    if IsOwnId(text, jobs) {
      var i :| 0 <= i < |jobs| && text == FormatInt(jobs[i]);
      assert more[i] == jobs[i];
    }
    if id in jobs {
      var i :| 0 <= i < |jobs| && jobs[i] == id;
      assert more[i] == id;
    }
  }

  lemma OwnHandlers(w: World, a: Action, u: Uid)
    requires OwnIds(w, u)
    ensures var t := Apply(w, a);
            forall c | c in t.handlers :: OwnHandlerId(t.handlers[c], u, JobsOf(t.queue, u))
  {
    hide JobsOf, FormatInt, IsOwnId;
    var t := Apply(w, a);
    MoreJobs(w, a, u);
    forall c | c in t.handlers ensures OwnHandlerId(t.handlers[c], u, JobsOf(t.queue, u)) {
      if c in w.handlers {
        assert OwnHandlerId(w.handlers[c], u, JobsOf(w.queue, u));
        if a.RunSbatch? && At(w, a.c, Missed) {
          JobsOfMore(w.queue, u, w.handlers[a.c].uid, a.outcome);
        }
      }
    }
  }

  lemma OwnTexts(w: World, a: Action, u: Uid)
    requires OwnIds(w, u)
    ensures var t := Apply(w, a);
            && (u in t.knownJobs ==> t.knownJobs[u] in JobsOf(t.queue, u))
            && (u in t.cars && u in t.knownPods ==> IsOwnId(t.knownPods[u], JobsOf(t.queue, u)))
            && (u in t.cars && u in t.labels ==> IsOwnId(t.labels[u], JobsOf(t.queue, u)))
  {
    hide JobsOf, FormatInt, LoadStep;
    var jobs, more := JobsOf(w.queue, u), JobsOf(Apply(w, a).queue, u);
    MoreJobs(w, a, u);
    if a.Store? && a.c in w.handlers {
      assert OwnHandlerId(w.handlers[a.c], u, jobs);
    } else if a.Finish? && a.c in w.handlers {
      assert OwnHandlerId(w.handlers[a.c], u, jobs);
    }
  }

  lemma OwnStep(w: World, a: Action, u: Uid)
    requires OwnIds(w, u)
    ensures OwnIds(Apply(w, a), u)
  {
    hide Apply, JobsOf, IsOwnId, OwnHandlerId;
    OwnHandlers(w, a, u);
    OwnTexts(w, a, u);
  }

  lemma {:induction false} OwnRun(w: World, run: seq<Action>, u: Uid)
    requires OwnIds(w, u)
    ensures OwnIds(After(w, run), u)
    decreases |run|
  {
    hide OwnIds, Apply;
    if run != [] {
      OwnStep(w, run[0], u);
      OwnRun(Apply(w, run[0]), run[1..], u);
    }
  }

  /** In every run: deleting a size-car pod cancels nothing if no id is known for it, and else one job, its own. */
  lemma DeletionCancelsOneOfItsJobs(start: World, run: seq<Action>, pod: Pod, failing: set<int>)
    requires IsStart(start)
    requires Copy(After(start, run), pod) && pod.role == SizeCar
    ensures var w := After(start, run);
            var cancelled := Cancelled(w, pod, failing);
            if SlurmJobId(pod, w.knownPods).None? then cancelled == []
            else |cancelled| == 1 && cancelled[0] in JobsOf(w.queue, pod.uid)
  {
    hide After, JobsOf, FormatInt, Cancellations, Split;
    OwnRun(start, run, pod.uid);
    var w := After(start, run);
    var id := SlurmJobId(pod, w.knownPods);
    if id.Some? {
      var jobs := JobsOf(w.queue, pod.uid);
      assert IsOwnId(id.value, jobs);
      var i :| 0 <= i < |jobs| && id.value == FormatInt(jobs[i]);
      CancelsWhatWasPrinted(jobs[i], failing);
    }
  }
}
