/**
 Runs of the operator over one SlurmBridgeJob: any number of passes with any failures, between which pods report,
 pods and jobs disappear, the job's specification is edited and the job is marked for deletion.
 */
module OperatorRuns {
  import opened Kubernetes
  import opened Operator
  import opened Options

  /** `fetchJobs` counts the fetch jobs that were created so far. */
  datatype World = World(status: Status, hasResult: bool, deleting: bool, objects: Objects, fetchJobs: nat)

  datatype Action =
    | DoPass(f: Faults)
    | CarReports(pod: Pod)
    | CarLost
    | WorkerLost
    | FetchReports(job: FetchJob)
    | FetchJobLost
    | EditSpec(hasResult: bool)
    | MarkDeleting

  function FetchJobAppears(before: Objects, after: Objects): nat {
    if before.fetchJob.None? && after.fetchJob.Some? then 1 else 0
  }

  /** What a pass created stays even if its status is not stored. */
  function PassOf(w: World, f: Faults): World {
    if w.deleting then w
    else
      var r := Pass(w.status, w.hasResult, w.objects, f);
      w.(status := if Stored(r, f) then r.status else w.status,
         objects := r.objects,
         fetchJobs := w.fetchJobs + FetchJobAppears(w.objects, r.objects))
  }

  function Apply(w: World, a: Action): World {
    var o := w.objects;
    match a
    case DoPass(f) => PassOf(w, f)
    case CarReports(pod) => if o.car.Some? then w.(objects := o.(car := Some(pod))) else w
    case CarLost => w.(objects := o.(car := None))
    case WorkerLost => w.(objects := o.(hasWorker := false))
    case FetchReports(job) => if o.fetchJob.Some? then w.(objects := o.(fetchJob := Some(job))) else w
    case FetchJobLost => w.(objects := o.(fetchJob := None))
    case EditSpec(b) => w.(hasResult := b)
    case MarkDeleting => w.(deleting := true)
  }

  function After(w: World, run: seq<Action>): World
    decreases |run|
  {
    if run == [] then w else After(Apply(w, run[0]), run[1..])
  }

  predicate IsNew(w: World) {
    && w.status == Status(w.status.state, map[], false, Empty)
    && w.status.state in {Empty, Submitting}
    && w.objects == Objects(None, false, None)
    && w.fetchJobs == 0
  }

  /** Fetching only begins once the job has ended and its sub-jobs are known. */
  predicate Inv(w: World) {
    && (w.status.fetchResult || w.fetchJobs > 0 || w.objects.fetchJob.Some? || w.status.fetchStatus != Empty
        ==> Terminal(w.status.state) && w.status.subjobs != map[])
    && (w.status.fetchResult || w.objects.fetchJob.Some? || w.status.fetchStatus != Empty ==> w.fetchJobs > 0)
  }

  // What no step takes back

  /** The status `t` is a later one than `s`. */
  predicate Later(s: Status, t: Status) {
    && (Terminal(s.state) ==> t.state == s.state && t.subjobs == s.subjobs)
    && s.subjobs.Keys <= t.subjobs.Keys
    && (s.fetchResult ==> t.fetchResult)
    && (s.fetchResult && Terminal(s.fetchStatus) ==> t.fetchStatus == s.fetchStatus)
  }

  lemma {:induction false} RecordedKeeps(subjobs: map<JobId, string>, jobs: seq<JobInfo>)
    ensures subjobs.Keys <= Recorded(subjobs, jobs).Keys
    decreases |jobs|
  {
    if jobs != [] {
      RecordedKeeps(subjobs, jobs[..|jobs| - 1]);
    }
  }

  lemma KeysGrow(s: map<JobId, string>, t: map<JobId, string>)
    requires s != map[] && s.Keys <= t.Keys
    ensures t != map[]
  {
    var k :| k in s;
    assert k in t;
  }

  lemma UpdateIsLater(s: Status, pod: Pod)
    requires !Terminal(s.state)
    requires !s.fetchResult
    ensures Later(s, UpdatedStatus(s, pod))
  {
    if pod.message.Infos? {
      RecordedKeeps(s.subjobs, pod.message.jobs);
    }
  }

  lemma PassIsLater(w: World, f: Faults)
    requires Inv(w)
    ensures Later(w.status, PassOf(w, f).status)
  {
    hide UpdatedStatus;
    var s := w.status;
    if !w.deleting && !Terminal(s.state) {
      UpdateIsLater(s, if w.objects.car.Some? then w.objects.car.value else NEW_POD);
    }
  }

  lemma JobPassKeepsFetching(s: Status, o: Objects, f: Faults)
    ensures JobPass(s, o, f).objects.fetchJob == o.fetchJob
    ensures JobPass(s, o, f).status.fetchResult == s.fetchResult
    ensures JobPass(s, o, f).status.fetchStatus == s.fetchStatus
  {
  }

  lemma PassKeeps(w: World, f: Faults)
    requires Inv(w)
    ensures Inv(PassOf(w, f))
  {
    if !w.deleting && !Terminal(w.status.state) {
      hide JobPass;
      JobPassKeepsFetching(w.status, w.objects, f);
    }
  }

  lemma StepKeeps(w: World, a: Action)
    requires Inv(w)
    ensures Inv(Apply(w, a))
    ensures Later(w.status, Apply(w, a).status)
  {
    hide PassOf;
    if a.DoPass? {
      PassKeeps(w, a.f);
      PassIsLater(w, a.f);
    }
  }

  lemma LaterIsTransitive(r: Status, s: Status, t: Status)
    requires Later(r, s) && Later(s, t)
    ensures Later(r, t)
  {
  }

  /** A state Succeeded or Failed stays, recorded sub-jobs stay, fetching is never forgotten, nor how it ended. */
  lemma {:induction false} StatusOnlyAdvances(w: World, run: seq<Action>)
    requires Inv(w)
    ensures Inv(After(w, run))
    ensures Later(w.status, After(w, run).status)
    decreases |run|
  {
    hide Later, Inv;
    if run == [] {
      NotLessThanItself(w.status);
    } else {
      StepKeeps(w, run[0]);
      StatusOnlyAdvances(Apply(w, run[0]), run[1..]);
      LaterIsTransitive(w.status, Apply(w, run[0]).status, After(w, run).status);
    }
  }

  lemma NotLessThanItself(s: Status)
    ensures Later(s, s)
  {
  }

  lemma NewIsInv(w: World)
    requires IsNew(w)
    ensures Inv(w)
  {
  }

  /** In every reachable world: results are being fetched only for an ended job with recorded sub-jobs. */
  lemma FetchingMeansEnded(start: World, run: seq<Action>)
    requires IsNew(start)
    ensures var w := After(start, run);
            w.status.fetchResult || w.objects.fetchJob.Some? || w.fetchJobs > 0 ==>
              Terminal(w.status.state) && w.status.subjobs != map[]
  {
    NewIsInv(start);
    StatusOnlyAdvances(start, run);
  }

  // What a pass takes from the size-car pod

  /** A stored pass over an unfinished job takes the pod's phase, and the last info of each of its Slurm jobs. */
  lemma StoredPassFollowsThePod(w: World, f: Faults, id: JobId, i: nat)
    requires !w.deleting && !Terminal(w.status.state) && w.objects.car.Some?
    requires Stored(Pass(w.status, w.hasResult, w.objects, f), f)
    requires w.objects.car.value.message.Infos? && LastOf(w.objects.car.value.message.jobs, id, i)
    ensures var t := PassOf(w, f).status;
            && t.state == w.objects.car.value.phase
            && id in t.subjobs && t.subjobs[id] == w.objects.car.value.message.jobs[i].detail
  {
    hide Recorded, LastOf;
    RecordedIsTheLast(w.status.subjobs, w.objects.car.value.message.jobs, id, i);
  }

  /** The size-car pod is labelled with a job id and its message names Slurm jobs. */
  predicate NamesJobs(w: World) {
    && w.objects.car.Some?
    && var pod := w.objects.car.value; pod.hasJobId && pod.message.Infos? && pod.message.jobs != []
  }

  lemma WorkerStep(w: World, a: Action)
    requires !w.objects.hasWorker && Apply(w, a).objects.hasWorker
    ensures NamesJobs(w) && !w.deleting && !Terminal(w.status.state)
  {
    hide Recorded;
  }

  lemma PrefixCons(run: seq<Action>, i: nat)
    requires run != [] && i <= |run| - 1
    ensures run[..i + 1][0] == run[0] && run[..i + 1][1..] == run[1..][..i]
  {
  }

  /**
   A worker pod never comes first. In every run that ends with one there was a moment at which the job was unfinished
   and its size-car pod named the Slurm jobs that the worker's containers stand for.
   */
  lemma {:induction false} WorkerFollowsSubmission(w: World, run: seq<Action>) returns (i: nat)
    requires !w.objects.hasWorker && After(w, run).objects.hasWorker
    ensures i < |run| && NamesJobs(After(w, run[..i])) && !Terminal(After(w, run[..i]).status.state)
    decreases |run|
  {
    hide Apply, NamesJobs;
    var next := Apply(w, run[0]);
    if next.objects.hasWorker {
      WorkerStep(w, run[0]);
      i := 0;
    } else {
      var j := WorkerFollowsSubmission(next, run[1..]);
      i := j + 1;
      PrefixCons(run, j);
    }
  }

  // Size-car pods

  predicate CarGone(w: World) { w.objects.car.None? && w.status.subjobs != map[] }

  lemma LaterKeepsSubjobs(s: Status, t: Status)
    requires Later(s, t) && s.subjobs != map[]
    ensures t.subjobs != map[]
  {
    KeysGrow(s.subjobs, t.subjobs);
  }

  lemma CarStaysGone(w: World, a: Action)
    requires Inv(w) && CarGone(w)
    ensures CarGone(Apply(w, a))
  {
    hide Later, Inv;
    StepKeeps(w, a);
    LaterKeepsSubjobs(w.status, Apply(w, a).status);
  }

  /** Once sub-jobs are recorded, a size-car pod that disappears is never created again. */
  lemma {:induction false} NoCarAfterSubjobs(w: World, run: seq<Action>)
    requires Inv(w) && CarGone(w)
    ensures CarGone(After(w, run))
    decreases |run|
  {
    hide Inv, CarGone;
    if run != [] {
      StepKeeps(w, run[0]);
      CarStaysGone(w, run[0]);
      NoCarAfterSubjobs(Apply(w, run[0]), run[1..]);
    }
  }

  // The nil pod: when the size-car pod of an unfinished job disappears, every pass ends in a panic before it can
  // store the state Failed that it has just decided on.

  predicate Wedged(w: World) { CarGone(w) && !Terminal(w.status.state) }

  const JOB := JobInfo("1", "RUNNING")

  /** A size-car pod that reports its Slurm job. */
  function Reporting(phase: Phase): Pod { Pod(phase, Infos([JOB]), true) }

  /** A new job gets its size-car pod, which reports, and the report is stored. */
  function Reported(phase: Phase): seq<Action> {
    [DoPass(NO_FAULTS), CarReports(Reporting(phase)), DoPass(NO_FAULTS)]
  }

  lemma ReportIsStored(start: World, phase: Phase)
    requires IsNew(start) && !start.deleting
    ensures After(start, Reported(phase)) == start.(
      status := Status(phase, map[JOB.id := JOB.detail], false, Empty),
      objects := Objects(Some(Reporting(phase)), true, None))
  {
    hide After, PassOf;
    var run := Reported(phase);
    AfterThree(start, run[0], run[1], run[2]);
    FirstPass(start);
    ReportPass(start.(status := start.status.(state := Pending),
                      objects := Objects(Some(Reporting(phase)), false, None)), phase);
  }

  lemma FirstPass(start: World)
    requires IsNew(start) && !start.deleting
    ensures PassOf(start, NO_FAULTS) == start.(
      status := start.status.(state := Pending), objects := Objects(Some(NEW_POD), false, None))
  {
  }

  lemma ReportPass(w: World, phase: Phase)
    requires w.status == Status(Pending, map[], false, Empty) && !w.deleting
    requires w.objects == Objects(Some(Reporting(phase)), false, None)
    ensures PassOf(w, NO_FAULTS) == w.(
      status := Status(phase, map[JOB.id := JOB.detail], false, Empty),
      objects := Objects(Some(Reporting(phase)), true, None))
  {
    hide Recorded;
    OneJobRecorded();
  }

  lemma OneJobRecorded()
    ensures Recorded(map[], [JOB]) == map[JOB.id := JOB.detail]
  {
    assert [JOB][..0] == [];
  }

  lemma {:induction false} AfterAppend(w: World, run: seq<Action>, more: seq<Action>)
    ensures After(w, run + more) == After(After(w, run), more)
    decreases |run|
  {
    hide Apply;
    if run == [] {
      assert run + more == more;
    } else {
      assert (run + more)[0] == run[0] && (run + more)[1..] == run[1..] + more;
      AfterAppend(Apply(w, run[0]), run[1..], more);
    }
  }

  /** A new job gets there in four steps: losing the pod that has reported a running job. */
  lemma WedgeIsReached(start: World)
    requires IsNew(start) && !start.deleting
    ensures Wedged(After(start, Reported(Running) + [CarLost]))
  {
    hide After, Reported;
    ReportIsStored(start, Running);
    AfterAppend(start, Reported(Running), [CarLost]);
    var w := After(start, Reported(Running));
    AfterOne(w, CarLost);
    assert JOB.id in w.status.subjobs;
  }

  lemma WedgedPass(w: World, f: Faults)
    requires Wedged(w)
    ensures PassOf(w, f) == w
    ensures !w.deleting && !f.getCar ==>
              Pass(w.status, w.hasResult, w.objects, f)
              == PassResult(w.status.(state := Failed), w.objects, Crash)
  {
  }

  lemma WedgedStays(w: World, a: Action)
    requires Wedged(w)
    ensures Wedged(Apply(w, a)) && Apply(w, a).status == w.status
  {
    hide PassOf;
    if a.DoPass? {
      WedgedPass(w, a.f);
    }
  }

  lemma {:induction false} WedgedForever(w: World, run: seq<Action>)
    requires Wedged(w)
    ensures After(w, run).status == w.status
    decreases |run|
  {
    hide Wedged;
    if run != [] {
      WedgedStays(w, run[0]);
      WedgedForever(Apply(w, run[0]), run[1..]);
    }
  }

  lemma {:induction false} DeletingForever(w: World, run: seq<Action>)
    requires w.deleting
    ensures After(w, run).status == w.status
    decreases |run|
  {
    if run != [] {
      DeletingForever(Apply(w, run[0]), run[1..]);
    }
  }

  const NO_FAULTS := Faults(false, false, Done, false, Done, false, Done, false)

  const CAR_SUCCEEDS := Pod(Succeeded, NoMessage, false)

  ghost predicate CanFinish(w: World) { exists run :: Terminal(After(w, run).status.state) }

  lemma AfterOne(w: World, a: Action)
    ensures After(w, [a]) == Apply(w, a)
  {
    assert [a][1..] == [];
  }

  lemma AfterTwo(w: World, a: Action, b: Action)
    ensures After(w, [a, b]) == Apply(Apply(w, a), b)
  {
    assert [a, b][1..] == [b];
    assert After(Apply(w, a), [b]) == Apply(Apply(w, a), b);
  }

  lemma AfterThree(w: World, a: Action, b: Action, c: Action)
    ensures After(w, [a, b, c]) == Apply(Apply(Apply(w, a), b), c)
  {
    assert [a, b, c][1..] == [b, c];
    AfterTwo(Apply(w, a), b, c);
  }

  lemma CarFinishes(w: World)
    requires !w.deleting && w.objects.car.Some? && !Terminal(w.status.state)
    ensures CanFinish(w)
  {
    AfterTwo(w, CarReports(CAR_SUCCEEDS), DoPass(NO_FAULTS));
    var t := Apply(w, CarReports(CAR_SUCCEEDS));
    assert t.objects.car == Some(CAR_SUCCEEDS);
    assert Terminal(PassOf(t, NO_FAULTS).status.state);
    assert Terminal(After(w, [CarReports(CAR_SUCCEEDS), DoPass(NO_FAULTS)]).status.state);
  }

  lemma NewCarFinishes(w: World)
    requires !w.deleting && w.objects.car.None? && w.status.subjobs == map[] && !Terminal(w.status.state)
    ensures CanFinish(w)
  {
    var run := [DoPass(NO_FAULTS), CarReports(CAR_SUCCEEDS), DoPass(NO_FAULTS)];
    AfterThree(w, run[0], run[1], run[2]);
    var t := Apply(w, run[0]);
    assert t.objects.car == Some(NEW_POD) && !Terminal(t.status.state);
    var u := Apply(t, run[1]);
    assert u.objects.car == Some(CAR_SUCCEEDS);
    assert Terminal(PassOf(u, NO_FAULTS).status.state);
    assert Terminal(After(w, run).status.state);
  }

  /** An unfinished job can still finish exactly if it keeps its size-car pod or has no sub-jobs yet. */
  lemma CanFinishIff(w: World)
    requires !Terminal(w.status.state)
    ensures CanFinish(w) <==> !w.deleting && (w.objects.car.Some? || w.status.subjobs == map[])
  {
    if CanFinish(w) {
      var run :| Terminal(After(w, run).status.state);
      if w.deleting {
        DeletingForever(w, run);
      } else if Wedged(w) {
        WedgedForever(w, run);
      }
    } else if !w.deleting && w.objects.car.Some? {
      CarFinishes(w);
    } else if !w.deleting && w.status.subjobs == map[] {
      NewCarFinishes(w);
    }
  }

  // The fetch job

  /** A pass that creates the fetch job also stores that it did. */
  predicate Careful(w: World, a: Action) {
    a.DoPass? && Apply(w, a).fetchJobs > w.fetchJobs ==> Apply(w, a).status.fetchResult
  }

  predicate CarefulRun(w: World, run: seq<Action>)
    decreases |run|
  {
    run == [] || (Careful(w, run[0]) && CarefulRun(Apply(w, run[0]), run[1..]))
  }

  /** No fetch job exists twice: at most one was created, and if one was it is on record. */
  predicate OnRecord(w: World) { w.fetchJobs == if w.status.fetchResult then 1 else 0 }

  lemma RecordedFetchJobStays(w: World, f: Faults)
    requires Inv(w) && w.status.fetchResult
    ensures PassOf(w, f).fetchJobs == w.fetchJobs
  {
  }

  lemma OneFetchJobAtMost(w: World, f: Faults)
    ensures w.fetchJobs <= PassOf(w, f).fetchJobs <= w.fetchJobs + 1
    ensures PassOf(w, f).status.fetchResult && !w.status.fetchResult ==> PassOf(w, f).fetchJobs == w.fetchJobs + 1
  {
    if !w.deleting && !Terminal(w.status.state) {
      hide JobPass;
      JobPassKeepsFetching(w.status, w.objects, f);
    }
  }

  lemma StepKeepsRecord(w: World, a: Action)
    requires Inv(w) && OnRecord(w) && Careful(w, a)
    ensures OnRecord(Apply(w, a))
  {
    hide PassOf;
    if a.DoPass? {
      OneFetchJobAtMost(w, a.f);
      if w.status.fetchResult {
        RecordedFetchJobStays(w, a.f);
        StepKeeps(w, a);
      }
    }
  }

  lemma {:induction false} CarefulRunKeepsRecord(w: World, run: seq<Action>)
    requires Inv(w) && OnRecord(w) && CarefulRun(w, run)
    ensures OnRecord(After(w, run))
    decreases |run|
  {
    hide Inv, OnRecord;
    if run != [] {
      StepKeeps(w, run[0]);
      StepKeepsRecord(w, run[0]);
      CarefulRunKeepsRecord(Apply(w, run[0]), run[1..]);
    }
  }

  /** If every pass that creates the fetch job stores its status, the job is created at most once. */
  lemma FetchJobCreatedOnce(start: World, run: seq<Action>)
    requires IsNew(start) && CarefulRun(start, run)
    ensures After(start, run).fetchJobs <= 1
    ensures After(start, run).status.fetchResult <==> After(start, run).fetchJobs == 1
  {
    NewIsInv(start);
    CarefulRunKeepsRecord(start, run);
  }

  ghost predicate CanCreateAnother(w: World) { exists run :: After(w, run).fetchJobs > w.fetchJobs }

  lemma {:induction false} NoMoreFetchJobs(w: World, run: seq<Action>)
    requires Inv(w) && (w.deleting || w.status.fetchResult)
    ensures After(w, run).fetchJobs == w.fetchJobs
    decreases |run|
  {
    hide Inv;
    if run != [] {
      NoNewFetchJob(w, run[0]);
      NoMoreFetchJobs(Apply(w, run[0]), run[1..]);
    }
  }

  lemma NoNewFetchJob(w: World, a: Action)
    requires Inv(w) && (w.deleting || w.status.fetchResult)
    ensures var t := Apply(w, a); Inv(t) && (t.deleting || t.status.fetchResult) && t.fetchJobs == w.fetchJobs
  {
    StepKeeps(w, a);
    if a.DoPass? && !w.deleting {
      hide PassOf;
      RecordedFetchJobStays(w, a.f);
    }
  }

  lemma UnrecordedIsCreatedAgain(w: World)
    requires !w.deleting && !w.status.fetchResult && Terminal(w.status.state) && w.status.subjobs != map[]
    ensures CanCreateAnother(w)
  {
    var run := [EditSpec(true), FetchJobLost, DoPass(NO_FAULTS)];
    AfterThree(w, run[0], run[1], run[2]);
    var u := Apply(Apply(w, run[0]), run[1]);
    assert u == w.(hasResult := true, objects := w.objects.(fetchJob := None));
    assert PassOf(u, NO_FAULTS).fetchJobs == u.fetchJobs + 1;
    assert After(w, run).fetchJobs > w.fetchJobs;
  }

  /** Once a fetch job was created, a second one can follow exactly if the first is not on record. */
  lemma SecondFetchJobIff(start: World, run: seq<Action>)
    requires IsNew(start) && After(start, run).fetchJobs > 0
    ensures var w := After(start, run);
            CanCreateAnother(w) <==> !w.deleting && !w.status.fetchResult
  {
    NewIsInv(start);
    StatusOnlyAdvances(start, run);
    var w := After(start, run);
    if !w.deleting && !w.status.fetchResult {
      UnrecordedIsCreatedAgain(w);
    } else if CanCreateAnother(w) {
      var more :| After(w, more).fetchJobs > w.fetchJobs;
      NoMoreFetchJobs(w, more);
    }
  }

  /** How fetching ended never changes if every pass that creates the fetch job stores its status. */
  lemma FetchOutcomeIsFinal(start: World, run: seq<Action>, more: seq<Action>)
    requires IsNew(start) && CarefulRun(start, run)
    requires Terminal(After(start, run).status.fetchStatus)
    ensures After(After(start, run), more).status.fetchStatus == After(start, run).status.fetchStatus
  {
    NewIsInv(start);
    StatusOnlyAdvances(start, run);
    CarefulRunKeepsRecord(start, run);
    StatusOnlyAdvances(After(start, run), more);
  }

  ghost predicate OutcomeCanChange(w: World) {
    exists run :: After(w, run).status.fetchStatus != w.status.fetchStatus
  }

  /** In every reachable world: how fetching ended can change exactly if it is not on record that it was begun. */
  lemma FetchOutcomeCanChangeIff(start: World, run: seq<Action>)
    requires IsNew(start) && Terminal(After(start, run).status.fetchStatus)
    ensures var w := After(start, run);
            OutcomeCanChange(w) <==> !w.deleting && !w.status.fetchResult
  {
    hide After;
    NewIsInv(start);
    StatusOnlyAdvances(start, run);
    OutcomeCanChangeAt(After(start, run));
  }

  lemma OutcomeCanChangeAt(w: World)
    requires Inv(w) && Terminal(w.status.fetchStatus)
    ensures OutcomeCanChange(w) <==> !w.deleting && !w.status.fetchResult
  {
    hide After;
    if !w.deleting && !w.status.fetchResult {
      UnrecordedRestarts(w);
    } else if OutcomeCanChange(w) {
      var more :| After(w, more).status.fetchStatus != w.status.fetchStatus;
      if w.deleting {
        DeletingForever(w, more);
      } else {
        StatusOnlyAdvances(w, more);
      }
    }
  }

  lemma UnrecordedRestarts(w: World)
    requires Inv(w) && Terminal(w.status.fetchStatus) && !w.deleting && !w.status.fetchResult
    ensures OutcomeCanChange(w)
  {
    hide After;
    var run := [EditSpec(true), FetchJobLost, DoPass(NO_FAULTS)];
    AfterThree(w, run[0], run[1], run[2]);
    var u := w.(hasResult := true, objects := w.objects.(fetchJob := None));
    assert PassOf(u, NO_FAULTS).status.fetchStatus == Running;
    assert After(w, run).status.fetchStatus == Running;
  }

  /** A created fetch job whose reply is lost is not on record: losing that job lets a pass create it once more. */
  lemma LostReplyCreatesTwice(w: World)
    requires Inv(w) && !w.deleting && w.hasResult && !w.status.fetchResult && w.objects.fetchJob.None?
    requires Terminal(w.status.state) && w.status.subjobs != map[] && !Terminal(w.status.fetchStatus)
    ensures var f := NO_FAULTS.(createJob := Lost);
            var t := After(w, [DoPass(f), FetchReports(FetchJob(true, false)), DoPass(NO_FAULTS)]);
            && t.status.fetchStatus == Succeeded
            && After(t, [FetchJobLost, DoPass(NO_FAULTS)]).fetchJobs == w.fetchJobs + 2
            && After(t, [FetchJobLost, DoPass(NO_FAULTS)]).status.fetchStatus == Running
  {
    var f := NO_FAULTS.(createJob := Lost);
    AfterThree(w, DoPass(f), FetchReports(FetchJob(true, false)), DoPass(NO_FAULTS));
    var t1 := PassOf(w, f);
    assert t1.status == w.status && t1.fetchJobs == w.fetchJobs + 1;
    var t2 := Apply(t1, FetchReports(FetchJob(true, false)));
    var t := PassOf(t2, NO_FAULTS);
    assert t.status == w.status.(fetchStatus := Succeeded);
    AfterTwo(t, FetchJobLost, DoPass(NO_FAULTS));
  }

  function AskForResult(): seq<Action> { Reported(Succeeded) + [EditSpec(true)] }

  function LoseReply(): seq<Action> {
    [DoPass(NO_FAULTS.(createJob := Lost)), FetchReports(FetchJob(true, false)), DoPass(NO_FAULTS)]
  }

  /** And such a reply can be lost in the life of every new job: two fetch jobs, and Succeeded becomes Running. */
  lemma TwoFetchJobsAreReached(start: World)
    requires IsNew(start) && !start.deleting
    ensures After(start, AskForResult() + LoseReply()).status.fetchStatus == Succeeded
    ensures var w := After(start, AskForResult() + LoseReply() + [FetchJobLost, DoPass(NO_FAULTS)]);
            w.fetchJobs == 2 && w.status.fetchStatus == Running
  {
    hide LoseReply;
    var w := ReadyToFetch(start);
    AfterAppend(start, AskForResult(), LoseReply());
    AfterAppend(start, AskForResult() + LoseReply(), [FetchJobLost, DoPass(NO_FAULTS)]);
    LosingCreatesTwo(w);
  }

  lemma ReadyToFetch(start: World) returns (w: World)
    requires IsNew(start) && !start.deleting
    ensures w == After(start, AskForResult())
    ensures Inv(w) && !w.deleting && w.hasResult && !w.status.fetchResult && w.objects.fetchJob.None?
    ensures Terminal(w.status.state) && w.status.subjobs != map[] && w.status.fetchStatus == Empty && w.fetchJobs == 0
  {
    hide After, Reported;
    ReportIsStored(start, Succeeded);
    AfterAppend(start, Reported(Succeeded), [EditSpec(true)]);
    var before := After(start, Reported(Succeeded));
    AfterOne(before, EditSpec(true));
    w := After(start, AskForResult());
    assert JOB.id in w.status.subjobs;
  }

  lemma LosingCreatesTwo(w: World)
    requires Inv(w) && !w.deleting && w.hasResult && !w.status.fetchResult && w.objects.fetchJob.None?
    requires Terminal(w.status.state) && w.status.subjobs != map[] && w.status.fetchStatus == Empty && w.fetchJobs == 0
    ensures After(w, LoseReply()).status.fetchStatus == Succeeded
    ensures var t := After(After(w, LoseReply()), [FetchJobLost, DoPass(NO_FAULTS)]);
            t.fetchJobs == 2 && t.status.fetchStatus == Running
  {
    hide After, Inv;
    LostReplyCreatesTwice(w);
  }
}
