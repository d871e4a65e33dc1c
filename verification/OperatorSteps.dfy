/** What single passes of the operator create and store, outright: for each, the exact conditions. */
module OperatorSteps {
  import opened Kubernetes
  import opened Operator
  import opened OperatorRuns
  import opened Options

  // The size-car pod and the worker pod

  /** A size-car pod appears exactly in a pass over an unfinished job without pod and sub-jobs that gets that far. */
  lemma CarAppearsIff(w: World, a: Action)
    requires w.objects.car.None?
    ensures Apply(w, a).objects.car.Some? <==>
            && a.DoPass? && !w.deleting && w.status.state != Succeeded && w.status.state != Failed
            && w.status.subjobs == map[] && !a.f.getCar && !a.f.translate && a.f.createCar != Refused
    ensures Apply(w, a).objects.car.Some? ==> Apply(w, a).objects.car.value == Pod(Pending, NoMessage, false)
  {
    hide Recorded;
  }

  /** A worker pod appears exactly when the size-car pod has an id and names jobs, and no call before it fails. */
  lemma WorkerAppearsIff(w: World, a: Action)
    requires !w.objects.hasWorker
    ensures Apply(w, a).objects.hasWorker <==>
            && a.DoPass? && !w.deleting && w.status.state != Succeeded && w.status.state != Failed
            && NamesJobs(w) && !a.f.getCar && !a.f.getWorker && a.f.createWorker != Refused
  {
    hide Recorded;
  }

  /** The pod that a pass works on: the one there is, or the one it has just created. */
  predicate HasPod(w: World, f: Faults) {
    w.objects.car.Some? || (w.status.subjobs == map[] && !f.translate && f.createCar == Done)
  }

  function PodOf(w: World): Pod { if w.objects.car.Some? then w.objects.car.value else Pod(Pending, NoMessage, false) }

  /** The worker pod is there, or not to be made yet, or was made. A labelled pod has to have a message in JSON. */
  predicate WorkerSettled(w: World, f: Faults) {
    || w.objects.hasWorker
    || !PodOf(w).hasJobId
    || (PodOf(w).message.Infos? && (PodOf(w).message.jobs == [] || f.createWorker == Done))
  }

  /** Exactly when a pass over an unfinished job stores what it has found, and what that is. */
  lemma JobPassStoresIff(w: World, f: Faults)
    requires w.status.state != Succeeded && w.status.state != Failed
    ensures var r := Pass(w.status, w.hasResult, w.objects, f);
            && (Stored(r, f) <==>
                  && !f.getCar && HasPod(w, f) && !PodOf(w).message.NotJson?
                  && !f.getWorker && WorkerSettled(w, f) && !f.updateStatus)
            && (Stored(r, f) ==>
                  && r.status.state == PodOf(w).phase
                  && (PodOf(w).message == NoMessage ==> r.status.subjobs == w.status.subjobs)
                  && r.status.fetchResult == w.status.fetchResult && r.status.fetchStatus == w.status.fetchStatus)
  {
    hide Recorded;
  }

  // The fetch job

  /** A fetch job appears exactly for an ended job that asks for its result, has sub-jobs, and none on record. */
  lemma FetchJobAppearsIff(w: World, a: Action)
    ensures Apply(w, a).fetchJobs > w.fetchJobs <==>
            && a.DoPass? && !w.deleting && w.hasResult
            && (w.status.state == Succeeded || w.status.state == Failed) && w.status.subjobs != map[]
            && !w.status.fetchResult && w.objects.fetchJob.None?
            && !a.f.getJob && a.f.createJob != Refused
  {
    if a.DoPass? && !w.deleting && !Terminal(w.status.state) {
      hide JobPass;
      JobPassKeepsFetching(w.status, w.objects, a.f);
    }
  }

  /** A pass without failures that creates it puts it on record as Running. */
  lemma FetchJobIsRecorded(w: World)
    requires !w.deleting && w.hasResult && (w.status.state == Succeeded || w.status.state == Failed)
    requires w.status.subjobs != map[] && !w.status.fetchResult && w.objects.fetchJob.None?
    ensures PassOf(w, NO_FAULTS) == w.(
      status := w.status.(fetchResult := true, fetchStatus := Running),
      objects := w.objects.(fetchJob := Some(FetchJob(false, false))),
      fetchJobs := w.fetchJobs + 1)
  {
  }

  /** The fetch job's progress is recorded: a success counts for more than a failure, and neither is Running. */
  lemma FetchProgressIsRecorded(w: World, f: Faults)
    requires !w.deleting && w.hasResult && (w.status.state == Succeeded || w.status.state == Failed)
    requires w.status.subjobs != map[] && w.objects.fetchJob.Some? && !f.getJob && !f.updateStatus
    requires !w.status.fetchResult || (w.status.fetchStatus != Succeeded && w.status.fetchStatus != Failed)
    ensures var job := w.objects.fetchJob.value;
            var t := PassOf(w, f);
            && (job.succeeded ==> t.status.fetchStatus == Succeeded)
            && (!job.succeeded && job.failed ==> t.status.fetchStatus == Failed)
            && (!job.succeeded && !job.failed ==> t.status.fetchStatus == Running)
            && t.status.(fetchStatus := Empty) == w.status.(fetchStatus := Empty) && t.objects == w.objects
  {
  }

  /** An ended job without a wish for its result, or with its result fetched, is left alone. */
  lemma EndedJobIsLeftAlone(w: World, f: Faults)
    requires w.status.state == Succeeded || w.status.state == Failed
    requires var s := w.status;
             !w.hasResult || (s.fetchResult && (s.fetchStatus == Succeeded || s.fetchStatus == Failed))
    ensures PassOf(w, f) == w
  {
  }

  predicate NeverAsks(run: seq<Action>) {
    forall i | 0 <= i < |run| :: run[i] != EditSpec(true)
  }

  /** A job that never asks for its result never gets a fetch job. */
  lemma {:induction false} NeverAskedNeverFetched(w: World, run: seq<Action>)
    requires !w.hasResult && NeverAsks(run)
    ensures After(w, run).fetchJobs == w.fetchJobs
    decreases |run|
  {
    hide PassOf;
    if run != [] {
      NoStepFetches(w, run[0]);
      assert forall i | 0 <= i < |run[1..]| :: run[1..][i] == run[i + 1];
      NeverAskedNeverFetched(Apply(w, run[0]), run[1..]);
    }
  }

  lemma NoStepFetches(w: World, a: Action)
    requires !w.hasResult && a != EditSpec(true)
    ensures !Apply(w, a).hasResult && Apply(w, a).fetchJobs == w.fetchJobs
  {
    FetchJobAppearsIff(w, a);
    hide Pass;
  }
}
