/**
 pkg/slurm-bridge-operator/slurmbridgejob_controller.go: one reconcile pass over a SlurmBridgeJob. The API server's
 objects that belong to the job are in `Objects`; every call to it may fail.
 */
module Operator {
  import opened Kubernetes
  import opened Options

  type JobId = string

  /** What is recorded of a Slurm job; the many fields are one here. */
  datatype JobInfo = JobInfo(id: JobId, detail: string)

  /** A pod's status message: none, one that is not JSON, or the infos of its Slurm jobs. */
  datatype Message = NoMessage | NotJson | Infos(jobs: seq<JobInfo>)

  datatype Pod = Pod(phase: Phase, message: Message, hasJobId: bool)

  datatype FetchJob = FetchJob(succeeded: bool, failed: bool)

  datatype Status = Status(state: Phase, subjobs: map<JobId, string>, fetchResult: bool, fetchStatus: Phase)

  datatype Objects = Objects(car: Option<Pod>, hasWorker: bool, fetchJob: Option<FetchJob>)

  /** Which calls of a pass fail, other than by "not found"; translation of the job into a pod counts as a call. */
  datatype Faults = Faults(
    getCar: bool,
    translate: bool,
    createCar: Reply,
    getWorker: bool,
    createWorker: Reply,
    getJob: bool,
    createJob: Reply,
    updateStatus: bool)

  /** The API server gives a new pod the phase Pending. */
  const NEW_POD := Pod(Pending, NoMessage, false)

  function Recorded(subjobs: map<JobId, string>, jobs: seq<JobInfo>): map<JobId, string>
    decreases |jobs|
  {
    if jobs == [] then subjobs
    else
      var n := |jobs| - 1;
      Recorded(subjobs, jobs[..n])[jobs[n].id := jobs[n].detail]
  }

  predicate LastOf(jobs: seq<JobInfo>, id: JobId, i: nat) {
    && i < |jobs| && jobs[i].id == id
    && forall k :: i < k < |jobs| ==> jobs[k].id != id
  }

  /** The last info of an id is what is recorded under it. */
  lemma {:induction false} RecordedIsTheLast(subjobs: map<JobId, string>, jobs: seq<JobInfo>, id: JobId, i: nat)
    requires LastOf(jobs, id, i)
    ensures id in Recorded(subjobs, jobs) && Recorded(subjobs, jobs)[id] == jobs[i].detail
    decreases |jobs|
  {
    var n := |jobs| - 1;
    if i < n {
      assert jobs[n].id != id;
      assert LastOf(jobs[..n], id, i);
      RecordedIsTheLast(subjobs, jobs[..n], id, i);
    }
  }

  /** The entries of other ids stay. */
  lemma {:induction false} OtherIdsStay(subjobs: map<JobId, string>, jobs: seq<JobInfo>, id: JobId)
    requires forall k :: 0 <= k < |jobs| ==> jobs[k].id != id
    ensures id in Recorded(subjobs, jobs) <==> id in subjobs
    ensures id in subjobs ==> Recorded(subjobs, jobs)[id] == subjobs[id]
    decreases |jobs|
  {
    if jobs != [] {
      OtherIdsStay(subjobs, jobs[..|jobs| - 1], id);
    }
  }

  /** UpdateSBJStatus: the state is taken over before the message turns out not to be JSON. */
  function UpdatedStatus(s: Status, pod: Pod): Status {
    var s := s.(state := pod.phase);
    if pod.message.Infos? then s.(subjobs := Recorded(s.subjobs, pod.message.jobs)) else s
  }

  /** What a step of a pass leads to: go on, return an error, or dereference a nil pod. */
  datatype Next = Continue | Error | Crash

  /** ReconcileSizeCarPods, called when the size-car pod is not found. */
  function CarObjects(s: Status, o: Objects, f: Faults): Objects {
    if s.subjobs != map[] || f.translate || f.createCar == Refused then o else o.(car := Some(NEW_POD))
  }

  /** ReconcileWorkerPods: a worker is created once the size-car pod has a job id and infos. */
  predicate WorkerWanted(pod: Pod) { pod.hasJobId && pod.message.Infos? && pod.message.jobs != [] }

  /** A message that is missing or no JSON is an error there. */
  predicate WorkerError(pod: Pod) { pod.hasJobId && !pod.message.Infos? }

  datatype PassResult = PassResult(status: Status, objects: Objects, next: Next)

  function WorkerPass(s: Status, o: Objects, pod: Pod, f: Faults): PassResult {
    if f.getWorker then PassResult(s, o, Error)
    else if o.hasWorker then PassResult(s, o, Continue)
    else if WorkerError(pod) then PassResult(s, o, Error)
    else if !WorkerWanted(pod) then PassResult(s, o, Continue)
    else
      PassResult(s, if f.createWorker == Refused then o else o.(hasWorker := true),
                 if f.createWorker == Done then Continue else Error)
  }

  function UpdatePass(s: Status, o: Objects, pod: Pod, f: Faults): PassResult {
    if pod.message.NotJson? then PassResult(UpdatedStatus(s, pod), o, Error)
    else WorkerPass(UpdatedStatus(s, pod), o, pod, f)
  }

  /** ReconcileSlurmBridgeJob. */
  function JobPass(s: Status, o: Objects, f: Faults): PassResult {
    if f.getCar then PassResult(s, o, Error)
    else if o.car.Some? then UpdatePass(s, o, o.car.value, f)
    else if s.subjobs != map[] then PassResult(s.(state := Failed), o, Crash)
    else if f.translate || f.createCar != Done then PassResult(s, CarObjects(s, o, f), Error)
    else UpdatePass(s, CarObjects(s, o, f), NEW_POD, f)
  }

  function FetchPhase(j: FetchJob): Phase {
    if j.succeeded then Succeeded else if j.failed then Failed else Running
  }

  /** ReconcileSlurmBridgeJobResult. */
  function ResultPass(s: Status, o: Objects, f: Faults): PassResult {
    if s.subjobs == map[] then PassResult(s, o, Continue)
    else if f.getJob then PassResult(s, o, Error)
    else if o.fetchJob.Some? then PassResult(s.(fetchStatus := FetchPhase(o.fetchJob.value)), o, Continue)
    else if s.fetchResult then PassResult(s, o, Continue)
    else if f.createJob != Done then
      PassResult(s, if f.createJob == Lost then o.(fetchJob := Some(FetchJob(false, false))) else o, Error)
    else
      PassResult(s.(fetchResult := true, fetchStatus := Running),
                 o.(fetchJob := Some(FetchJob(false, false))), Continue)
  }

  /** Reconcile: which of the two a pass does, or none. */
  datatype Work = Nothing | ReconcileJob | ReconcileResult

  function WorkFor(s: Status, hasResult: bool): Work {
    if !Terminal(s.state) then ReconcileJob
    else if !hasResult || (s.fetchResult && Terminal(s.fetchStatus)) then Nothing
    else ReconcileResult
  }

  function Pass(s: Status, hasResult: bool, o: Objects, f: Faults): PassResult {
    match WorkFor(s, hasResult)
    case Nothing => PassResult(s, o, Continue)
    case ReconcileJob => JobPass(s, o, f)
    case ReconcileResult => ResultPass(s, o, f)
  }

  /** The status of a pass is written only at its end, and only if that call succeeds. */
  predicate Stored(r: PassResult, f: Faults) { r.next == Continue && !f.updateStatus }

  /** The API server's objects, changed by create calls. */
  class Cluster {
    var car: Option<Pod>
    var hasWorker: bool
    var fetchJob: Option<FetchJob>

    ghost function State(): Objects
      reads this
    {
      Objects(car, hasWorker, fetchJob)
    }

    method CreateCar(reply: Reply) returns (ok: bool)
      modifies this
      ensures State() == if reply == Refused then old(State()) else old(State()).(car := Some(NEW_POD))
      ensures ok <==> reply == Done
    {
      if reply != Refused {
        car := Some(NEW_POD);
      }
      ok := reply == Done;
    }

    method CreateWorker(reply: Reply) returns (ok: bool)
      modifies this
      ensures State() == if reply == Refused then old(State()) else old(State()).(hasWorker := true)
      ensures ok <==> reply == Done
    {
      if reply != Refused {
        hasWorker := true;
      }
      ok := reply == Done;
    }

    method CreateFetchJob(reply: Reply) returns (ok: bool)
      modifies this
      ensures State() == if reply == Refused then old(State())
                         else old(State()).(fetchJob := Some(FetchJob(false, false)))
      ensures ok <==> reply == Done
    {
      if reply != Refused {
        fetchJob := Some(FetchJob(false, false));
      }
      ok := reply == Done;
    }
  }

  /** The copy of the job that one pass works on; what it holds at the end is stored only if the pass says so. */
  class SlurmBridgeJob {
    const hasResult: bool
    var state: Phase
    var subjobs: map<JobId, string>
    var fetchResult: bool
    var fetchStatus: Phase

    ghost function State(): Status
      reads this
    {
      Status(state, subjobs, fetchResult, fetchStatus)
    }

    constructor DeepCopy(job: SlurmBridgeJob)
      ensures State() == job.State() && hasResult == job.hasResult
    {
      hasResult := job.hasResult;
      state, subjobs, fetchResult, fetchStatus := job.state, job.subjobs, job.fetchResult, job.fetchStatus;
    }

    method UpdateSBJStatus(pod: Pod) returns (next: Next)
      modifies this
      ensures State() == UpdatedStatus(old(State()), pod)
      ensures state == pod.phase && (!pod.message.Infos? ==> subjobs == old(subjobs))
      ensures next == if pod.message.NotJson? then Error else Continue
    {
      if state != pod.phase {
        state := pod.phase;
      }
      if pod.message.NotJson? {
        return Error;
      }
      if pod.message.Infos? {
        var jobs := pod.message.jobs;
        var i := 0;
        while i < |jobs|
          invariant 0 <= i <= |jobs|
          invariant subjobs == Recorded(old(subjobs), jobs[..i])
          invariant State() == old(State()).(state := pod.phase, subjobs := subjobs)
        {
          assert jobs[..i + 1][..i] == jobs[..i];
          subjobs := subjobs[jobs[i].id := jobs[i].detail];
          i := i + 1;
        }
        assert jobs[..i] == jobs;
      }
      return Continue;
    }

    /** The pod is nil when it was created once and is gone; the caller does not expect that. */
    method ReconcileSizeCarPods(c: Cluster, f: Faults) returns (pod: Option<Pod>, next: Next)
      modifies this, c
      ensures c.State() == CarObjects(old(State()), old(c.State()), f)
      ensures State() == if old(subjobs) != map[] then old(State()).(state := Failed) else old(State())
      ensures old(subjobs) != map[] ==> pod == None && next == Continue
      ensures old(subjobs) == map[] ==> next == if f.translate || f.createCar != Done then Error else Continue
      ensures old(subjobs) == map[] && next == Continue ==> pod == Some(NEW_POD)
    {
      if subjobs != map[] {
        state := Failed;
        return None, Continue;
      }
      if f.translate {
        return None, Error;
      }
      var ok := c.CreateCar(f.createCar);
      if !ok {
        return None, Error;
      }
      return Some(NEW_POD), Continue;
    }

    method ReconcileWorkerPods(pod: Pod, c: Cluster, f: Faults) returns (next: Next)
      requires !c.hasWorker && !f.getWorker
      modifies c
      ensures PassResult(State(), c.State(), next) == WorkerPass(State(), old(c.State()), pod, f)
    {
      if !pod.hasJobId {
        return Continue;
      }
      if !pod.message.Infos? {
        return Error;
      }
      if |pod.message.jobs| == 0 {
        return Continue;
      }
      var ok := c.CreateWorker(f.createWorker);
      if !ok {
        return Error;
      }
      return Continue;
    }

    method ReconcileSlurmBridgeJob(c: Cluster, f: Faults) returns (next: Next)
      modifies this, c
      ensures PassResult(State(), c.State(), next) == JobPass(old(State()), old(c.State()), f)
    {
      if f.getCar {
        return Error;
      }
      var pod := c.car;
      if pod.None? {
        pod, next := ReconcileSizeCarPods(c, f);
        if next == Error {
          return;
        }
      }
      if pod.None? {
        return Crash;
      }
      next := UpdateSBJStatus(pod.value);
      if next == Error {
        return;
      }
      if f.getWorker {
        return Error;
      }
      if !c.hasWorker {
        next := ReconcileWorkerPods(pod.value, c, f);
      }
    }

    method ReconcileSlurmBridgeJobResult(c: Cluster, f: Faults) returns (next: Next)
      modifies this, c
      ensures PassResult(State(), c.State(), next) == ResultPass(old(State()), old(c.State()), f)
    {
      if subjobs == map[] {
        return Continue;
      }
      if f.getJob {
        return Error;
      }
      var job := c.fetchJob;
      if job.None? {
        if fetchResult {
          return Continue;
        }
        var ok := c.CreateFetchJob(f.createJob);
        if !ok {
          return Error;
        }
        fetchResult := true;
        job := Some(FetchJob(false, false));
      }
      if job.value.succeeded {
        fetchStatus := Succeeded;
      } else if job.value.failed {
        fetchStatus := Failed;
      } else {
        fetchStatus := Running;
      }
      return Continue;
    }

    method Reconcile(c: Cluster, f: Faults) returns (next: Next)
      modifies this, c
      ensures PassResult(State(), c.State(), next) == Pass(old(State()), hasResult, old(c.State()), f)
    {
      next := Continue;
      var needReconcile := !(state == Succeeded || state == Failed);
      if !needReconcile && !hasResult {
        return;
      }
      if !needReconcile {
        if fetchResult && (fetchStatus == Failed || fetchStatus == Succeeded) {
          return;
        }
        next := ReconcileSlurmBridgeJobResult(c, f);
      } else {
        next := ReconcileSlurmBridgeJob(c, f);
      }
    }
  }

  /** All of Reconcile: `stored` is the job in the API server, of which the pass changes a copy. */
  method ReconcileRequest(stored: SlurmBridgeJob, deleting: bool, c: Cluster, f: Faults)
    modifies stored, c
    ensures deleting ==> stored.State() == old(stored.State()) && c.State() == old(c.State())
    ensures !deleting ==>
              var r := Pass(old(stored.State()), stored.hasResult, old(c.State()), f);
              && c.State() == r.objects
              && stored.State() == if Stored(r, f) then r.status else old(stored.State())
  {
    hide Pass;
    if deleting {
      return;
    }
    var sjb := new SlurmBridgeJob.DeepCopy(stored);
    var next := sjb.Reconcile(c, f);
    if next != Continue {
      return;
    }
    if !f.updateStatus {
      stored.state, stored.subjobs := sjb.state, sjb.subjobs;
      stored.fetchResult, stored.fetchStatus := sjb.fetchResult, sjb.fetchStatus;
    }
  }
}
