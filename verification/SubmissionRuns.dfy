/**
 Runs of one virtual kubelet and its agent: CreatePod, UpdatePod and DeletePod calls for any pods, requests that the
 agent handles concurrently, sbatch calls with any outcome, and replies that never arrive.
 */
module SubmissionRuns {
  import opened GoText
  import opened Options
  import opened Submission

  datatype Handler = Handler(uid: Uid, at: Handling)

  datatype Job = Job(uid: Uid, id: JobId)

  /**
   cars are the pods created as size cars. labels holds the job ids that the API server has for pods, and queue every
   job that sbatch has queued so far.
   */
  datatype World = World(
    cars: set<Uid>,
    partition: string,
    knownJobs: map<Uid, JobId>,
    handlers: map<nat, Handler>,
    knownPods: map<Uid, string>,
    labels: map<Uid, string>,
    queue: seq<Job>)

  datatype Action =
    | Create(c: nat, pod: Pod)
    | Load(c: nat)
    | RunSbatch(c: nat, outcome: Sbatch)
    | Store(c: nat)
    | Finish(c: nat, labelled: bool)
    | Update(pod: Pod)
    | Delete(pod: Pod)
    | LabelWorker(uid: Uid, id: string)

  /** A copy of a pod, perhaps from before it was labelled. */
  predicate Copy(w: World, pod: Pod) {
    && (pod.role == SizeCar <==> pod.uid in w.cars)
    && (pod.jobId.Some? ==> pod.uid in w.labels && pod.jobId.value == w.labels[pod.uid])
  }

  predicate At(w: World, c: nat, h: Handling) { c in w.handlers && w.handlers[c].at == h }

  function Moved(w: World, c: nat, h: Handling): World
    requires c in w.handlers
  {
    w.(handlers := w.handlers[c := w.handlers[c].(at := h)])
  }

  function QueuedBy(uid: Uid, outcome: Sbatch): seq<Job> {
    if outcome.Rejected? then [] else [Job(uid, outcome.id)]
  }

  /** An action that is not possible changes nothing. */
  function Apply(w: World, a: Action): World {
    match a
    case Create(c, pod) =>
      if c !in w.handlers && Copy(w, pod) && RequestFor(pod, w.partition).Some?
         && ValidRequest(RequestFor(pod, w.partition).value)
      then w.(handlers := w.handlers[c := Handler(pod.uid, Arrived)]) else w
    case Load(c) =>
      if At(w, c, Arrived) then Moved(w, c, LoadStep(w.knownJobs, w.handlers[c].uid)) else w
    case RunSbatch(c, outcome) =>
      if At(w, c, Missed)
      then Moved(w, c, SbatchStep(outcome)).(queue := w.queue + QueuedBy(w.handlers[c].uid, outcome)) else w
    case Store(c) =>
      if c in w.handlers && w.handlers[c].at.Queued?
      then Moved(w, c, Answered(w.handlers[c].at.id)).(
             knownJobs := w.knownJobs[w.handlers[c].uid := w.handlers[c].at.id]) else w
    case Finish(c, labelled) =>
      if c in w.handlers && w.handlers[c].at.Answered?
      then
        var uid, id := w.handlers[c].uid, FormatInt(w.handlers[c].at.id);
        w.(knownPods := w.knownPods[uid := id], labels := if labelled then w.labels[uid := id] else w.labels)
      else w
    case Update(pod) =>
      if Copy(w, pod) && pod.jobId.Some? then w.(knownPods := w.knownPods[pod.uid := pod.jobId.value]) else w
    case Delete(pod) => w.(knownPods := w.knownPods - {pod.uid})
    case LabelWorker(uid, id) => if uid in w.cars then w else w.(labels := w.labels[uid := id])
  }

  function After(w: World, run: seq<Action>): World
    decreases |run|
  {
    if run == [] then w else After(Apply(w, run[0]), run[1..])
  }

  predicate IsStart(w: World) {
    && w.knownJobs == map[] && w.handlers == map[] && w.knownPods == map[] && w.queue == []
    && forall u :: u in w.cars ==> u !in w.labels
  }

  function JobsOf(queue: seq<Job>, u: Uid): seq<JobId> {
    if queue == [] then []
    else
      var n := |queue| - 1;
      JobsOf(queue[..n], u) + if queue[n].uid == u then [queue[n].id] else []
  }

  lemma JobsOfMore(queue: seq<Job>, u: Uid, v: Uid, outcome: Sbatch)
    ensures JobsOf(queue + QueuedBy(v, outcome), u)
            == JobsOf(queue, u) + if v == u && !outcome.Rejected? then [outcome.id] else []
  {
    var more := queue + QueuedBy(v, outcome);
    if outcome.Rejected? {
      assert more == queue;
    } else {
      assert more[..|more| - 1] == queue;
    }
  }

  // Only size-car pods are submitted, in any run

  predicate MaySubmit(w: World, u: Uid) { u in w.cars && u != "" && w.partition != "" }

  predicate CarsOnly(w: World) {
    && (forall c | c in w.handlers :: MaySubmit(w, w.handlers[c].uid))
    && (forall i | 0 <= i < |w.queue| :: MaySubmit(w, w.queue[i].uid))
  }

  lemma CreateIsForACar(w: World, c: nat, pod: Pod)
    ensures var t := Apply(w, Create(c, pod));
            t == w || (MaySubmit(w, pod.uid) && t == w.(handlers := w.handlers[c := Handler(pod.uid, Arrived)]))
  {
  }

  lemma NewHandlerKeepsCars(w: World, c: nat, u: Uid)
    requires CarsOnly(w) && MaySubmit(w, u)
    ensures CarsOnly(w.(handlers := w.handlers[c := Handler(u, Arrived)]))
  {
    hide MaySubmit;
    var t := w.(handlers := w.handlers[c := Handler(u, Arrived)]);
    forall v | MaySubmit(w, v) ensures MaySubmit(t, v) {
      SameCars(w, t, v);
    }
  }

  lemma SameCars(w: World, t: World, u: Uid)
    requires t.cars == w.cars && t.partition == w.partition
    ensures MaySubmit(t, u) == MaySubmit(w, u)
  {
  }

  /** A step of one handler that may queue a job for its pod. */
  lemma HandlerStepKeepsCars(w: World, c: nat, h: Handling, t: World, jobs: seq<Job>)
    requires CarsOnly(w) && c in w.handlers && t.cars == w.cars && t.partition == w.partition
    requires t.handlers == Moved(w, c, h).handlers && t.queue == w.queue + jobs
    requires forall i | 0 <= i < |jobs| :: jobs[i].uid == w.handlers[c].uid
    ensures CarsOnly(t)
  {
    hide MaySubmit;
    forall u ensures MaySubmit(t, u) == MaySubmit(w, u) {
      SameCars(w, t, u);
    }
  }

  lemma SameWorkKeepsCars(w: World, t: World)
    requires CarsOnly(w) && t.cars == w.cars && t.partition == w.partition
    requires t.handlers == w.handlers && t.queue == w.queue
    ensures CarsOnly(t)
  {
  }

  lemma StepKeepsCarsOnly(w: World, a: Action)
    requires CarsOnly(w)
    ensures CarsOnly(Apply(w, a)) && Apply(w, a).cars == w.cars
  {
    hide CarsOnly, MaySubmit, LoadStep, SbatchStep;
    var t := Apply(w, a);
    match a
    case Create(c, pod) =>
      CreateIsForACar(w, c, pod);
      if t != w { NewHandlerKeepsCars(w, c, pod.uid); }
    case Load(c) =>
      if At(w, c, Arrived) {
        HandlerStepKeepsCars(w, c, LoadStep(w.knownJobs, w.handlers[c].uid), t, []);
      }
    case RunSbatch(c, outcome) =>
      if At(w, c, Missed) {
        HandlerStepKeepsCars(w, c, SbatchStep(outcome), t, QueuedBy(w.handlers[c].uid, outcome));
      }
    case Store(c) =>
      if c in w.handlers && w.handlers[c].at.Queued? {
        HandlerStepKeepsCars(w, c, Answered(w.handlers[c].at.id), t, []);
      }
    case _ => SameWorkKeepsCars(w, t);
  }

  /** A worker pod, or any pod that is no size car, never reaches sbatch. */
  lemma {:induction false} WorkersNeverSubmit(w: World, run: seq<Action>)
    requires CarsOnly(w)
    ensures CarsOnly(After(w, run)) && After(w, run).cars == w.cars
    decreases |run|
  {
    hide CarsOnly;
    if run != [] {
      StepKeepsCarsOnly(w, run[0]);
      WorkersNeverSubmit(Apply(w, run[0]), run[1..]);
    }
  }

  // Careful runs: requests for one pod do not overlap, and sbatch prints the id of a job that it queues

  predicate Pending(h: Handling) { h.Arrived? || h.Missed? || h.Queued? }

  predicate Busy(w: World, c: nat, u: Uid) {
    c in w.handlers && w.handlers[c].uid == u && Pending(w.handlers[c].at)
  }

  ghost predicate Careful(w: World, a: Action) {
    && (a.Create? ==> forall c :: !Busy(w, c, a.pod.uid))
    && (a.RunSbatch? ==> !a.outcome.Garbled?)
  }

  ghost predicate CarefulRun(w: World, run: seq<Action>)
    decreases |run|
  {
    run == [] || (Careful(w, run[0]) && CarefulRun(Apply(w, run[0]), run[1..]))
  }

  predicate Remembers(ids: map<Uid, string>, u: Uid, knownJobs: map<Uid, JobId>) {
    u in ids ==> u in knownJobs && ids[u] == FormatInt(knownJobs[u])
  }

  /** The agent's side of one pod. */
  ghost predicate AgentInv(w: World, u: Uid) {
    var jobs := JobsOf(w.queue, u);
    && (forall c, d :: Busy(w, c, u) && Busy(w, d, u) ==> c == d)
    && (u in w.knownJobs ==> jobs == [w.knownJobs[u]])
    && (u !in w.knownJobs ==> jobs == [] || exists c :: Busy(w, c, u) && w.handlers[c].at.Queued?)
    && (forall c :: Busy(w, c, u) ==> BusyInv(w.handlers[c].at, u in w.knownJobs, jobs))
    && (forall c | c in w.handlers :: AnswerInv(w.handlers[c], u, w.knownJobs))
  }

  /** What holds of a pod while a request for it is handled. */
  predicate BusyInv(h: Handling, known: bool, jobs: seq<JobId>) {
    match h
    case Missed => !known && jobs == []
    case Queued(id) => !known && jobs == [id]
    case _ => true
  }

  predicate AnswerInv(h: Handler, u: Uid, knownJobs: map<Uid, JobId>) {
    h.uid == u && h.at.Answered? ==> u in knownJobs && knownJobs[u] == h.at.id
  }

  /** The kubelet's side of one size-car pod. */
  predicate KubeletInv(w: World, u: Uid) {
    u in w.cars ==> Remembers(w.knownPods, u, w.knownJobs) && Remembers(w.labels, u, w.knownJobs)
  }

  ghost predicate Inv(w: World) { forall u :: AgentInv(w, u) && KubeletInv(w, u) }

  lemma CreateKeeps(w: World, a: Action, u: Uid)
    requires a.Create? && Careful(w, a) && AgentInv(w, u)
    ensures AgentInv(Apply(w, a), u)
  {
    hide JobsOf, LoadStep;
    var t := Apply(w, a);
    if t != w {
      forall d | d != a.c ensures Busy(t, d, u) == Busy(w, d, u) {
      }
      assert forall d :: Busy(t, d, u) && d != a.c ==> Busy(w, d, u);
      if u !in w.knownJobs && JobsOf(w.queue, u) != [] {
        var c :| Busy(w, c, u) && w.handlers[c].at.Queued?;
        assert Busy(t, c, u) && t.handlers[c].at.Queued?;
      }
    }
  }

  /** The agent's side does not depend on the kubelet's. */
  lemma AgentFrame(w: World, t: World, u: Uid)
    requires AgentInv(w, u)
    requires t.handlers == w.handlers && t.knownJobs == w.knownJobs && t.queue == w.queue
    ensures AgentInv(t, u)
  {
    hide JobsOf, BusyInv, AnswerInv;
    assert forall c :: Busy(t, c, u) == Busy(w, c, u);
  }

  /** A step of another pod's request. */
  lemma OtherPod(w: World, c: nat, h: Handling, t: World, u: Uid)
    requires AgentInv(w, u) && c in w.handlers && w.handlers[c].uid != u
    requires t.handlers == Moved(w, c, h).handlers
    requires JobsOf(t.queue, u) == JobsOf(w.queue, u)
    requires u in w.knownJobs <==> u in t.knownJobs
    requires u in w.knownJobs ==> t.knownJobs[u] == w.knownJobs[u]
    ensures AgentInv(t, u)
  {
    hide JobsOf, BusyInv;
    assert forall d :: Busy(t, d, u) == Busy(w, d, u);
    forall d | d in t.handlers ensures AnswerInv(t.handlers[d], u, t.knownJobs) {
      assert d in w.handlers && AnswerInv(w.handlers[d], u, w.knownJobs);
    }
  }

  /** A step of this pod's only pending request. */
  lemma ThisPod(w: World, c: nat, h: Handling, t: World, u: Uid)
    requires AgentInv(w, u) && Busy(w, c, u)
    requires t.handlers == Moved(w, c, h).handlers
    requires u in t.knownJobs ==> JobsOf(t.queue, u) == [t.knownJobs[u]]
    requires u !in t.knownJobs ==> JobsOf(t.queue, u) == [] || h.Queued?
    requires BusyInv(h, u in t.knownJobs, JobsOf(t.queue, u))
    requires AnswerInv(Handler(u, h), u, t.knownJobs)
    requires u in w.knownJobs ==> u in t.knownJobs && t.knownJobs[u] == w.knownJobs[u]
    ensures AgentInv(t, u)
  {
    hide JobsOf, BusyInv;
    assert forall d :: Busy(t, d, u) ==> Busy(w, d, u);
    forall d | d in t.handlers ensures AnswerInv(t.handlers[d], u, t.knownJobs) {
      if d != c {
        assert d in w.handlers && AnswerInv(w.handlers[d], u, w.knownJobs);
      }
    }
    if h.Queued? {
      assert Busy(t, c, u);
    }
  }

  lemma ArrivedMeansNoJob(w: World, c: nat, u: Uid)
    requires AgentInv(w, u) && Busy(w, c, u) && w.handlers[c].at.Arrived? && u !in w.knownJobs
    ensures JobsOf(w.queue, u) == []
  {
    hide JobsOf;
  }

  lemma LoadKeeps(w: World, a: Action, u: Uid)
    requires a.Load? && AgentInv(w, u)
    ensures AgentInv(Apply(w, a), u)
  {
    hide AgentInv, JobsOf;
    if At(w, a.c, Arrived) {
      var h := LoadStep(w.knownJobs, w.handlers[a.c].uid);
      if w.handlers[a.c].uid == u {
        AgentFacts(w, u);
        if u !in w.knownJobs {
          ArrivedMeansNoJob(w, a.c, u);
        }
        ThisPod(w, a.c, h, Apply(w, a), u);
      } else {
        OtherPod(w, a.c, h, Apply(w, a), u);
      }
    }
  }

  lemma AgentFacts(w: World, u: Uid)
    requires AgentInv(w, u)
    ensures u in w.knownJobs ==> JobsOf(w.queue, u) == [w.knownJobs[u]]
    ensures forall c :: Busy(w, c, u) ==> BusyInv(w.handlers[c].at, u in w.knownJobs, JobsOf(w.queue, u))
    ensures forall c | c in w.handlers :: AnswerInv(w.handlers[c], u, w.knownJobs)
  {
    hide JobsOf;
  }

  lemma SbatchKeeps(w: World, a: Action, u: Uid)
    requires a.RunSbatch? && Careful(w, a) && AgentInv(w, u)
    ensures AgentInv(Apply(w, a), u)
  {
    hide AgentInv, JobsOf;
    if At(w, a.c, Missed) {
      var v := w.handlers[a.c].uid;
      JobsOfMore(w.queue, u, v, a.outcome);
      AgentFacts(w, u);
      if v == u {
        assert Busy(w, a.c, u);
        ThisPod(w, a.c, SbatchStep(a.outcome), Apply(w, a), u);
      } else {
        OtherPod(w, a.c, SbatchStep(a.outcome), Apply(w, a), u);
      }
    }
  }

  lemma StoreKeeps(w: World, a: Action, u: Uid)
    requires a.Store? && AgentInv(w, u)
    ensures AgentInv(Apply(w, a), u)
  {
    hide AgentInv, JobsOf;
    if a.c in w.handlers && w.handlers[a.c].at.Queued? {
      var h := Answered(w.handlers[a.c].at.id);
      AgentFacts(w, u);
      if w.handlers[a.c].uid == u {
        assert Busy(w, a.c, u);
        ThisPod(w, a.c, h, Apply(w, a), u);
      } else {
        OtherPod(w, a.c, h, Apply(w, a), u);
      }
    }
  }

  lemma AgentKeeps(w: World, a: Action, u: Uid)
    requires Careful(w, a) && AgentInv(w, u)
    ensures AgentInv(Apply(w, a), u)
  {
    hide AgentInv, Careful, JobsOf;
    match a
    case Create(_, _) => CreateKeeps(w, a, u);
    case Load(_) => LoadKeeps(w, a, u);
    case RunSbatch(_, _) => SbatchKeeps(w, a, u);
    case Store(_) => StoreKeeps(w, a, u);
    case _ => AgentFrame(w, Apply(w, a), u);
  }

  lemma KubeletKeeps(w: World, a: Action, u: Uid)
    requires AgentInv(w, u) && KubeletInv(w, u)
    ensures KubeletInv(Apply(w, a), u)
  {
    hide AgentInv, JobsOf, FormatInt;
    AgentFacts(w, u);
    if a.Store? && a.c in w.handlers && w.handlers[a.c].at.Queued? && w.handlers[a.c].uid == u {
      assert Busy(w, a.c, u);
    }
  }

  lemma StepKeeps(w: World, a: Action)
    requires Inv(w) && Careful(w, a)
    ensures Inv(Apply(w, a))
  {
    hide AgentInv, KubeletInv, Careful, Apply;
    forall u ensures AgentInv(Apply(w, a), u) && KubeletInv(Apply(w, a), u) {
      AgentKeeps(w, a, u);
      KubeletKeeps(w, a, u);
    }
  }

  lemma {:induction false} RunKeeps(w: World, run: seq<Action>)
    requires Inv(w) && CarefulRun(w, run)
    ensures Inv(After(w, run))
    decreases |run|
  {
    hide Inv, Careful;
    if run != [] {
      StepKeeps(w, run[0]);
      RunKeeps(Apply(w, run[0]), run[1..]);
    }
  }

  lemma StartIsInv(w: World)
    requires IsStart(w)
    ensures Inv(w) && CarsOnly(w)
  {
  }

  /** In a careful run each pod is submitted at most once, and every answer for it names that job. */
  lemma SubmittedOnce(start: World, run: seq<Action>, u: Uid)
    requires IsStart(start) && CarefulRun(start, run)
    ensures var w := After(start, run);
            && |JobsOf(w.queue, u)| <= 1
            && (JobsOf(w.queue, u) != [] ==> u in start.cars)
            && forall c | c in w.handlers && w.handlers[c].uid == u && w.handlers[c].at.Answered? ::
                 JobsOf(w.queue, u) == [w.handlers[c].at.id]
  {
    StartIsInv(start);
    RunKeeps(start, run);
    WorkersNeverSubmit(start, run);
    var w := After(start, run);
    assert AgentInv(w, u) by { hide AgentInv; }
    AtMostOne(w, u);
    if JobsOf(w.queue, u) != [] {
      JobIsOfACar(w, u);
    }
  }

  lemma AtMostOne(w: World, u: Uid)
    requires AgentInv(w, u)
    ensures |JobsOf(w.queue, u)| <= 1
    ensures forall c | c in w.handlers && w.handlers[c].uid == u && w.handlers[c].at.Answered? ::
              JobsOf(w.queue, u) == [w.handlers[c].at.id]
  {
    hide JobsOf;
    forall c | c in w.handlers && w.handlers[c].uid == u && w.handlers[c].at.Answered?
      ensures JobsOf(w.queue, u) == [w.handlers[c].at.id] {
      assert AnswerInv(w.handlers[c], u, w.knownJobs);
    }
  }

  lemma {:induction false} JobIsQueued(queue: seq<Job>, u: Uid)
    requires JobsOf(queue, u) != []
    ensures exists i | 0 <= i < |queue| :: queue[i].uid == u
    decreases |queue|
  {
    var n := |queue| - 1;
    if queue[n].uid != u {
      JobIsQueued(queue[..n], u);
      var i :| 0 <= i < n && queue[..n][i].uid == u;
      assert queue[i].uid == u;
    }
  }

  lemma JobIsOfACar(w: World, u: Uid)
    requires CarsOnly(w) && JobsOf(w.queue, u) != []
    ensures u in w.cars && u != "" && w.partition != ""
  {
    JobIsQueued(w.queue, u);
  }

  /** What DeletePod asks the agent to cancel. */
  function Cancelled(w: World, pod: Pod, failing: set<int>): seq<int> {
    var id := SlurmJobId(pod, w.knownPods);
    if id.None? then [] else Cancellations(Split(id.value, ','), failing)
  }

  /**
   In a careful run, deleting a size-car pod cancels exactly the pod's job if and only if the kubelet knows an id for the
   pod, or the pod has no job; otherwise it cancels nothing.
   */
  lemma DeletionCancelsTheJobIff(start: World, run: seq<Action>, pod: Pod, failing: set<int>)
    requires IsStart(start) && CarefulRun(start, run)
    requires Copy(After(start, run), pod) && pod.role == SizeCar
    ensures var w := After(start, run);
            && (Cancelled(w, pod, failing) == JobsOf(w.queue, pod.uid)
                <==> SlurmJobId(pod, w.knownPods).Some? || JobsOf(w.queue, pod.uid) == [])
            && (Cancelled(w, pod, failing) == [] || Cancelled(w, pod, failing) == JobsOf(w.queue, pod.uid))
  {
    StartIsInv(start);
    RunKeeps(start, run);
    var w := After(start, run);
    KnownIsTheJob(w, pod);
    if SlurmJobId(pod, w.knownPods).Some? {
      CancelsWhatWasPrinted(w.knownJobs[pod.uid], failing);
    }
  }

  lemma KnownIsTheJob(w: World, pod: Pod)
    requires Inv(w) && Copy(w, pod) && pod.role == SizeCar
    ensures SlurmJobId(pod, w.knownPods).Some? ==>
              && pod.uid in w.knownJobs
              && SlurmJobId(pod, w.knownPods).value == FormatInt(w.knownJobs[pod.uid])
              && JobsOf(w.queue, pod.uid) == [w.knownJobs[pod.uid]]
  {
    hide AgentInv, JobsOf, FormatInt;
    assert KubeletInv(w, pod.uid);
    AgentFacts(w, pod.uid);
  }

  // What single steps of the kubelet start, remember and forget

  /** A request arrives at the agent exactly if the kubelet is given an unlabelled size car with one command to run. */
  lemma RequestArrivesIff(w: World, a: Action)
    ensures Apply(w, a).handlers.Keys != w.handlers.Keys <==>
            && a.Create? && a.c !in w.handlers && Copy(w, a.pod)
            && !a.pod.daemonSet && a.pod.role == SizeCar && a.pod.jobId.None?
            && |a.pod.commands| == 1 && |a.pod.commands[0]| == 1
            && a.pod.commands[0][0] != "" && a.pod.uid != "" && w.partition != ""
    ensures a.Create? && Apply(w, a) != w ==>
              Apply(w, a) == w.(handlers := w.handlers[a.c := Handler(a.pod.uid, Arrived)])
  {
    if a.Create? && Apply(w, a) != w {
      assert a.c in Apply(w, a).handlers.Keys && a.c !in w.handlers.Keys;
    }
  }

  /** The answer that an action brings to the kubelet, and the pod it is for. */
  predicate Brings(w: World, a: Action, u: Uid, id: string) {
    || (a.Finish? && a.c in w.handlers && w.handlers[a.c].uid == u
        && w.handlers[a.c].at.Answered? && id == FormatInt(w.handlers[a.c].at.id))
    || (a.Update? && Copy(w, a.pod) && a.pod.uid == u && a.pod.jobId == Some(id))
  }

  /** The kubelet knows an id exactly if an answer or a label just brought it, or it did and the pod is not deleted. */
  lemma KnowsIff(w: World, a: Action, u: Uid, id: string)
    ensures var t := Apply(w, a);
            (u in t.knownPods && t.knownPods[u] == id) <==>
              || Brings(w, a, u, id)
              || (u in w.knownPods && w.knownPods[u] == id && !(a.Delete? && a.pod.uid == u)
                  && forall other :: Brings(w, a, u, other) ==> other == id)
  {
    hide FormatInt;
    if a.Finish? && a.c in w.handlers && w.handlers[a.c].at.Answered? {
      assert Brings(w, a, w.handlers[a.c].uid, FormatInt(w.handlers[a.c].at.id));
    }
    if a.Update? && Copy(w, a.pod) && a.pod.jobId.Some? {
      assert Brings(w, a, a.pod.uid, a.pod.jobId.value);
    }
  }

  /** A size car keeps its label until an answer that also reaches the API server gives it the answered id. */
  lemma LabelledIff(w: World, a: Action, u: Uid, id: string)
    requires u in w.cars
    ensures var t := Apply(w, a);
            (u in t.labels && t.labels[u] == id) <==>
              if a.Finish? && a.labelled && a.c in w.handlers && w.handlers[a.c].uid == u && w.handlers[a.c].at.Answered?
              then id == FormatInt(w.handlers[a.c].at.id)
              else u in w.labels && w.labels[u] == id
  {
    hide FormatInt;
  }

  /** So an answered job can be cancelled: deleting its pod right after the answer asks for just that job. */
  lemma AnsweredCanBeCancelled(w: World, c: nat, labelled: bool, pod: Pod, failing: set<int>)
    requires c in w.handlers && w.handlers[c].at.Answered? && w.handlers[c].uid == pod.uid
    requires pod.jobId.None? || (labelled && Copy(Apply(w, Finish(c, labelled)), pod))
    ensures Cancelled(Apply(w, Finish(c, labelled)), pod, failing) == [w.handlers[c].at.id]
  {
    CancelsWhatWasPrinted(w.handlers[c].at.id, failing);
  }
}
