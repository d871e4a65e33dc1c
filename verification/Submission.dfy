/**
 Submission of a size-car pod: the agent's SubmitJob (pkg/slurm-agent/api/slurm.go), whose table of known jobs keeps a
 pod from being submitted twice, and the pod handlers of the virtual kubelet (pkg/slurm-virtual-kubelet/provider.go).
 */
module Submission {
  import opened Options
  import opened GoText

  type Uid = string

  type JobId = n: int | IsInt64(n) witness 0

  datatype Role = SizeCar | Worker | OtherRole

  /** jobId is the label that holds the Slurm job's id, commands the command line of each container. */
  datatype Pod = Pod(uid: Uid, daemonSet: bool, role: Role, jobId: Option<string>, commands: seq<seq<string>>)

  datatype Request = Request(uid: Uid, partition: string, script: string)

  predicate NeedReconcile(pod: Pod) { !pod.daemonSet && pod.jobId.None? && pod.role == SizeCar }

  predicate ValidPod(pod: Pod) { |pod.commands| == 1 && |pod.commands[0]| == 1 }

  /** What CreatePod sends to the agent, if anything. */
  function RequestFor(pod: Pod, partition: string): Option<Request> {
    if NeedReconcile(pod) && ValidPod(pod) then Some(Request(pod.uid, partition, pod.commands[0][0])) else None
  }

  predicate ValidRequest(r: Request) { r.script != "" && r.partition != "" && r.uid != "" }

  /** What sbatch does: queue a job and print its id, queue a job but print something else, or neither. */
  datatype Sbatch = Accepted(id: JobId) | Garbled(id: JobId) | Rejected

  /** A request in SubmitJob. Requests are handled concurrently; between two of these points another may run. */
  datatype Handling =
    | Arrived
    | Missed                 // its uid was not known
    | Queued(id: JobId)      // sbatch printed this id, which is not stored yet
    | Answered(id: JobId)
    | Refused

  function LoadStep(knownJobs: map<Uid, JobId>, uid: Uid): Handling {
    if uid in knownJobs then Answered(knownJobs[uid]) else Missed
  }

  function SbatchStep(outcome: Sbatch): Handling {
    if outcome.Accepted? then Queued(outcome.id) else Refused
  }

  class Slurm {
    var knownJobs: map<Uid, JobId>

    method Load(uid: Uid) returns (h: Handling)
      ensures h == LoadStep(knownJobs, uid)
      ensures if uid in knownJobs then h == Answered(knownJobs[uid]) else h == Missed
    {
      h := if uid in knownJobs then Answered(knownJobs[uid]) else Missed;
    }

    method Store(uid: Uid, id: JobId) returns (h: Handling)
      modifies this
      ensures knownJobs == old(knownJobs)[uid := id] && h == Answered(id)
    {
      knownJobs := knownJobs[uid := id];
      h := Answered(id);
    }

    /** All of SubmitJob, without another request in between. */
    method SubmitJob(req: Request, outcome: Sbatch) returns (reply: Option<JobId>)
      modifies this
      ensures !ValidRequest(req) ==> reply == None && knownJobs == old(knownJobs)
      ensures reply.Some? ==> req.script != "" && req.partition != "" && req.uid != ""
      ensures ValidRequest(req) && req.uid in old(knownJobs) ==>
                reply == Some(old(knownJobs)[req.uid]) && knownJobs == old(knownJobs)
      ensures ValidRequest(req) && req.uid !in old(knownJobs) ==>
                if outcome.Accepted?
                then reply == Some(outcome.id) && knownJobs == old(knownJobs)[req.uid := outcome.id]
                else reply == None && knownJobs == old(knownJobs)
    {
      if req.script == "" || req.partition == "" || req.uid == "" {
        return None;
      }
      var h := Load(req.uid);
      if h == Missed {
        h := SbatchStep(outcome);
        if h.Refused? {
          return None;
        }
        h := Store(req.uid, h.id);
      }
      reply := Some(h.id);
    }
  }

  /** The ids DeletePod asks the agent to cancel, up to the first that fails; parts that are no number are skipped. */
  function Cancellations(parts: seq<string>, failing: set<int>): seq<int> {
    if parts == [] then []
    else
      match ParseInt(parts[0])
      case None => Cancellations(parts[1..], failing)
      case Some(n) => if n in failing then [n] else [n] + Cancellations(parts[1..], failing)
  }

  lemma CancellationsFrom(parts: seq<string>, i: nat, failing: set<int>)
    requires i < |parts|
    ensures Cancellations(parts[i..], failing) ==
            match ParseInt(parts[i])
            case None => Cancellations(parts[i + 1..], failing)
            case Some(n) => if n in failing then [n] else [n] + Cancellations(parts[i + 1..], failing)
  {
    assert parts[i..][1..] == parts[i + 1..];
  }

  /** The job id under which the kubelet knows a pod: its label, else what it remembers, else nothing. */
  function SlurmJobId(pod: Pod, knownPods: map<Uid, string>): Option<string> {
    if pod.jobId.Some? then pod.jobId
    else if pod.uid in knownPods then Some(knownPods[pod.uid])
    else None
  }

  /** The loop of DeletePod. */
  method CancelJobs(parts: seq<string>, failing: set<int>) returns (asked: seq<int>, ok: bool)
    ensures asked == Cancellations(parts, failing)
    ensures ok <==> asked == [] || asked[|asked| - 1] !in failing
  {
    hide Cancellations, ParseInt;
    asked, ok := [], true;
    var i := 0;
    while i < |parts|
      invariant 0 <= i <= |parts|
      invariant ok && (asked == [] || asked[|asked| - 1] !in failing)
      invariant Cancellations(parts, failing) == asked + Cancellations(parts[i..], failing)
    {
      CancellationsFrom(parts, i, failing);
      var atoi := ParseInt(parts[i]);
      if atoi.Some? {
        asked := asked + [atoi.value];
        if atoi.value in failing {
          ok := false;
          return;
        }
      }
      i := i + 1;
    }
    NoCancellations(parts, i, failing);
  }

  lemma NoCancellations(parts: seq<string>, i: nat, failing: set<int>)
    requires i == |parts|
    ensures Cancellations(parts[i..], failing) == []
  {
  }

  class Provider {
    const partition: string
    var knownPods: map<Uid, string>

    /** CreatePod up to its call of SubmitJob; without a request it returns at once. */
    method BeginCreatePod(pod: Pod) returns (req: Option<Request>)
      ensures req == RequestFor(pod, partition)
      ensures req.Some? <==>
                && !pod.daemonSet && pod.jobId == None && pod.role == SizeCar
                && |pod.commands| == 1 && |pod.commands[0]| == 1
      ensures req.Some? ==>
                req.value.uid == pod.uid && req.value.partition == partition && req.value.script == pod.commands[0][0]
    {
      if pod.daemonSet || pod.jobId.Some? || pod.role != SizeCar {
        return None;
      }
      if |pod.commands| == 0 || |pod.commands| > 1 {
        return None;
      }
      if |pod.commands[0]| == 0 || |pod.commands[0]| > 1 {
        return None;
      }
      req := Some(Request(pod.uid, partition, pod.commands[0][0]));
    }

    /** CreatePod after a successful SubmitJob; the labelled pod is sent to the API server. */
    method FinishCreatePod(pod: Pod, id: JobId) returns (labelled: Pod)
      modifies this
      ensures knownPods == old(knownPods)[pod.uid := FormatInt(id)]
      ensures labelled == if pod.jobId.None? then pod.(jobId := Some(FormatInt(id))) else pod
    {
      knownPods := knownPods[pod.uid := FormatInt(id)];
      labelled := pod;
      if labelled.jobId.None? {
        labelled := labelled.(jobId := Some(FormatInt(id)));
      }
    }

    method UpdatePod(pod: Pod)
      modifies this
      ensures knownPods == if pod.jobId.Some? then old(knownPods)[pod.uid := pod.jobId.value] else old(knownPods)
    {
      if pod.jobId.Some? {
        knownPods := knownPods[pod.uid := pod.jobId.value];
      }
    }

    /** The pod is forgotten in any case; `asked` are the cancellations sent to the agent. */
    method DeletePod(pod: Pod, failing: set<int>) returns (asked: seq<int>, ok: bool)
      modifies this
      ensures knownPods == old(knownPods) - {pod.uid}
      ensures var id := SlurmJobId(pod, old(knownPods));
              asked == if id.None? then [] else Cancellations(Split(id.value, ','), failing)
      ensures pod.jobId.Some? ==> asked == Cancellations(Split(pod.jobId.value, ','), failing)
      ensures pod.jobId.None? && pod.uid !in old(knownPods) ==> asked == []
      ensures ok <==> asked == [] || asked[|asked| - 1] !in failing
    {
      asked, ok := [], true;
      var jobIds := "";
      if pod.jobId.Some? {
        jobIds := pod.jobId.value;
      } else if pod.uid in knownPods {
        jobIds := knownPods[pod.uid];
      } else {
        knownPods := knownPods - {pod.uid};
        return;
      }
      knownPods := knownPods - {pod.uid};
      asked, ok := CancelJobs(Split(jobIds, ','), failing);
    }
  }

  /** A single printed id is one part, and is read back as itself. */
  lemma CancelsWhatWasPrinted(id: JobId, failing: set<int>)
    ensures Cancellations(Split(FormatInt(id), ','), failing) == [id]
  {
    FormatIsPlain(id);
    ParseOfFormat(id);
    PrintedHasNoComma(id);
    assert Split(FormatInt(id), ',') == [FormatInt(id)];
  }

  lemma PrintedHasNoComma(n: int)
    ensures Free(FormatInt(n), ',')
  {
    var s := FormatInt(n);
    forall i | 0 <= i < |s| ensures IsDigit(s[i]) || s[i] == '-' {
      if n < 0 && i > 0 { assert s[i] == FormatNat(-n)[i - 1]; }
    }
  }

  function CommaList(ids: seq<JobId>): string
    requires ids != []
  {
    if |ids| == 1 then FormatInt(ids[0]) else FormatInt(ids[0]) + "," + CommaList(ids[1..])
  }

  /** The ids up to the first whose cancellation fails. */
  function UpToFailure(ids: seq<JobId>, failing: set<int>): seq<int> {
    if ids == [] then []
    else if ids[0] in failing then [ids[0]]
    else [ids[0]] + UpToFailure(ids[1..], failing)
  }

  /** Of several ids with commas between them every one is cancelled, in order, until a cancellation fails. */
  lemma {:induction false} CancelsTheWholeList(ids: seq<JobId>, failing: set<int>)
    requires ids != []
    ensures Cancellations(Split(CommaList(ids), ','), failing) == UpToFailure(ids, failing)
    decreases |ids|
  {
    hide FormatInt, ParseInt;
    var first := FormatInt(ids[0]);
    PrintedHasNoComma(ids[0]);
    ParseOfFormat(ids[0]);
    if |ids| == 1 {
      SplitWhole(first);
      assert ids[1..] == [];
      assert Cancellations([first][1..], failing) == [];
    } else {
      var rest := CommaList(ids[1..]);
      SplitCons(first, ',', rest);
      assert ([first] + Split(rest, ','))[1..] == Split(rest, ',');
      CancelsTheWholeList(ids[1..], failing);
    }
  }

  lemma SplitWhole(s: string)
    requires Free(s, ',')
    ensures Split(s, ',') == [s]
  {
  }

  /** A part that is no number is passed over. */
  lemma SkipsWhatIsNoNumber(part: string, rest: string, failing: set<int>)
    requires Free(part, ',') && ParseInt(part) == None
    ensures Cancellations(Split(part + "," + rest, ','), failing) == Cancellations(Split(rest, ','), failing)
  {
    hide ParseInt;
    SplitCons(part, ',', rest);
    assert ([part] + Split(rest, ','))[1..] == Split(rest, ',');
  }
}
