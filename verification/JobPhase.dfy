/**
 From the states that Slurm prints for a job and its array members to the phase of the pod: the agent's table of
 states (pkg/slurm-agent/api/slurm.go) and the kubelet's fold over the jobs (pkg/slurm-virtual-kubelet/status.go).
 */
module JobPhase {
  import opened Kubernetes

  datatype JobStatus = COMPLETED | CANCELLED | FAILED | TIMEOUT | PENDING | RUNNING | UNKNOWN

  /** A state that is not in the table, such as NODE_FAIL or COMPLETING, is UNKNOWN. */
  function StatusOf(text: string): JobStatus {
    match text
    case "COMPLETED" => COMPLETED
    case "CANCELLED" => CANCELLED
    case "FAILED" => FAILED
    case "TIMEOUT" => TIMEOUT
    case "PENDING" => PENDING
    case "RUNNING" => RUNNING
    case _ => UNKNOWN
  }

  function StatusesOf(texts: seq<string>): seq<JobStatus> {
    seq(|texts|, i requires 0 <= i < |texts| => StatusOf(texts[i]))
  }

  predicate Ended(s: JobStatus) { s != UNKNOWN && s != PENDING && s != RUNNING }

  predicate Has(jobs: seq<JobStatus>, s: JobStatus) { exists i | 0 <= i < |jobs| :: jobs[i] == s }

  predicate AllEnded(jobs: seq<JobStatus>) { forall i | 0 <= i < |jobs| :: Ended(jobs[i]) }

  predicate AllCompleted(jobs: seq<JobStatus>) { forall i | 0 <= i < |jobs| :: jobs[i] == COMPLETED }

  /** The phase in terms of which states occur. */
  function PhaseOf(jobs: seq<JobStatus>): Phase {
    if jobs == [] then Unknown
    else if AllCompleted(jobs) then Succeeded
    else if AllEnded(jobs) then Failed
    else if Has(jobs, RUNNING) then Running
    else if Has(jobs, PENDING) then Pending
    else Unknown
  }

  method IsAllSlurmJobEnded(jobs: seq<JobStatus>) returns (ended: bool)
    ensures ended <==> AllEnded(jobs)
  {
    for i := 0 to |jobs|
      invariant AllEnded(jobs[..i])
    {
      if jobs[i] == UNKNOWN || jobs[i] == PENDING || jobs[i] == RUNNING {
        return false;
      }
      assert jobs[..i + 1] == jobs[..i] + [jobs[i]];
    }
    assert jobs[..|jobs|] == jobs;
    return true;
  }

  method SlurmState2PodPhase(jobs: seq<JobStatus>) returns (phase: Phase)
    ensures jobs != [] ==> phase == PhaseOf(jobs)
  {
    var ended := IsAllSlurmJobEnded(jobs);
    if ended {
      phase := Succeeded;
      for i := 0 to |jobs|
        invariant phase == if forall k | 0 <= k < i :: jobs[k] == COMPLETED then Succeeded else Failed
      {
        if jobs[i] == FAILED || jobs[i] == CANCELLED || jobs[i] == TIMEOUT {
          phase := Failed;
        }
      }
    } else {
      phase := Unknown;
      for i := 0 to |jobs|
        invariant forall k | 0 <= k < i :: jobs[k] != RUNNING
        invariant phase == if exists k | 0 <= k < i :: jobs[k] == PENDING then Pending else Unknown
      {
        if jobs[i] == RUNNING {
          return Running;
        }
        if jobs[i] == PENDING {
          phase := Pending;
        }
      }
    }
  }

  /** The phase part of convertJobInfo2PodStatus. */
  method PodPhase(jobs: seq<JobStatus>) returns (phase: Phase)
    ensures phase == PhaseOf(jobs)
  {
    if |jobs| == 0 {
      return Unknown;
    }
    phase := SlurmState2PodPhase(jobs);
  }

  lemma SameStates(a: seq<JobStatus>, b: seq<JobStatus>, s: JobStatus)
    requires multiset(a) == multiset(b)
    ensures Has(a, s) == Has(b, s)
  {
    assert s in a <==> s in multiset(a);
    assert s in b <==> s in multiset(b);
  }

  lemma AllInTermsOfHas(jobs: seq<JobStatus>)
    ensures AllEnded(jobs) <==> !Has(jobs, UNKNOWN) && !Has(jobs, PENDING) && !Has(jobs, RUNNING)
    ensures AllCompleted(jobs) <==>
            AllEnded(jobs) && !Has(jobs, CANCELLED) && !Has(jobs, FAILED) && !Has(jobs, TIMEOUT)
  {
  }

  /** The order in which Slurm lists the jobs does not matter. */
  lemma OrderDoesNotMatter(a: seq<JobStatus>, b: seq<JobStatus>)
    requires multiset(a) == multiset(b)
    ensures PhaseOf(a) == PhaseOf(b)
  {
    hide Has, AllEnded, AllCompleted;
    AllInTermsOfHas(a);
    AllInTermsOfHas(b);
    forall s ensures Has(a, s) == Has(b, s) {
      SameStates(a, b, s);
    }
    assert |multiset(a)| == |a| && |multiset(b)| == |b|;
  }

  /** Each phase, in terms of the printed states; what the agent does not recognise never ends a job. */
  lemma PhaseOfTexts(texts: seq<string>)
    requires texts != []
    ensures var p := PhaseOf(StatusesOf(texts));
            && (p == Succeeded <==> forall i | 0 <= i < |texts| :: texts[i] == "COMPLETED")
            && (Terminal(p) <==> forall i | 0 <= i < |texts| ::
                                   texts[i] in ["COMPLETED", "CANCELLED", "FAILED", "TIMEOUT"])
            && (p == Running <==> exists i | 0 <= i < |texts| :: texts[i] == "RUNNING")
            && (p == Pending <==> (exists i | 0 <= i < |texts| :: texts[i] == "PENDING")
                                  && forall i | 0 <= i < |texts| :: texts[i] != "RUNNING")
  {
    var jobs := StatusesOf(texts);
    forall i | 0 <= i < |texts|
      ensures Ended(jobs[i]) <==> texts[i] in ["COMPLETED", "CANCELLED", "FAILED", "TIMEOUT"]
      ensures jobs[i] == COMPLETED <==> texts[i] == "COMPLETED"
      ensures jobs[i] == RUNNING <==> texts[i] == "RUNNING"
      ensures jobs[i] == PENDING <==> texts[i] == "PENDING" {
    }
    assert |jobs| == |texts|;
  }
}
