/**
 A job's resource requests on their way from the specification to sbatch: labels on the size-car pod
 (pkg/slurm-bridge-operator/pod.go), the request to the agent (pkg/slurm-virtual-kubelet/provider.go), and the command
 line (pkg/slurm-agent/slurm.go).
 */
module ResourceRequests {
  import opened GoText

  /** The numeric requests; 0 stands for none. */
  datatype Field = Nodes | CpusPerTask | MemPerCpu | NtasksPerNode | Ntasks

  datatype Amounts = Amounts(
    nodes: int, cpusPerTask: int, memPerCpu: int, ntasksPerNode: int, ntasks: int, arrayIds: string)
  {
    function Get(f: Field): int {
      match f
      case Nodes => nodes
      case CpusPerTask => cpusPerTask
      case MemPerCpu => memPerCpu
      case NtasksPerNode => ntasksPerNode
      case Ntasks => ntasks
    }
  }

  predicate AllInt64(a: Amounts) { forall f: Field :: IsInt64(a.Get(f)) }

  /** The label names of pkg/common/labels.go; all other labels are one here. */
  datatype Label = Request(f: Field) | RequestArray | OtherLabel(name: string)

  type Labels = map<Label, string>

  /** The labels hold the positive numbers among the fields `done`. */
  predicate NumbersShow(labels: Labels, a: Amounts, done: set<Field>) {
    forall f: Field ::
      && (Request(f) in labels <==> f in done && a.Get(f) > 0)
      && (Request(f) in labels ==> labels[Request(f)] == FormatInt(a.Get(f)))
  }

  predicate ArrayShows(labels: Labels, a: Amounts) {
    && (RequestArray in labels <==> a.arrayIds != "")
    && (RequestArray in labels ==> labels[RequestArray] == a.arrayIds)
  }

  const ALL_FIELDS: set<Field> := {Nodes, CpusPerTask, MemPerCpu, NtasksPerNode, Ntasks}

  predicate LabelsShow(labels: Labels, a: Amounts) { NumbersShow(labels, a, ALL_FIELDS) && ArrayShows(labels, a) }

  method SetLabel(labels: Labels, a: Amounts, f: Field, ghost done: set<Field>) returns (r: Labels)
    requires NumbersShow(labels, a, done)
    ensures NumbersShow(r, a, done + {f})
    ensures forall l: Label :: !l.Request? ==> (l in r <==> l in labels) && (l in r ==> r[l] == labels[l])
  {
    hide FormatInt;
    r := labels;
    if a.Get(f) > 0 {
      r := r[Request(f) := FormatInt(a.Get(f))];
    }
  }

  method GetResourceRequestLabelsForPod(spec: Amounts) returns (labels: Labels)
    ensures LabelsShow(labels, spec)
    ensures forall l :: l in labels ==> !l.OtherLabel?
  {
    hide NumbersShow;
    labels := map[];
    NothingShown(spec);
    labels := SetLabel(labels, spec, Nodes, {});
    labels := SetLabel(labels, spec, CpusPerTask, {} + {Nodes});
    labels := SetLabel(labels, spec, MemPerCpu, {} + {Nodes} + {CpusPerTask});
    ghost var done := {} + {Nodes} + {CpusPerTask} + {MemPerCpu};
    labels := SetLabel(labels, spec, NtasksPerNode, done);
    done := done + {NtasksPerNode};
    if |spec.arrayIds| > 0 {
      ArrayAside(labels, spec, done);
      labels := labels[RequestArray := spec.arrayIds];
    }
    labels := SetLabel(labels, spec, Ntasks, done);
    assert done + {Ntasks} == ALL_FIELDS;
  }

  lemma NothingShown(a: Amounts)
    ensures NumbersShow(map[], a, {})
  {
  }

  lemma ArrayAside(labels: Labels, a: Amounts, done: set<Field>)
    requires NumbersShow(labels, a, done)
    ensures NumbersShow(labels[RequestArray := a.arrayIds], a, done)
  {
    hide FormatInt;
  }

  /** A label that is missing or no number leaves the request at 0. */
  function Requested(labels: Labels, f: Field): int {
    if Request(f) !in labels then 0
    else
      match ParseInt(labels[Request(f)])
      case None => 0
      case Some(n) => n
  }

  method ParseLabel(labels: Labels, f: Field) returns (n: int)
    ensures n == Requested(labels, f)
    ensures Request(f) !in labels || ParseInt(labels[Request(f)]).None? ==> n == 0
  {
    n := 0;
    if Request(f) in labels {
      var parsed := ParseInt(labels[Request(f)]);
      if parsed.Some? {
        n := parsed.value;
      }
    }
  }

  /** The resource part of newSubmitRequestForPod; the agent copies it into its own request. */
  method NewSubmitRequest(labels: Labels) returns (a: Amounts)
    ensures forall f: Field :: a.Get(f) == Requested(labels, f)
    ensures a.arrayIds == if RequestArray in labels then labels[RequestArray] else ""
  {
    hide Requested;
    var nodes := ParseLabel(labels, Nodes);
    var cpusPerTask := ParseLabel(labels, CpusPerTask);
    var memPerCpu := ParseLabel(labels, MemPerCpu);
    var ntasksPerNode := ParseLabel(labels, NtasksPerNode);
    var arrayIds := if RequestArray in labels then labels[RequestArray] else "";
    var ntasks := ParseLabel(labels, Ntasks);
    a := Amounts(nodes, cpusPerTask, memPerCpu, ntasksPerNode, ntasks, arrayIds);
  }

  datatype SbatchRequest = SbatchRequest(
    partition: string, runAsUser: string, runAsGroup: string, jobName: string, workingDir: string, amounts: Amounts)

  function Arg(name: string, v: string): string { "--" + name + "=" + v }

  function Opt(given: bool, name: string, v: string): seq<string> { if given then [Arg(name, v)] else [] }

  function Flag(f: Field): string {
    match f
    case Nodes => "nodes"
    case CpusPerTask => "cpus-per-task"
    case MemPerCpu => "mem-per-cpu"
    case NtasksPerNode => "ntasks-per-node"
    case Ntasks => "ntasks"
  }

  function NumberOpt(a: Amounts, f: Field): seq<string> { Opt(a.Get(f) > 0, Flag(f), FormatInt(a.Get(f))) }

  function TextOpts(r: SbatchRequest): seq<string> {
    ["--parsable"]
    + Opt(r.partition != "", "partition", r.partition)
    + Opt(r.runAsUser != "", "uid", r.runAsUser)
    + Opt(r.runAsGroup != "", "gid", r.runAsGroup)
    + Opt(r.amounts.arrayIds != "", "array", r.amounts.arrayIds)
  }

  /** The number of tasks per node is given twice. */
  function NumberOpts(before: seq<string>, a: Amounts): seq<string> {
    before
    + NumberOpt(a, CpusPerTask) + NumberOpt(a, MemPerCpu) + NumberOpt(a, Nodes) + NumberOpt(a, Ntasks)
    + NumberOpt(a, NtasksPerNode) + NumberOpt(a, NtasksPerNode)
  }

  function SbatchOpts(r: SbatchRequest): seq<string> {
    NumberOpts(TextOpts(r), r.amounts)
    + Opt(r.jobName != "", "job-name", r.jobName)
    + Opt(r.workingDir != "", "chdir", r.workingDir)
  }

  method AppendOpt(opts: seq<string>, name: string, v: string) returns (r: seq<string>)
    ensures r == opts + Opt(v != "", name, v)
  {
    r := opts;
    if v != "" {
      r := r + ["--" + name + "=" + v];
    }
  }

  method AppendNumberOpt(opts: seq<string>, a: Amounts, f: Field) returns (r: seq<string>)
    ensures r == opts + NumberOpt(a, f)
  {
    r := opts;
    if a.Get(f) > 0 {
      r := r + ["--" + Flag(f) + "=" + FormatInt(a.Get(f))];
    }
  }

  method GetSbatchOpts(r: SbatchRequest) returns (opts: seq<string>)
    ensures opts == SbatchOpts(r)
  {
    hide Opt, NumberOpt;
    opts := ["--parsable"];
    opts := AppendOpt(opts, "partition", r.partition);
    opts := AppendOpt(opts, "uid", r.runAsUser);
    opts := AppendOpt(opts, "gid", r.runAsGroup);
    opts := AppendOpt(opts, "array", r.amounts.arrayIds);
    opts := AppendNumberOpt(opts, r.amounts, CpusPerTask);
    opts := AppendNumberOpt(opts, r.amounts, MemPerCpu);
    opts := AppendNumberOpt(opts, r.amounts, Nodes);
    opts := AppendNumberOpt(opts, r.amounts, Ntasks);
    opts := AppendNumberOpt(opts, r.amounts, NtasksPerNode);
    opts := AppendNumberOpt(opts, r.amounts, NtasksPerNode);
    opts := AppendOpt(opts, "job-name", r.jobName);
    opts := AppendOpt(opts, "chdir", r.workingDir);
  }

  // An argument says which option it sets, and to what

  lemma ArgIsReadable(m: string, v: string, n: string, w: string)
    requires Free(m, '=') && Free(n, '=')
    ensures Arg(m, v) == Arg(n, w) <==> m == n && v == w
  {
    if Arg(m, v) == Arg(n, w) {
      IndexByteAfter("--" + m, '=', v);
      IndexByteAfter("--" + n, '=', w);
      assert ("--" + m)[2..] == m && ("--" + n)[2..] == n;
    }
  }

  lemma ArgInOpt(name: string, v: string, given: bool, n: string, w: string)
    requires Free(name, '=') && Free(n, '=')
    ensures Arg(name, v) in Opt(given, n, w) <==> given && name == n && v == w
  {
    ArgIsReadable(name, v, n, w);
  }

  lemma NamesArePlain(f: Field)
    ensures Free(Flag(f), '=') && Free("array", '=')
    ensures Free("partition", '=') && Free("uid", '=') && Free("gid", '=') && Free("job-name", '=') && Free("chdir", '=')
  {
  }

  lemma NamesDiffer(f: Field, g: Field)
    ensures Flag(f) == Flag(g) <==> f == g
    ensures Flag(f) != "partition" && Flag(f) != "uid" && Flag(f) != "gid"
    ensures Flag(f) != "array" && Flag(f) != "job-name" && Flag(f) != "chdir"
    ensures "array" != "partition" && "array" != "uid" && "array" != "gid" && "array" != "job-name" && "array" != "chdir"
  {
    assert Flag(f)[0] != "array"[0] && Flag(f)[0] == "chdir"[0] ==> |Flag(f)| != |"chdir"|;
    assert "array"[0] != "chdir"[0];
    assert Flag(f)[0] == 'n' || Flag(f)[0] == 'c' || Flag(f)[0] == 'm';
  }

  lemma ArgIsNotParsable(name: string, v: string)
    ensures Arg(name, v) !in ["--parsable"]
  {
    assert Arg(name, v)[2 + |name|] == '=';
    assert Free("--parsable", '=');
  }

  /** The options that are given as texts. */
  predicate TextIs(r: SbatchRequest, name: string, v: string) {
    || (name == "partition" && v == r.partition)
    || (name == "uid" && v == r.runAsUser)
    || (name == "gid" && v == r.runAsGroup)
    || (name == "array" && v == r.amounts.arrayIds)
    || (name == "job-name" && v == r.jobName)
    || (name == "chdir" && v == r.workingDir)
  }

  lemma ArgInTextOpts(name: string, v: string, r: SbatchRequest)
    requires Free(name, '=')
    ensures Arg(name, v) in TextOpts(r) <==> v != "" && TextIs(r, name, v) && name != "job-name" && name != "chdir"
  {
    hide Opt, Arg, Free;
    NamesArePlain(Nodes);
    TextNamesDiffer();
    ArgIsNotParsable(name, v);
    ArgInOpt(name, v, r.partition != "", "partition", r.partition);
    ArgInOpt(name, v, r.runAsUser != "", "uid", r.runAsUser);
    ArgInOpt(name, v, r.runAsGroup != "", "gid", r.runAsGroup);
    ArgInOpt(name, v, r.amounts.arrayIds != "", "array", r.amounts.arrayIds);
  }

  lemma TextNamesDiffer()
    ensures "partition" != "uid" && "partition" != "gid" && "partition" != "array"
    ensures "uid" != "gid" && "uid" != "array" && "gid" != "array"
    ensures forall n | n in ["partition", "uid", "gid", "array"] :: n != "job-name" && n != "chdir"
    ensures "job-name" != "chdir"
  {
    assert "uid"[0] != "gid"[0] && "array"[0] != "chdir"[0];
  }

  lemma ArgInNumberOpt(name: string, v: string, a: Amounts, f: Field)
    requires Free(name, '=')
    ensures Arg(name, v) in NumberOpt(a, f) <==> a.Get(f) > 0 && name == Flag(f) && v == FormatInt(a.Get(f))
  {
    hide Opt, Arg, Free, Flag, FormatInt;
    NamesArePlain(f);
    ArgInOpt(name, v, a.Get(f) > 0, Flag(f), FormatInt(a.Get(f)));
  }

  lemma ArgInNumberOpts(name: string, v: string, before: seq<string>, a: Amounts)
    requires Free(name, '=')
    ensures Arg(name, v) in NumberOpts(before, a) <==>
            || Arg(name, v) in before
            || exists f: Field :: a.Get(f) > 0 && name == Flag(f) && v == FormatInt(a.Get(f))
  {
    hide NumberOpt, Arg, Free, Flag, FormatInt;
    ArgInNumberOpt(name, v, a, Nodes);
    ArgInNumberOpt(name, v, a, CpusPerTask);
    ArgInNumberOpt(name, v, a, MemPerCpu);
    ArgInNumberOpt(name, v, a, NtasksPerNode);
    ArgInNumberOpt(name, v, a, Ntasks);
  }

  lemma ArgInSbatchOpts(name: string, v: string, r: SbatchRequest)
    requires Free(name, '=')
    ensures Arg(name, v) in SbatchOpts(r) <==>
            || (v != "" && TextIs(r, name, v))
            || exists f: Field :: r.amounts.Get(f) > 0 && name == Flag(f) && v == FormatInt(r.amounts.Get(f))
  {
    hide Opt, Arg, Free, Flag, FormatInt, TextOpts, NumberOpts;
    NamesArePlain(Nodes);
    TextNamesDiffer();
    ArgInTextOpts(name, v, r);
    ArgInNumberOpts(name, v, TextOpts(r), r.amounts);
    ArgInOpt(name, v, r.jobName != "", "job-name", r.jobName);
    ArgInOpt(name, v, r.workingDir != "", "chdir", r.workingDir);
  }

  lemma NumberArg(r: SbatchRequest, f: Field, v: string)
    ensures Arg(Flag(f), v) in SbatchOpts(r) <==> r.amounts.Get(f) > 0 && v == FormatInt(r.amounts.Get(f))
  {
    hide Arg, Free, Flag, FormatInt, SbatchOpts;
    forall g ensures Flag(f) == Flag(g) <==> f == g {
      NamesDiffer(f, g);
    }
    NamesDiffer(f, f);
    NamesArePlain(f);
    ArgInSbatchOpts(Flag(f), v, r);
  }

  predicate IsTextName(name: string) {
    name in ["partition", "uid", "gid", "array", "job-name", "chdir"]
  }

  lemma TextArg(r: SbatchRequest, name: string, v: string)
    requires IsTextName(name)
    ensures Arg(name, v) in SbatchOpts(r) <==> v != "" && TextIs(r, name, v)
  {
    hide Arg, Free, Flag, FormatInt, SbatchOpts, TextIs;
    forall f ensures Flag(f) != name {
      NamesDiffer(f, f);
    }
    NamesArePlain(Nodes);
    ArgInSbatchOpts(name, v, r);
  }

  /** An argument is its name behind two dashes, an equals sign, and the value. */
  lemma TextArgsRead(v: string)
    ensures Arg("partition", v) == "--partition=" + v && Arg("uid", v) == "--uid=" + v && Arg("gid", v) == "--gid=" + v
    ensures Arg("array", v) == "--array=" + v && Arg("job-name", v) == "--job-name=" + v
    ensures Arg("chdir", v) == "--chdir=" + v
  {
    hide Arg;
    Written("partition", "--partition=", v);
    Written("uid", "--uid=", v);
    Written("gid", "--gid=", v);
    Written("array", "--array=", v);
    Written("job-name", "--job-name=", v);
    Written("chdir", "--chdir=", v);
  }

  lemma NumberArgsRead(v: string)
    ensures Arg("nodes", v) == "--nodes=" + v
    ensures Arg("cpus-per-task", v) == "--cpus-per-task=" + v && Arg("mem-per-cpu", v) == "--mem-per-cpu=" + v
    ensures Arg("ntasks-per-node", v) == "--ntasks-per-node=" + v && Arg("ntasks", v) == "--ntasks=" + v
  {
    hide Arg;
    Written("nodes", "--nodes=", v);
    Written("cpus-per-task", "--cpus-per-task=", v);
    Written("mem-per-cpu", "--mem-per-cpu=", v);
    Written("ntasks-per-node", "--ntasks-per-node=", v);
    Written("ntasks", "--ntasks=", v);
  }

  lemma Written(name: string, start: string, v: string)
    requires start == "--" + name + "="
    ensures Arg(name, v) == start + v
  {
  }

  /** Each text goes to sbatch under its own name exactly if it is not empty; the user is not the group. */
  lemma TextsAreGiven(r: SbatchRequest, v: string)
    ensures "--parsable" in SbatchOpts(r)
    ensures "--partition=" + v in SbatchOpts(r) <==> r.partition != "" && v == r.partition
    ensures "--uid=" + v in SbatchOpts(r) <==> r.runAsUser != "" && v == r.runAsUser
    ensures "--gid=" + v in SbatchOpts(r) <==> r.runAsGroup != "" && v == r.runAsGroup
    ensures "--array=" + v in SbatchOpts(r) <==> r.amounts.arrayIds != "" && v == r.amounts.arrayIds
    ensures "--job-name=" + v in SbatchOpts(r) <==> r.jobName != "" && v == r.jobName
    ensures "--chdir=" + v in SbatchOpts(r) <==> r.workingDir != "" && v == r.workingDir
  {
    ParsableIsFirst(r);
    hide Arg, SbatchOpts;
    TextNamesDiffer();
    TextArgsRead(v);
    TextArg(r, "partition", v);
    TextArg(r, "uid", v);
    TextArg(r, "gid", v);
    TextArg(r, "array", v);
    TextArg(r, "job-name", v);
    TextArg(r, "chdir", v);
  }

  lemma ParsableIsFirst(r: SbatchRequest)
    ensures SbatchOpts(r) != [] && SbatchOpts(r)[0] == "--parsable"
  {
    hide Opt, NumberOpt;
  }

  lemma LabelsAreReadBack(spec: Amounts, labels: Labels, f: Field)
    requires AllInt64(spec) && LabelsShow(labels, spec)
    ensures Requested(labels, f) == if spec.Get(f) > 0 then spec.Get(f) else 0
  {
    hide ParseInt, FormatInt;
    ParseOfFormat(spec.Get(f));
  }

  lemma FieldSurvives(spec: Amounts, labels: Labels, r: SbatchRequest, f: Field, v: string)
    requires AllInt64(spec) && LabelsShow(labels, spec) && r.amounts.Get(f) == Requested(labels, f)
    ensures Arg(Flag(f), v) in SbatchOpts(r) <==> spec.Get(f) > 0 && v == FormatInt(spec.Get(f))
  {
    hide Arg, Flag, FormatInt, SbatchOpts, Requested;
    NumberArg(r, f, v);
    LabelsAreReadBack(spec, labels, f);
  }

  /**
   Whatever else is in the pod's labels and the request: sbatch is given each number exactly when the job asks for a
   positive one, printed, and the array exactly when the job has one.
   */
  lemma RequestsSurvive(spec: Amounts, labels: Labels, r: SbatchRequest, v: string)
    requires AllInt64(spec) && LabelsShow(labels, spec)
    requires forall f: Field :: r.amounts.Get(f) == Requested(labels, f)
    requires r.amounts.arrayIds == if RequestArray in labels then labels[RequestArray] else ""
    ensures "--nodes=" + v in SbatchOpts(r) <==> spec.nodes > 0 && v == FormatInt(spec.nodes)
    ensures "--cpus-per-task=" + v in SbatchOpts(r) <==> spec.cpusPerTask > 0 && v == FormatInt(spec.cpusPerTask)
    ensures "--mem-per-cpu=" + v in SbatchOpts(r) <==> spec.memPerCpu > 0 && v == FormatInt(spec.memPerCpu)
    ensures "--ntasks-per-node=" + v in SbatchOpts(r) <==> spec.ntasksPerNode > 0 && v == FormatInt(spec.ntasksPerNode)
    ensures "--ntasks=" + v in SbatchOpts(r) <==> spec.ntasks > 0 && v == FormatInt(spec.ntasks)
    ensures "--array=" + v in SbatchOpts(r) <==> spec.arrayIds != "" && v == spec.arrayIds
  {
    hide Arg, FormatInt, SbatchOpts, Requested;
    NumberArgsRead(v);
    FieldSurvives(spec, labels, r, Nodes, v);
    FieldSurvives(spec, labels, r, CpusPerTask, v);
    FieldSurvives(spec, labels, r, MemPerCpu, v);
    FieldSurvives(spec, labels, r, NtasksPerNode, v);
    FieldSurvives(spec, labels, r, Ntasks, v);
    TextsAreGiven(r, v);
  }
}
