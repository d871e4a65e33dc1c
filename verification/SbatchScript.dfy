/** pkg/slurm-bridge-operator/parse.go: the resources that the #SBATCH directives of a script ask for. */
module SbatchScript {
  import opened Options
  import opened GoText
  import opened Durations

  datatype Resources = Resources(
    nodes: int,
    cpusPerTask: int,
    ntasksPerNode: int,
    memPerCpu: int,
    wallTime: int,
    ntasks: int,
    arrayIds: string)

  const NOTHING := Resources(0, 0, 0, 0, 0, 0, "")

  /** Panic is the index out of range of a parameter that stands last and has no value. */
  datatype Extracted = Ok(res: Resources) | Error | Panic

  /** The lines bufio.Scanner delivers: up to 64 KiB with the newline; a longer one ends the scan. */
  const MAX_TOKEN := 65535

  function DropCR(line: string): string {
    if line != "" && line[|line| - 1] == '\r' then line[..|line| - 1] else line
  }

  function ScanLines(s: string): seq<string>
    decreases |s|
  {
    if s == "" then []
    else
      var i := IndexByte(s, '\n');
      if i == -1 then (if |s| > MAX_TOKEN then [] else [DropCR(s)])
      else if i > MAX_TOKEN then []
      else [DropCR(s[..i])] + ScanLines(s[i + 1..])
  }

  const HEADER := "#SBATCH"

  predicate IsSkipped(line: string) { line == "" || "#!" <= line }

  predicate IsDirective(line: string) { HEADER <= line }

  function Params(line: string): seq<string>
    requires IsDirective(line)
  {
    Fields(line[|HEADER|..])
  }

  /** applySbatchParam. A setting it does not know changes nothing. */
  function ApplyParam(res: Resources, param: string, value: string): Option<Resources> {
    if param == "--time" || param == "-t" then
      match DurationOf(value)
      case Duration(ns) => Some(res.(wallTime := ns))
      case Unlimited => Some(res)
      case Invalid => None
    else if param == "--nodes" || param == "-N" then
      var n := ParseInt(UpToDash(value));
      if n.None? then None else Some(res.(nodes := n.value))
    else if param == "--mem-per-cpu" then
      var n := ParseInt(value);
      if n.None? then None else Some(res.(memPerCpu := n.value))
    else if param == "--cpus-per-task" || param == "-c" then
      var n := ParseInt(value);
      if n.None? then None else Some(res.(cpusPerTask := n.value))
    else if param == "--ntasks-per-node" then
      var n := ParseInt(value);
      if n.None? then None else Some(res.(ntasksPerNode := n.value))
    else Some(res)
  }

  /** Of a range of nodes the smaller number counts. */
  function UpToDash(value: string): string {
    var i := IndexByte(value, '-');
    if i != -1 then value[..i] else value
  }

  /** One setting taken off the front: name, value and what is left; None at a bare parameter without a value. */
  datatype Setting = Setting(name: string, value: string)

  function Width(params: seq<string>): (n: nat)
    requires params != []
  {
    if IndexByte(params[0], '=') != -1 then 1 else 2
  }

  function FirstSetting(params: seq<string>): Setting
    requires params != [] && Width(params) <= |params|
  {
    var i := IndexByte(params[0], '=');
    if i != -1 then Setting(params[0][..i], params[0][i + 1..]) else Setting(params[0], params[1])
  }

  /** The settings of one line, left to right. */
  function ApplyParams(res: Resources, params: seq<string>): Extracted
    decreases |params|
  {
    if params == [] then Ok(res)
    else if Width(params) > |params| then Panic
    else
      var s := FirstSetting(params);
      var applied := ApplyParam(res, s.name, s.value);
      if applied.None? then Error else ApplyParams(applied.value, params[Width(params)..])
  }

  /** The lines of a script: blank lines and #! lines are skipped, the first other line that is no directive ends it. */
  function ExtractFrom(res: Resources, lines: seq<string>): Extracted
    decreases |lines|
  {
    if lines == [] then Ok(res)
    else if IsSkipped(lines[0]) then ExtractFrom(res, lines[1..])
    else if !IsDirective(lines[0]) then Ok(res)
    else
      var r := ApplyParams(res, Params(lines[0]));
      if r.Ok? then ExtractFrom(r.res, lines[1..]) else r
  }

  function Extract(script: string): Extracted { ExtractFrom(NOTHING, ScanLines(script)) }

  method ApplySbatchParam(res: Resources, param: string, value: string) returns (r: Option<Resources>)
    ensures r == ApplyParam(res, param, value)
  {
    match param
    case "--time" | "-t" =>
      var duration := ParseDuration(value);
      if duration.Invalid? { return None; }
      if duration.Duration? { return Some(res.(wallTime := duration.ns)); }
      return Some(res);
    case "--nodes" | "-N" =>
      var value := value;
      var i := IndexByte(value, '-');
      if i != -1 { value := value[..i]; }
      var n := ParseInt(value);
      if n.None? { return None; }
      return Some(res.(nodes := n.value));
    case "--mem-per-cpu" =>
      var n := ParseInt(value);
      if n.None? { return None; }
      return Some(res.(memPerCpu := n.value));
    case "--cpus-per-task" | "-c" =>
      var n := ParseInt(value);
      if n.None? { return None; }
      return Some(res.(cpusPerTask := n.value));
    case "--ntasks-per-node" =>
      var n := ParseInt(value);
      if n.None? { return None; }
      return Some(res.(ntasksPerNode := n.value));
    case _ =>
      return Some(res);
  }

  /** The inner loop, over the parameters of a line. */
  method ApplyLine(before: Resources, params: seq<string>) returns (r: Extracted)
    ensures r == ApplyParams(before, params)
  {
    hide ApplyParam, IndexByte;
    var res := before;
    var j := 0;
    while j < |params|
      invariant 0 <= j <= |params|
      invariant ApplyParams(before, params) == ApplyParams(res, params[j..])
    {
      var param := params[j];
      var value := "";
      var rest := params[j..];
      var i := IndexByte(param, '=');
      if i != -1 {
        value := param[i + 1..];
        param := param[..i];
      } else if i < |params| - 1 {
        if j + 1 >= |params| {
          return Panic;
        }
        value := params[j + 1];
        j := j + 1;
      }
      var applied := ApplySbatchParam(res, param, value);
      if applied.None? {
        return Error;
      }
      res := applied.value;
      j := j + 1;
      assert rest[Width(rest)..] == params[j..];
    }
    assert params[j..] == [];
    return Ok(res);
  }

  method ExtractBatchResourcesFromScript(script: string) returns (r: Extracted)
    ensures r == Extract(script)
  {
    hide ApplyParams;
    var lines := ScanLines(script);
    var res := NOTHING;
    var k := 0;
    while k < |lines|
      invariant 0 <= k <= |lines|
      invariant Extract(script) == ExtractFrom(res, lines[k..])
    {
      var line := lines[k];
      var rest := lines[k..];
      k := k + 1;
      assert rest[1..] == lines[k..];
      if line == "" || "#!" <= line {
        continue;
      }
      if !(HEADER <= line) {
        return Ok(res);
      }
      var applied := ApplyLine(res, Fields(line[|HEADER|..]));
      if !applied.Ok? {
        return applied;
      }
      res := applied.res;
    }
    assert lines[k..] == [];
    return Ok(res);
  }
}
