/** buildSLURMScript of pkg/slurm-agent/api/slurm.go, and what the operator reads back from its scripts. */
module ContainerScript {
  import opened Options
  import opened GoText
  import opened Durations
  import opened SbatchScript
  import opened ScriptLaws
  import opened Seqs

  datatype SingularityOptions = SingularityOptions(
    app: string,
    hostName: string,
    binds: seq<string>,
    clearEnv: bool,
    fakeRoot: bool,
    ipc: bool,
    pid: bool,
    noPrivs: bool,
    writable: bool,
    allowUnsigned: bool)

  datatype Request = Request(
    imageName: string,
    wallTime: int,
    memPerNode: int,
    nodes: int,
    cpuPerNode: int,
    options: SingularityOptions)

  /** strings.Join */
  function Join(parts: seq<string>, sep: string): string {
    if parts == [] then ""
    else if |parts| == 1 then parts[0]
    else parts[0] + sep + Join(parts[1..], sep)
  }

  const RUN := "srun singularity run"
  const LOCAL_FILE_PREFIX := "local.file"

  function FlagIf(present: bool, flag: string): seq<string> { if present then [flag] else [] }

  function RunFlags(opt: SingularityOptions): seq<string> {
    FlagIf(opt.app != "", "--app=\"" + opt.app + "\"")
    + FlagIf(opt.hostName != "", "--hostname=\"" + opt.hostName + "\"")
    + FlagIf(opt.binds != [], "--bind=\"" + Join(opt.binds, ",") + "\"")
    + FlagIf(opt.clearEnv, "-c") + FlagIf(opt.fakeRoot, "-f") + FlagIf(opt.ipc, "-i") + FlagIf(opt.pid, "-p")
    + FlagIf(opt.noPrivs, "--no-privs") + FlagIf(opt.writable, "-w")
  }

  /** buildRunCommand answers a format, with the options of the request in it. */
  function RunCommand(opt: SingularityOptions): (format: string)
    ensures RUN <= format
  {
    RUN + (if RunFlags(opt) != [] then " " + Join(RunFlags(opt), " ") else "") + " \"%s\" || exit"
  }

  method AppendFlag(flags: seq<string>, present: bool, flag: string) returns (r: seq<string>)
    ensures r == flags + FlagIf(present, flag)
  {
    r := flags;
    if present {
      r := r + [flag];
    }
  }

  method BuildRunCommand(opt: SingularityOptions) returns (format: string)
    ensures format == RunCommand(opt)
  {
    hide FlagIf, Join;
    var flags := [];
    flags := AppendFlag(flags, opt.app != "", "--app=\"" + opt.app + "\"");
    assert flags == FlagIf(opt.app != "", "--app=\"" + opt.app + "\"");
    flags := AppendFlag(flags, opt.hostName != "", "--hostname=\"" + opt.hostName + "\"");
    flags := AppendFlag(flags, |opt.binds| != 0, "--bind=\"" + Join(opt.binds, ",") + "\"");
    flags := AppendFlag(flags, opt.clearEnv, "-c");
    flags := AppendFlag(flags, opt.fakeRoot, "-f");
    flags := AppendFlag(flags, opt.ipc, "-i");
    flags := AppendFlag(flags, opt.pid, "-p");
    flags := AppendFlag(flags, opt.noPrivs, "--no-privs");
    flags := AppendFlag(flags, opt.writable, "-w");
    var run := RUN;
    if |flags| != 0 {
      run := run + " " + Join(flags, " ");
    }
    format := run + " " + "\"%s\" || exit";
    RunIsWhole(flags);
  }

  lemma RunIsWhole(flags: seq<string>)
    ensures RUN + " " + Join(flags, " ") + " " + "\"%s\" || exit" == RUN + (" " + Join(flags, " ")) + " \"%s\" || exit"
    ensures RUN + " " + "\"%s\" || exit" == RUN + "" + " \"%s\" || exit"
  {
    assert " " + "\"%s\" || exit" == " \"%s\" || exit";
  }

  /** A flag stands in the command exactly if its option asks for it. */
  lemma FlagsAreAskedFor(opt: SingularityOptions)
    ensures "-c" in RunFlags(opt) <==> opt.clearEnv
    ensures "-f" in RunFlags(opt) <==> opt.fakeRoot
    ensures "-i" in RunFlags(opt) <==> opt.ipc
    ensures "-p" in RunFlags(opt) <==> opt.pid
    ensures "-w" in RunFlags(opt) <==> opt.writable
    ensures "--no-privs" in RunFlags(opt) <==> opt.noPrivs
  {
    OnlyShortOnes(opt, "-c");
    OnlyShortOnes(opt, "-f");
    OnlyShortOnes(opt, "-i");
    OnlyShortOnes(opt, "-p");
    OnlyShortOnes(opt, "-w");
    OnlyShortOnes(opt, "--no-privs");
  }

  lemma OnlyShortOnes(opt: SingularityOptions, flag: string)
    requires |flag| == 2 || flag == "--no-privs"
    ensures flag in RunFlags(opt) <==>
            || (flag == "-c" && opt.clearEnv) || (flag == "-f" && opt.fakeRoot) || (flag == "-i" && opt.ipc)
            || (flag == "-p" && opt.pid) || (flag == "-w" && opt.writable) || (flag == "--no-privs" && opt.noPrivs)
  {
    hide Join, FlagIf;
    NotAsLong(flag, "--app=", opt.app);
    NotAsLong(flag, "--hostname=", opt.hostName);
    NotAsLong(flag, "--bind=", Join(opt.binds, ","));
    InFlagIf(flag, opt.app != "", "--app=\"" + opt.app + "\"");
    InFlagIf(flag, opt.hostName != "", "--hostname=\"" + opt.hostName + "\"");
    InFlagIf(flag, opt.binds != [], "--bind=\"" + Join(opt.binds, ",") + "\"");
    InFlagIf(flag, opt.clearEnv, "-c");
    InFlagIf(flag, opt.fakeRoot, "-f");
    InFlagIf(flag, opt.ipc, "-i");
    InFlagIf(flag, opt.pid, "-p");
    InFlagIf(flag, opt.noPrivs, "--no-privs");
    InFlagIf(flag, opt.writable, "-w");
  }

  lemma InFlagIf(flag: string, present: bool, f: string)
    ensures flag in FlagIf(present, f) <==> present && flag == f
  {
  }

  lemma NotAsLong(flag: string, name: string, value: string)
    requires |flag| == 2 || flag == "--no-privs"
    requires name in ["--app=", "--hostname=", "--bind="]
    ensures flag != name + "\"" + value + "\""
  {
    assert (name + "\"" + value + "\"")[2] == name[2];
  }

  /** The options with a value: each is given exactly if it is set, with its value between quotes. */
  lemma ValuesAreGiven(opt: SingularityOptions, v: string)
    ensures "--app=\"" + v + "\"" in RunFlags(opt) <==> opt.app != "" && v == opt.app
    ensures "--hostname=\"" + v + "\"" in RunFlags(opt) <==> opt.hostName != "" && v == opt.hostName
    ensures "--bind=\"" + v + "\"" in RunFlags(opt) <==> opt.binds != [] && v == Join(opt.binds, ",")
  {
    hide Join, RunFlags;
    assert "--app=\"" + v + "\"" == Quoted("--app=", v);
    assert "--hostname=\"" + v + "\"" == Quoted("--hostname=", v);
    assert "--bind=\"" + v + "\"" == Quoted("--bind=", v);
    assert |"--app="| == 6 && |"--hostname="| == 11 && |"--bind="| == 7;
    ValueFlag(opt, "--app=", v);
    ValueFlag(opt, "--hostname=", v);
    ValueFlag(opt, "--bind=", v);
  }

  predicate IsValueName(name: string) { name == "--app=" || name == "--hostname=" || name == "--bind=" }

  function Quoted(name: string, v: string): string { name + "\"" + v + "\"" }

  lemma QuotedIsReadable(m: string, v: string, n: string, w: string)
    requires IsValueName(m) && IsValueName(n)
    ensures Quoted(m, v) == Quoted(n, w) <==> m == n && v == w
  {
    var x, y := Quoted(m, v), Quoted(n, w);
    assert x[2] == m[2] && y[2] == n[2];
    if m == n {
      assert x[|m| + 1..|x| - 1] == v && y[|m| + 1..|y| - 1] == w;
    }
  }

  lemma QuotedIsLong(name: string, v: string, f: string)
    requires IsValueName(name) && (|f| == 2 || f == "--no-privs")
    ensures Quoted(name, v) != f
  {
    assert Quoted(name, v)[2] == name[2];
  }

  lemma ValueFlag(opt: SingularityOptions, name: string, v: string)
    requires IsValueName(name)
    ensures Quoted(name, v) in RunFlags(opt) <==>
            || (name == "--app=" && opt.app != "" && v == opt.app)
            || (name == "--hostname=" && opt.hostName != "" && v == opt.hostName)
            || (name == "--bind=" && opt.binds != [] && v == Join(opt.binds, ","))
  {
    hide Join, FlagIf, Quoted;
    var flag := Quoted(name, v);
    RunFlagsInParts(opt);
    QuotedIsReadable(name, v, "--app=", opt.app);
    QuotedIsReadable(name, v, "--hostname=", opt.hostName);
    QuotedIsReadable(name, v, "--bind=", Join(opt.binds, ","));
    QuotedIsLong(name, v, "-c");
    QuotedIsLong(name, v, "-f");
    QuotedIsLong(name, v, "-i");
    QuotedIsLong(name, v, "-p");
    QuotedIsLong(name, v, "--no-privs");
    QuotedIsLong(name, v, "-w");
    InFlagIf(flag, opt.app != "", Quoted("--app=", opt.app));
    InFlagIf(flag, opt.hostName != "", Quoted("--hostname=", opt.hostName));
    InFlagIf(flag, opt.binds != [], Quoted("--bind=", Join(opt.binds, ",")));
    InFlagIf(flag, opt.clearEnv, "-c");
    InFlagIf(flag, opt.fakeRoot, "-f");
    InFlagIf(flag, opt.ipc, "-i");
    InFlagIf(flag, opt.pid, "-p");
    InFlagIf(flag, opt.noPrivs, "--no-privs");
    InFlagIf(flag, opt.writable, "-w");
  }

  lemma RunFlagsInParts(opt: SingularityOptions)
    ensures RunFlags(opt)
         == FlagIf(opt.app != "", Quoted("--app=", opt.app))
            + FlagIf(opt.hostName != "", Quoted("--hostname=", opt.hostName))
            + FlagIf(opt.binds != [], Quoted("--bind=", Join(opt.binds, ",")))
            + FlagIf(opt.clearEnv, "-c") + FlagIf(opt.fakeRoot, "-f") + FlagIf(opt.ipc, "-i") + FlagIf(opt.pid, "-p")
            + FlagIf(opt.noPrivs, "--no-privs") + FlagIf(opt.writable, "-w")
  {
    hide Join, FlagIf;
    assert Quoted("--app=", opt.app) == "--app=\"" + opt.app + "\"";
    assert Quoted("--hostname=", opt.hostName) == "--hostname=\"" + opt.hostName + "\"";
    assert Quoted("--bind=", Join(opt.binds, ",")) == "--bind=\"" + Join(opt.binds, ",") + "\"";
  }

  /** The command as it is written. */
  lemma CommandReads(opt: SingularityOptions)
    ensures RunFlags(opt) == [] ==> RunCommand(opt) == "srun singularity run \"%s\" || exit"
    ensures RunFlags(opt) != [] ==>
              RunCommand(opt) == "srun singularity run " + Join(RunFlags(opt), " ") + " \"%s\" || exit"
  {
    hide Join, RunFlags;
    var flags := Join(RunFlags(opt), " ");
    assert RUN + " " == "srun singularity run ";
    if RunFlags(opt) == [] {
      assert RUN + "" + " \"%s\" || exit" == RUN + " " + "\"%s\" || exit";
    } else {
      Associate(RUN, " ", flags);
    }
  }

  /** fmt.Sprintf with one argument. All that is used of it: it copies what stands before the first verb. */
  type Sprintf = (string, string) -> string

  ghost predicate CopiesStart(sprintf: Sprintf) {
    forall format, arg :: RUN <= format ==> RUN <= sprintf(format, arg)
  }

  /** A directive for a number, left out when it is zero. */
  function Number(param: string, prefix: string, n: int): seq<string> {
    if n != 0 then [Directive(" " + param + "=" + (prefix + FormatInt(n)))] else []
  }

  /** The lines that say what resources are needed. */
  function Directives(r: Request): seq<string> {
    ["#!/bin/sh"]
    + Number("--time", "0:", r.wallTime)
    + Number("--mem", "", r.memPerNode)
    + Number("--nodes", "", r.nodes)
    + Number("--cpus-per-task", "", r.cpuPerNode)
  }

  /** The lines that run the container; `id` is the fresh name of a pulled image. */
  function Commands(r: Request, id: string, sprintf: Sprintf): (lines: seq<string>)
    ensures lines != []
  {
    if LOCAL_FILE_PREFIX <= r.imageName then
      var image := r.imageName[|LOCAL_FILE_PREFIX|..];
      (if r.options.allowUnsigned then [] else ["srun singularity verify \"" + image + "\" || exit"])
      + [sprintf(RunCommand(r.options), image)]
    else
      ["srun singularity pull " + (if r.options.allowUnsigned then "-U " else "") + "--name \"" + id + "\" \""
       + r.imageName + "\" || exit",
       sprintf(RunCommand(r.options), id),
       "srun rm \"" + id + "\""]
  }

  function ScriptLines(r: Request, id: string, sprintf: Sprintf): seq<string> {
    Directives(r) + Commands(r, id, sprintf)
  }

  method BuildSLURMScript(r: Request, id: string, sprintf: Sprintf) returns (script: string)
    ensures script == Join(ScriptLines(r, id, sprintf), "\n")
  {
    hide Join, Directive, FormatInt, RunCommand;
    var runT := BuildRunCommand(r.options);
    var lines := ["#!/bin/sh"];
    if r.wallTime != 0 {
      lines := lines + [Directive(" " + "--time" + "=" + ("0:" + FormatInt(r.wallTime)))];
    }
    assert lines == ["#!/bin/sh"] + Number("--time", "0:", r.wallTime);
    ghost var sofar := lines;
    if r.memPerNode != 0 {
      lines := lines + [Directive(" " + "--mem" + "=" + ("" + FormatInt(r.memPerNode)))];
    }
    assert lines == sofar + Number("--mem", "", r.memPerNode);
    sofar := lines;
    if r.nodes != 0 {
      lines := lines + [Directive(" " + "--nodes" + "=" + ("" + FormatInt(r.nodes)))];
    }
    assert lines == sofar + Number("--nodes", "", r.nodes);
    sofar := lines;
    if r.cpuPerNode != 0 {
      lines := lines + [Directive(" " + "--cpus-per-task" + "=" + ("" + FormatInt(r.cpuPerNode)))];
    }
    assert lines == sofar + Number("--cpus-per-task", "", r.cpuPerNode);
    var commands := RunImage(r, id, runT, sprintf);
    lines := lines + commands;
    return Join(lines, "\n");
  }

  /** The end of buildSLURMScript: a local image is run as it is, any other is pulled first and removed after. */
  method RunImage(r: Request, id: string, runT: string, sprintf: Sprintf) returns (lines: seq<string>)
    requires runT == RunCommand(r.options)
    ensures lines == Commands(r, id, sprintf)
  {
    hide RunCommand;
    lines := [];
    if LOCAL_FILE_PREFIX <= r.imageName {
      var image := r.imageName[|LOCAL_FILE_PREFIX|..];
      if !r.options.allowUnsigned {
        lines := lines + ["srun singularity verify \"" + image + "\" || exit"];
      }
      lines := lines + [sprintf(runT, image)];
    } else {
      var unsigned := if r.options.allowUnsigned then "-U " else "";
      lines := lines + ["srun singularity pull " + unsigned + "--name \"" + id + "\" \"" + r.imageName + "\" || exit"];
      lines := lines + [sprintf(runT, id)];
      lines := lines + ["srun rm \"" + id + "\""];
    }
  }

  // The lines of the script, said without the functions above

  predicate Verifies(line: string) { "srun singularity verify" <= line }

  lemma DirectivesVerifyNothing(r: Request)
    ensures forall i | 0 <= i < |Directives(r)| :: Directives(r)[i] != "" && Directives(r)[i][0] == '#'
  {
    hide FormatInt;
  }

  lemma NotVerifying(line: string, image: string)
    requires line != "" && (line[0] == '#' || RUN <= line)
    ensures !Verifies(line)
    ensures Verifies("srun singularity verify \"" + image + "\" || exit")
  {
    if RUN <= line {
      assert line[..|RUN|] == RUN && line[17] == 'r';
    }
  }

  /**
   A local image is run by the last line. The line before it verifies the image unless unsigned images are allowed, and
   then no line of the script verifies anything.
   */
  lemma LocalImageIsVerified(r: Request, image: string, id: string, sprintf: Sprintf)
    requires r.imageName == "local.file" + image && CopiesStart(sprintf)
    ensures var lines := ScriptLines(r, id, sprintf);
            var n := |lines|;
            && n >= 2 && lines[n - 1] == sprintf(RunCommand(r.options), image)
            && (!r.options.allowUnsigned ==> lines[n - 2] == "srun singularity verify \"" + image + "\" || exit")
            && (r.options.allowUnsigned ==> forall i | 0 <= i < n :: !Verifies(lines[i]))
  {
    hide RunCommand, Directives, Verifies;
    assert r.imageName[..|LOCAL_FILE_PREFIX|] == LOCAL_FILE_PREFIX && r.imageName[|LOCAL_FILE_PREFIX|..] == image;
    DirectivesVerifyNothing(r);
    ShebangIsFirst(r);
    var lines := ScriptLines(r, id, sprintf);
    if r.options.allowUnsigned {
      forall i | 0 <= i < |lines| ensures !Verifies(lines[i]) {
        NotVerifying(lines[i], image);
      }
    }
  }

  lemma ShebangIsFirst(r: Request)
    ensures Directives(r) != [] && Directives(r)[0] == "#!/bin/sh"
  {
    hide Number;
  }

  /** Any other image is pulled under a name of its own, run under that name, and removed by that name. */
  lemma OtherImageIsPulled(r: Request, id: string, sprintf: Sprintf)
    requires !("local.file" <= r.imageName)
    ensures var lines := ScriptLines(r, id, sprintf);
            var n := |lines|;
            && n >= 4
            && lines[n - 3] == (if r.options.allowUnsigned then "srun singularity pull -U --name \""
                                else "srun singularity pull --name \"") + id + "\" \"" + r.imageName + "\" || exit"
            && lines[n - 2] == sprintf(RunCommand(r.options), id)
            && lines[n - 1] == "srun rm \"" + id + "\""
  {
    hide RunCommand, Directives;
    ShebangIsFirst(r);
    assert "srun singularity pull " + "-U " + "--name \"" == "srun singularity pull -U --name \"";
    assert "srun singularity pull " + "" + "--name \"" == "srun singularity pull --name \"";
  }

  const MEM := "#SBATCH --mem="

  lemma MemLine(n: int)
    ensures Number("--mem", "", n) == if n != 0 then [MEM + FormatInt(n)] else []
  {
    hide FormatInt;
    assert Directive(" " + "--mem" + "=" + ("" + FormatInt(n))) == MEM + FormatInt(n);
  }

  lemma NoMemLine(param: string, prefix: string, n: int)
    requires |param| > 2 && param[2] != 'm'
    ensures forall i | 0 <= i < |Number(param, prefix, n)| :: !(MEM <= Number(param, prefix, n)[i])
  {
    hide FormatInt;
    var line := Directive(" " + param + "=" + (prefix + FormatInt(n)));
    assert line[10] == param[2] && MEM[10] == 'm';
  }

  lemma CommandsAskForNothing(r: Request, id: string, sprintf: Sprintf)
    requires CopiesStart(sprintf)
    ensures forall i | 0 <= i < |Commands(r, id, sprintf)| :: !(MEM <= Commands(r, id, sprintf)[i])
  {
    hide RunCommand;
    assert RUN[0] == 's' && MEM[0] == '#';
  }

  /** The script asks for memory exactly if some is requested, and for that much; the operator does not read it back. */
  lemma MemoryIsAskedFor(r: Request, id: string, sprintf: Sprintf)
    requires CopiesStart(sprintf)
    ensures var lines := ScriptLines(r, id, sprintf);
            && (r.memPerNode != 0 ==> MEM + FormatInt(r.memPerNode) in lines)
            && forall i | 0 <= i < |lines| && MEM <= lines[i] ::
                 r.memPerNode != 0 && lines[i] == MEM + FormatInt(r.memPerNode)
  {
    hide FormatInt, Commands, Number;
    MemLine(r.memPerNode);
    NoMemLine("--time", "0:", r.wallTime);
    NoMemLine("--nodes", "", r.nodes);
    NoMemLine("--cpus-per-task", "", r.cpuPerNode);
    CommandsAskForNothing(r, id, sprintf);
    assert MEM[1] != "#!/bin/sh"[1];
    var t, m := Number("--time", "0:", r.wallTime), Number("--mem", "", r.memPerNode);
    var n, c := Number("--nodes", "", r.nodes), Number("--cpus-per-task", "", r.cpuPerNode);
    var lines := ScriptLines(r, id, sprintf);
    assert lines == ["#!/bin/sh"] + t + m + n + c + Commands(r, id, sprintf);
    forall i | 0 <= i < |lines| && MEM <= lines[i]
      ensures r.memPerNode != 0 && lines[i] == MEM + FormatInt(r.memPerNode) {
      var l := lines[i];
      assert l in ["#!/bin/sh"] || l in t || l in m || l in n || l in c || l in Commands(r, id, sprintf);
    }
    if r.memPerNode != 0 {
      assert MEM + FormatInt(r.memPerNode) in m;
    }
  }

  lemma {:induction false} JoinIsText(head: seq<string>, tail: seq<string>)
    requires tail != []
    ensures Join(head + tail, "\n") == JoinLines(head) + Join(tail, "\n")
  {
    if head == [] {
      assert head + tail == tail;
      assert JoinLines(head) + Join(tail, "\n") == Join(tail, "\n");
    } else {
      JoinIsText(head[1..], tail);
      assert (head + tail)[1..] == head[1..] + tail && (head + tail)[0] == head[0];
      Associate(head[0] + "\n", JoinLines(head[1..]), Join(tail, "\n"));
    }
  }

  /** Every command line begins a text that no directive begins. */
  lemma CommandsStart(r: Request, id: string, sprintf: Sprintf)
    requires CopiesStart(sprintf)
    ensures "srun" <= Join(Commands(r, id, sprintf), "\n")
  {
    hide RunCommand;
    var first := Commands(r, id, sprintf)[0];
    assert "srun" <= RUN;
    assert "srun" <= first;
    JoinStarts(Commands(r, id, sprintf));
  }

  lemma JoinStarts(lines: seq<string>)
    requires lines != []
    ensures lines[0] <= Join(lines, "\n")
  {
  }

  function UpToNewline(text: string): string {
    var i := IndexByte(text, '\n');
    if i == -1 then text else text[..i]
  }

  lemma FirstLine(text: string)
    requires ScanLines(text) != []
    ensures ScanLines(text)[0] == DropCR(UpToNewline(text))
  {
  }

  lemma CommandStaysInFront(text: string)
    requires "srun" <= text
    ensures "srun" <= UpToNewline(text)
  {
    var i := IndexByte(text, '\n');
    assert text[..4] == "srun";
    assert text[0] == 's' && text[1] == 'r' && text[2] == 'u' && text[3] == 'n';
    if i != -1 {
      assert i >= 4;
      assert text[..i][..4] == text[..4];
    }
  }

  lemma CommandBeforeCR(line: string)
    requires "srun" <= line
    ensures "srun" <= DropCR(line)
  {
    assert line[..4] == "srun" && line[3] == 'n';
  }

  /** A text that begins with a command has nothing to extract, however long its lines. */
  lemma NothingInCommands(res: Resources, text: string)
    requires "srun" <= text
    ensures ExtractFrom(res, ScanLines(text)) == Ok(res)
  {
    hide ScanLines, IndexByte, UpToNewline, DropCR;
    if ScanLines(text) != [] {
      FirstLine(text);
      CommandStaysInFront(text);
      CommandBeforeCR(UpToNewline(text));
      hide IsSkipped, IsDirective;
      StartsNoDirective(ScanLines(text)[0]);
    }
  }

  lemma StartsNoDirective(line: string)
    requires "srun" <= line
    ensures EndsDirectives(line)
  {
    assert line[0] == 's';
  }

  lemma {:induction false} FormatLength(n: nat, k: nat, bound: nat)
    requires bound == PowerOfTen(k) && n < bound && k > 0
    ensures |FormatNat(n)| <= k
  {
    if n >= 10 {
      assert PowerOfTen(0) == 1;
      FormatLength(n / 10, k - 1, PowerOfTen(k - 1));
    }
  }

  function PowerOfTen(k: nat): nat { if k == 0 then 1 else 10 * PowerOfTen(k - 1) }

  lemma NumbersAreShort(n: int)
    requires IsInt64(n)
    ensures |FormatInt(n)| <= 20
  {
    assert PowerOfTen(4) == 10000;
    assert PowerOfTen(8) == 1_0000_0000;
    assert PowerOfTen(12) == 1_0000_0000_0000;
    assert PowerOfTen(16) == 1_0000_0000_0000_0000;
    assert PowerOfTen(19) == 1000_0000_0000_0000_0000;
    FormatLength(if n < 0 then -n else n, 19, PowerOfTen(19));
  }

  predicate IsShortWord(s: string) { SpaceFree(s) && |s| <= 100 }

  lemma SettingIsPlain(param: string, value: string)
    requires IsShortWord(param) && IsShortWord(value) && value != ""
    ensures IsPlain(Directive(" " + param + "=" + value))
  {
    var line := Directive(" " + param + "=" + value);
    assert line[|line| - 1] == value[|value| - 1];
    assert !IsSpace(value[|value| - 1]);
  }

  /** One line with one setting is that setting applied. */
  lemma SettingLine(res: Resources, param: string, value: string, after: seq<string>)
    requires IsWord(param) && Free(param, '=') && SpaceFree(value)
    ensures ExtractFrom(res, [Directive(" " + param + "=" + value)] + after)
         == var applied := ApplyParam(res, param, value);
            if applied.Some? then ExtractFrom(applied.value, after) else Error
  {
    hide ApplyParam, Fields, IndexByte, ExtractFrom;
    var params := [param + "=" + value];
    ExtractDirective(res, " " + param + "=" + value, after);
    FieldsOfWord(param + "=" + value);
    assert " " + param + "=" + value == " " + (param + "=" + value);
    IndexByteAfter(param, '=', value);
    assert FirstSetting(params) == Setting(param, value) && params[1..] == [];
  }

  lemma NumberIsWord(prefix: string, n: int)
    requires IsShortWord(prefix) && |prefix| <= 50 && IsInt64(n)
    ensures IsShortWord(prefix + FormatInt(n)) && prefix + FormatInt(n) != ""
  {
    FormatIsPlain(n);
    NumbersAreShort(n);
  }

  /** A printed number read back by the parameter it was printed for. */
  function Read(res: Resources, param: string, prefix: string, n: int): Extracted {
    if n == 0 then Ok(res)
    else
      var applied := ApplyParam(res, param, prefix + FormatInt(n));
      if applied.Some? then Ok(applied.value) else Error
  }

  lemma NumberRead(res: Resources, param: string, prefix: string, n: int, after: seq<string>)
    requires IsWord(param) && Free(param, '=') && IsShortWord(prefix) && |prefix| <= 50 && IsInt64(n)
    ensures ExtractFrom(res, Number(param, prefix, n) + after)
         == var r := Read(res, param, prefix, n); if r.Ok? then ExtractFrom(r.res, after) else r
  {
    hide ApplyParam, ExtractFrom, FormatInt, Directive;
    NumberIsWord(prefix, n);
    if n == 0 {
      assert [] + after == after;
    } else {
      SettingLine(res, param, prefix + FormatInt(n), after);
    }
  }

  lemma TimeRead(res: Resources, n: int)
    requires IsInt64(n) && res.wallTime == 0
    ensures Read(res, "--time", "0:", n) == Ok(res.(wallTime := Wrap64(n * SECOND)))
  {
    if n != 0 {
      TimeApplied(res, n);
    }
  }

  lemma TimeApplied(res: Resources, n: int)
    requires IsInt64(n)
    ensures ApplyParam(res, "--time", "0:" + FormatInt(n)) == Some(res.(wallTime := Wrap64(n * SECOND)))
  {
    hide ParseInt, FormatInt, Wrap64, DurationOf;
    ParseOfFormat(n);
    FormatIsPlain(n);
    SecondsAlone(FormatInt(n), n);
    assert MinutesClock("0", FormatInt(n)) == "0:" + FormatInt(n);
  }

  lemma MemRead(res: Resources, n: int)
    ensures Read(res, "--mem", "", n) == Ok(res)
  {
  }

  lemma NodesRead(res: Resources, n: int)
    requires IsInt64(n) && res.nodes == 0
    ensures Read(res, "--nodes", "", n) == if n < 0 then Error else Ok(res.(nodes := n))
  {
    ParseOfFormat(n);
    FormatIsPlain(n);
    var text := FormatInt(n);
    assert "" + text == text;
    if n < 0 {
      IndexByteAt(text, '-', 0);
      assert UpToDash(text) == "";
    } else {
      assert UpToDash(text) == text;
    }
  }

  lemma CpusRead(res: Resources, n: int)
    requires IsInt64(n) && res.cpusPerTask == 0
    ensures Read(res, "--cpus-per-task", "", n) == Ok(res.(cpusPerTask := n))
  {
    ParseOfFormat(n);
    assert "" + FormatInt(n) == FormatInt(n);
  }

  predicate IsRequest(r: Request) {
    IsInt64(r.wallTime) && IsInt64(r.memPerNode) && IsInt64(r.nodes) && IsInt64(r.cpuPerNode)
  }

  lemma NumberIsPlain(param: string, prefix: string, n: int)
    requires IsShortWord(param) && IsShortWord(prefix) && |prefix| <= 50 && IsInt64(n)
    ensures ArePlain(Number(param, prefix, n))
  {
    NumberIsWord(prefix, n);
    if n != 0 {
      SettingIsPlain(param, prefix + FormatInt(n));
    }
  }

  lemma PlainAppend(a: seq<string>, b: seq<string>)
    requires ArePlain(a) && ArePlain(b)
    ensures ArePlain(a + b)
  {
  }

  lemma DirectivesArePlain(r: Request)
    requires IsRequest(r)
    ensures ArePlain(Directives(r))
  {
    hide ArePlain, Number;
    assert ArePlain(["#!/bin/sh"]) by { ShebangIsPlain(); }
    NumberIsPlain("--time", "0:", r.wallTime);
    NumberIsPlain("--mem", "", r.memPerNode);
    NumberIsPlain("--nodes", "", r.nodes);
    NumberIsPlain("--cpus-per-task", "", r.cpuPerNode);
    var t, m, n, c := Number("--time", "0:", r.wallTime), Number("--mem", "", r.memPerNode),
                      Number("--nodes", "", r.nodes), Number("--cpus-per-task", "", r.cpuPerNode);
    PlainAppend(["#!/bin/sh"], t);
    PlainAppend(["#!/bin/sh"] + t, m);
    PlainAppend(["#!/bin/sh"] + t + m, n);
    PlainAppend(["#!/bin/sh"] + t + m + n, c);
  }

  lemma ShebangIsPlain()
    ensures ArePlain(["#!/bin/sh"])
  {
    var line := "#!/bin/sh";
    assert line[|line| - 1] == 'h';
  }

  lemma InOrder(first: string, t: seq<string>, m: seq<string>, n: seq<string>, c: seq<string>, after: seq<string>)
    ensures [first] + t + m + n + c + after == [first] + (t + (m + (n + (c + after))))
  {
  }

  lemma SkipShebang(res: Resources, rest: seq<string>)
    ensures ExtractFrom(res, ["#!/bin/sh"] + rest) == ExtractFrom(res, rest)
  {
    var lines := ["#!/bin/sh"] + rest;
    assert lines[0] == "#!/bin/sh" && lines[1..] == rest;
    assert IsSkipped("#!/bin/sh");
  }

  /** What the directives alone ask for. */
  lemma DirectivesRead(r: Request, after: seq<string>)
    requires IsRequest(r)
    ensures ExtractFrom(NOTHING, Directives(r) + after)
         == if r.nodes < 0 then Error
            else ExtractFrom(NOTHING.(wallTime := Wrap64(r.wallTime * SECOND), nodes := r.nodes,
                                      cpusPerTask := r.cpuPerNode), after)
  {
    hide Number, Read, Wrap64, ExtractFrom;
    var t, m, n, c := Number("--time", "0:", r.wallTime), Number("--mem", "", r.memPerNode),
                      Number("--nodes", "", r.nodes), Number("--cpus-per-task", "", r.cpuPerNode);
    InOrder("#!/bin/sh", t, m, n, c, after);
    SkipShebang(NOTHING, t + (m + (n + (c + after))));
    var timed := NOTHING.(wallTime := Wrap64(r.wallTime * SECOND));
    var sized := timed.(nodes := r.nodes);
    NumberRead(NOTHING, "--time", "0:", r.wallTime, m + (n + (c + after)));
    TimeRead(NOTHING, r.wallTime);
    NumberRead(timed, "--mem", "", r.memPerNode, n + (c + after));
    MemRead(timed, r.memPerNode);
    NumberRead(timed, "--nodes", "", r.nodes, c + after);
    NodesRead(timed, r.nodes);
    NumberRead(sized, "--cpus-per-task", "", r.cpuPerNode, after);
    CpusRead(sized, r.cpuPerNode);
  }

  /**
   The round trip. Whatever the image and the options: from the script built for a request the operator reads back the
   nodes, the cpus, the wall time as nanoseconds in 64 bits, and nothing else; only a negative number of nodes cannot
   be read.
   */
  lemma ScriptRoundTrip(r: Request, id: string, sprintf: Sprintf)
    requires IsRequest(r) && CopiesStart(sprintf)
    ensures Extract(Join(ScriptLines(r, id, sprintf), "\n"))
         == if r.nodes < 0 then Error
            else Ok(NOTHING.(wallTime := Wrap64(r.wallTime * SECOND), nodes := r.nodes, cpusPerTask := r.cpuPerNode))
  {
    hide Join, ScanLines, Directives, Commands, ExtractFrom, ArePlain, Wrap64;
    var head, commands := Directives(r), Commands(r, id, sprintf);
    var text := Join(commands, "\n");
    JoinIsText(head, commands);
    DirectivesArePlain(r);
    ScanJoined(head, text);
    DirectivesRead(r, ScanLines(text));
    CommandsStart(r, id, sprintf);
    if r.nodes >= 0 {
      NothingInCommands(NOTHING.(wallTime := Wrap64(r.wallTime * SECOND), nodes := r.nodes,
                                 cpusPerTask := r.cpuPerNode), text);
    }
  }

  /** It is exact if and only if the number of nodes is not negative and the wall time's nanoseconds fit 64 bits. */
  lemma RoundTripIsExact(r: Request, id: string, sprintf: Sprintf)
    requires IsRequest(r) && CopiesStart(sprintf)
    ensures Extract(Join(ScriptLines(r, id, sprintf), "\n"))
              == Ok(Resources(r.nodes, r.cpuPerNode, 0, 0, r.wallTime * SECOND, 0, ""))
      <==> r.nodes >= 0 && IsInt64(r.wallTime * SECOND)
  {
    hide Extract, Join, ScriptLines;
    ScriptRoundTrip(r, id, sprintf);
  }
}
