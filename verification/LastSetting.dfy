/**
 A second reading of what extraction answers, field by field and without any running state: of all settings in front
 of the first bare parameter without a value, the last one that sets a field decides it.
 */
module LastSetting {
  import opened Options
  import opened GoText
  import opened Durations
  import opened SbatchScript
  import opened ScriptLaws
  import opened Seqs

  /** The settings of a line, up to a bare parameter at its end. */
  function SettingsOf(params: seq<string>): seq<Setting>
    decreases |params|
  {
    if params == [] || Width(params) > |params| then []
    else [FirstSetting(params)] + SettingsOf(params[Width(params)..])
  }

  predicate IsReached(line: string) { IsDirective(line) && !IsSkipped(line) }

  /** Every directive that is reached pairs its parameters with values. */
  predicate AllPaired(lines: seq<string>) {
    || lines == []
    || EndsDirectives(lines[0])
    || ((IsReached(lines[0]) ==> Paired(Params(lines[0]))) && AllPaired(lines[1..]))
  }

  /** The settings that are reached: those in front of the first bare parameter without a value. */
  function AllSettings(lines: seq<string>): seq<Setting> {
    if lines == [] || EndsDirectives(lines[0]) then []
    else if IsSkipped(lines[0]) then AllSettings(lines[1..])
    else
      var params := Params(lines[0]);
      SettingsOf(params) + if Paired(params) then AllSettings(lines[1..]) else []
  }

  function NodesSet(s: Setting): Option<int> {
    if s.name in {"--nodes", "-N"} then ParseInt(UpToDash(s.value)) else None
  }

  function CpusSet(s: Setting): Option<int> {
    if s.name in {"--cpus-per-task", "-c"} then ParseInt(s.value) else None
  }

  function MemSet(s: Setting): Option<int> { if s.name == "--mem-per-cpu" then ParseInt(s.value) else None }

  function TasksSet(s: Setting): Option<int> { if s.name == "--ntasks-per-node" then ParseInt(s.value) else None }

  /** An unlimited time sets nothing: it does not undo an earlier limit. */
  function TimeSet(s: Setting): Option<int> {
    if s.name in {"--time", "-t"} && DurationOf(s.value).Duration? then Some(DurationOf(s.value).ns) else None
  }

  predicate IsValid(s: Setting) {
    && (s.name in {"--nodes", "-N"} ==> ParseInt(UpToDash(s.value)).Some?)
    && (s.name in {"--cpus-per-task", "-c", "--mem-per-cpu", "--ntasks-per-node"} ==> ParseInt(s.value).Some?)
    && (s.name in {"--time", "-t"} ==> DurationOf(s.value) != Invalid)
  }

  /** The value that the last setting of a field gives it, or what it was before. */
  function Last(settings: seq<Setting>, sets: Setting -> Option<int>, before: int): int
    decreases |settings|
  {
    if settings == [] then before
    else
      var n := |settings| - 1;
      if sets(settings[n]).Some? then sets(settings[n]).value else Last(settings[..n], sets, before)
  }

  function Decided(settings: seq<Setting>, before: Resources): Resources {
    Resources(
      Last(settings, NodesSet, before.nodes),
      Last(settings, CpusSet, before.cpusPerTask),
      Last(settings, TasksSet, before.ntasksPerNode),
      Last(settings, MemSet, before.memPerCpu),
      Last(settings, TimeSet, before.wallTime),
      before.ntasks,
      before.arrayIds)
  }

  predicate AllValid(settings: seq<Setting>) { forall s | s in settings :: IsValid(s) }

  /** An invalid setting fails; otherwise `paired` says whether there is an answer or an index out of range. */
  function Outcome(settings: seq<Setting>, paired: bool, before: Resources): Extracted {
    if !AllValid(settings) then Error
    else if paired then Ok(Decided(settings, before))
    else Panic
  }

  function GetOr(o: Option<int>, d: int): int { if o.Some? then o.value else d }

  lemma ApplyIsValid(res: Resources, s: Setting)
    ensures ApplyParam(res, s.name, s.value).Some? <==> IsValid(s)
    ensures IsValid(s) ==> ApplyParam(res, s.name, s.value).value == Resources(
      GetOr(NodesSet(s), res.nodes), GetOr(CpusSet(s), res.cpusPerTask), GetOr(TasksSet(s), res.ntasksPerNode),
      GetOr(MemSet(s), res.memPerCpu), GetOr(TimeSet(s), res.wallTime), res.ntasks, res.arrayIds)
  {
    hide ParseInt, DurationOf, UpToDash;
  }

  lemma {:induction false} LastCons(s: Setting, rest: seq<Setting>, sets: Setting -> Option<int>, before: int)
    ensures Last([s] + rest, sets, before) == Last(rest, sets, GetOr(sets(s), before))
    decreases |rest|
  {
    var all := [s] + rest;
    if rest == [] {
      assert all[..0] == [];
    } else {
      var n := |rest| - 1;
      assert all[|all| - 1] == rest[n] && all[..|all| - 1] == [s] + rest[..n];
      LastCons(s, rest[..n], sets, before);
    }
  }

  /** Apply the first setting and decide the rest, or decide them all: the same. */
  lemma OutcomeCons(s: Setting, rest: seq<Setting>, paired: bool, before: Resources)
    ensures Outcome([s] + rest, paired, before)
         == var applied := ApplyParam(before, s.name, s.value);
            if applied.Some? then Outcome(rest, paired, applied.value) else Error
  {
    hide ApplyParam, IsValid, NodesSet, CpusSet, TasksSet, MemSet, TimeSet;
    ApplyIsValid(before, s);
    LastCons(s, rest, NodesSet, before.nodes);
    LastCons(s, rest, CpusSet, before.cpusPerTask);
    LastCons(s, rest, TasksSet, before.ntasksPerNode);
    LastCons(s, rest, MemSet, before.memPerCpu);
    LastCons(s, rest, TimeSet, before.wallTime);
    assert ([s] + rest)[0] == s;
    assert forall t :: t in [s] + rest <==> t == s || t in rest;
  }

  /** Several settings in front of others. */
  lemma {:induction false} OutcomeAppend(params: seq<string>, rest: seq<Setting>, paired: bool, before: Resources)
    requires Paired(params)
    ensures Outcome(SettingsOf(params) + rest, paired, before)
         == var r := ApplyParams(before, params); if r.Ok? then Outcome(rest, paired, r.res) else r
    decreases |params|
  {
    hide ApplyParam, Outcome, IndexByte;
    if params == [] {
      assert [] + rest == rest;
    } else {
      var s := FirstSetting(params);
      var tail := params[Width(params)..];
      OutcomeCons(s, SettingsOf(tail) + rest, paired, before);
      Associate([s], SettingsOf(tail), rest);
      var applied := ApplyParam(before, s.name, s.value);
      if applied.Some? {
        OutcomeAppend(tail, rest, paired, applied.value);
      }
    }
  }

  /** A line with a bare parameter at its end fails on an invalid setting before it, and else panics. */
  lemma {:induction false} UnpairedOutcome(params: seq<string>, before: Resources)
    requires !Paired(params)
    ensures Outcome(SettingsOf(params), false, before) == ApplyParams(before, params)
    decreases |params|
  {
    hide ApplyParam, Outcome, IndexByte;
    if Width(params) > |params| {
      NoSettings(false, before);
    } else {
      var s := FirstSetting(params);
      var tail := params[Width(params)..];
      OutcomeCons(s, SettingsOf(tail), false, before);
      var applied := ApplyParam(before, s.name, s.value);
      if applied.Some? {
        UnpairedOutcome(tail, applied.value);
      }
    }
  }

  lemma {:induction false} LinesOutcome(res: Resources, lines: seq<string>)
    ensures ExtractFrom(res, lines) == Outcome(AllSettings(lines), AllPaired(lines), res)
    decreases |lines|
  {
    hide Outcome, ApplyParams, Paired, SettingsOf, Fields;
    if lines == [] || EndsDirectives(lines[0]) {
      NoSettings(true, res);
    } else if IsSkipped(lines[0]) {
      LinesOutcome(res, lines[1..]);
    } else {
      var params := Params(lines[0]);
      var r := ApplyParams(res, params);
      if Paired(params) {
        OutcomeAppend(params, AllSettings(lines[1..]), AllPaired(lines[1..]), res);
        if r.Ok? {
          LinesOutcome(r.res, lines[1..]);
        }
      } else {
        UnpairedOutcome(params, res);
        NeverOk(SettingsOf(params), res);
        assert SettingsOf(params) + [] == SettingsOf(params);
      }
    }
  }

  lemma NoSettings(paired: bool, res: Resources)
    ensures Outcome([], paired, res) == if paired then Ok(res) else Panic
  {
  }

  lemma NeverOk(settings: seq<Setting>, res: Resources)
    ensures !Outcome(settings, false, res).Ok?
  {
  }

  /**
   Later settings win, for every script: extraction fails exactly when some setting that is reached is invalid,
   otherwise indexes out of range exactly when a bare parameter is reached that has no value, and otherwise every field
   has the value of its last setting.
   */
  lemma LastSettingWins(script: string)
    ensures Extract(script)
         == Outcome(AllSettings(ScanLines(script)), AllPaired(ScanLines(script)), NOTHING)
  {
    LinesOutcome(NOTHING, ScanLines(script));
  }

  /** When extraction panics, exactly: a bare last parameter is reached, and every setting before it is valid. */
  lemma PanicIsUnpaired(script: string)
    ensures Extract(script) == Panic <==>
            !AllPaired(ScanLines(script)) && AllValid(AllSettings(ScanLines(script)))
  {
    hide Extract, ScanLines, AllSettings, AllPaired, AllValid;
    LastSettingWins(script);
  }

  const BARE_NODES := "#SBATCH -N\n"

  /** The shortest way there. */
  lemma BareNodesPanics()
    ensures Extract(BARE_NODES) == Panic
  {
    hide ApplyParams, Fields, ScanLines, ExtractFrom;
    var line := Directive(" -N");
    BareNodesIsPlain();
    assert BARE_NODES == JoinLines([line]) by { assert JoinLines([line][1..]) == ""; }
    ExtractJoined([line]);
    assert [line] + [] == [line];
    ExtractDirective(NOTHING, " -N", []);
    FieldsOfWord("-N");
    assert " -N" == " " + "-N";
    BareParameterPanics("-N");
  }

  lemma BareNodesIsPlain()
    ensures ArePlain([Directive(" -N")])
  {
    var line := Directive(" -N");
    assert line == "#SBATCH -N" && line[|line| - 1] == 'N';
  }

  lemma BareParameterPanics(param: string)
    requires Free(param, '=')
    ensures ApplyParams(NOTHING, [param]) == Panic
  {
  }

  const LIMITED_THEN_NOT := "#SBATCH --time=5\n" + "#SBATCH --time=UNLIMITED\n"

  function TimeDirective(value: string): string { Directive(" --time=" + value) }

  /** A script that ends by asking for unlimited time is given five minutes. */
  lemma LimitSurvivesUnlimited()
    ensures Extract(LIMITED_THEN_NOT) == Ok(NOTHING.(wallTime := 5 * MINUTE))
  {
    hide Extract, ExtractFrom, DurationOf, TimeDirective, JoinLines, ArePlain;
    TimeLinesArePlain();
    ExtractJoined([TimeDirective("5"), TimeDirective(UNLIMITED)]);
    FiveMinutes();
    UnlimitedIsUnlimited();
    TimeLine(NOTHING, "5", [TimeDirective(UNLIMITED)]);
    TimeLine(NOTHING.(wallTime := 5 * MINUTE), UNLIMITED, []);
    NothingLeft(NOTHING.(wallTime := 5 * MINUTE));
    assert [TimeDirective("5")] + [TimeDirective(UNLIMITED)] == [TimeDirective("5"), TimeDirective(UNLIMITED)];
    assert [TimeDirective(UNLIMITED)] + [] == [TimeDirective(UNLIMITED)];
  }

  lemma NothingLeft(res: Resources)
    ensures ExtractFrom(res, []) == Ok(res)
  {
  }

  lemma TimeLine(res: Resources, value: string, below: seq<string>)
    requires SpaceFree(value) && DurationOf(value) != Invalid
    ensures ExtractFrom(res, [TimeDirective(value)] + below)
         == ExtractFrom(if DurationOf(value).Unlimited? then res else res.(wallTime := DurationOf(value).ns), below)
  {
    hide ApplyParams, Fields, ExtractFrom, DurationOf, Directive;
    ExtractDirective(res, " --time=" + value, below);
    FieldsOfWord("--time=" + value);
    assert " --time=" + value == " " + ("--time=" + value);
    assert "--time=" + value == "--time" + "=" + value;
    TimeIsSet(res, value);
  }

  lemma UnlimitedIsUnlimited()
    ensures DurationOf(UNLIMITED) == Unlimited
  {
  }

  lemma FiveMinutes()
    ensures DurationOf("5") == Duration(5 * MINUTE)
  {
    assert "5"[0] == '5' && |"5"| != |UNLIMITED|;
    assert FormatInt(5) == "5";
    ParseOfFormat(5);
    SplitOne("5");
    ZeroIsZero();
  }

  lemma TimeIsSet(res: Resources, value: string)
    requires DurationOf(value) != Invalid
    ensures ApplyParams(res, ["--time" + "=" + value])
         == Ok(if DurationOf(value).Unlimited? then res else res.(wallTime := DurationOf(value).ns))
  {
    hide DurationOf;
    var params := ["--time" + "=" + value];
    IndexByteAfter("--time", '=', value);
    assert FirstSetting(params) == Setting("--time", value) && params[1..] == [];
  }

  lemma TimeDirectiveIsPlain(value: string)
    requires value != "" && SpaceFree(value) && |value| <= 100
    ensures IsPlain(TimeDirective(value))
  {
    var line := TimeDirective(value);
    assert line[|line| - 1] == value[|value| - 1];
    assert IsSpace('\n') && IsSpace('\r');
    DirectiveHasNoNewline(" --time=" + value);
  }

  lemma JoinTwo(a: string, b: string)
    ensures JoinLines([a, b]) == (a + "\n") + (b + "\n")
  {
    assert JoinLines([b]) == b + "\n" + JoinLines([b][1..]);
    assert [a, b][1..] == [b];
  }

  lemma TimeLinesArePlain()
    ensures ArePlain([TimeDirective("5"), TimeDirective(UNLIMITED)])
    ensures LIMITED_THEN_NOT == JoinLines([TimeDirective("5"), TimeDirective(UNLIMITED)])
  {
    hide IsPlain, TimeDirective, JoinLines;
    TimeDirectiveIsPlain("5");
    TimeDirectiveIsPlain(UNLIMITED);
    JoinTwo(TimeDirective("5"), TimeDirective(UNLIMITED));
    TimeTexts();
  }

  lemma TimeTexts()
    ensures TimeDirective("5") + "\n" == "#SBATCH --time=5\n"
    ensures TimeDirective(UNLIMITED) + "\n" == "#SBATCH --time=UNLIMITED\n"
  {
  }

  /** Only a time limit can survive a later setting of its field: UNLIMITED, or no value at all, does not reset it. */
  lemma UnlimitedDoesNotReset(settings: seq<Setting>, name: string, value: string)
    requires name in {"--time", "-t"} && DurationOf(value) == Unlimited
    ensures Decided(settings + [Setting(name, value)], NOTHING) == Decided(settings, NOTHING)
  {
    hide ParseInt, DurationOf;
    var all := settings + [Setting(name, value)];
    assert all[|all| - 1] == Setting(name, value) && all[..|all| - 1] == settings;
  }
}
