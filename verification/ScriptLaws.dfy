/** What may be rewritten in a script's directives without changing the resources extracted from it. */
module ScriptLaws {
  import opened GoText
  import opened Options
  import opened SbatchScript
  import opened Seqs

  /** Every bare parameter is followed by a value. */
  predicate Paired(params: seq<string>)
    decreases |params|
  {
    params == [] || (Width(params) <= |params| && Paired(params[Width(params)..]))
  }

  function Then(r: Extracted, params: seq<string>): Extracted {
    if r.Ok? then ApplyParams(r.res, params) else r
  }

  /** Settings are applied one after the other. */
  lemma {:induction false} ParamsAppend(res: Resources, a: seq<string>, b: seq<string>)
    requires Paired(a)
    ensures ApplyParams(res, a + b) == Then(ApplyParams(res, a), b)
    decreases |a|
  {
    hide ApplyParam, IndexByte;
    if a == [] {
      assert a + b == b;
    } else {
      var w := Width(a);
      var s := FirstSetting(a);
      assert Width(a + b) == w && FirstSetting(a + b) == s;
      assert (a + b)[w..] == a[w..] + b;
      var applied := ApplyParam(res, s.name, s.value);
      if applied.Some? {
        ParamsAppend(applied.value, a[w..], b);
      }
    }
  }

  function Directive(params: string): string { HEADER + params }

  lemma ParamsOfDirective(params: string)
    ensures IsDirective(Directive(params)) && Params(Directive(params)) == Fields(params)
    ensures !IsSkipped(Directive(params))
  {
    var line := Directive(params);
    assert line[..|HEADER|] == HEADER && line[|HEADER|..] == params;
    assert line[1] == 'S';
  }

  predicate IsWord(s: string) { s != "" && SpaceFree(s) }

  lemma TwoWays(res: Resources, name: string, value: string)
    requires IsWord(name) && Free(name, '=')
    ensures Paired([name + "=" + value]) && Paired([name, value])
    ensures ApplyParams(res, [name + "=" + value]) == ApplyParams(res, [name, value])
  {
    hide ApplyParam;
    IndexByteAfter(name, '=', value);
    var joined, apart := [name + "=" + value], [name, value];
    assert FirstSetting(joined) == Setting(name, value) == FirstSetting(apart);
    assert joined[1..] == [] && apart[2..] == [];
  }

  /** `--p=v` and `--p v` are the same setting, wherever on a line they stand. */
  lemma EqualsOrSpace(res: Resources, before: string, name: string, value: string, after: string)
    requires Paired(Fields(before)) && StartsWithSpace(after)
    requires IsWord(name) && Free(name, '=') && IsWord(value)
    ensures ApplyParams(res, Fields(before + (" " + name + "=" + value) + after))
         == ApplyParams(res, Fields(before + (" " + name + " " + value) + after))
  {
    hide ApplyParams, Fields, Paired;
    TwoWays(res, name, value);
    WordsOfSetting(name + "=" + value);
    WordsOfPair(name, value);
    assert " " + name + "=" + value == " " + (name + "=" + value);
    InTheMiddle(res, before, " " + name + "=" + value, [name + "=" + value], after);
    InTheMiddle(res, before, " " + name + " " + value, [name, value], after);
    var r := ApplyParams(res, Fields(before));
    if r.Ok? {
      TwoWays(r.res, name, value);
    }
  }

  lemma WordsOfSetting(w: string)
    requires IsWord(w)
    ensures Fields(" " + w) == [w] && StartsWithSpace(" " + w)
  {
    FieldsOfWord(w);
  }

  lemma WordsOfPair(name: string, value: string)
    requires IsWord(name) && IsWord(value)
    ensures Fields(" " + name + " " + value) == [name, value] && StartsWithSpace(" " + name + " " + value)
  {
    hide Fields;
    FieldsOfWord(name);
    FieldsOfWord(value);
    FieldsAppend(" " + name, " " + value);
    assert " " + name + " " + value == (" " + name) + (" " + value);
  }

  lemma InTheMiddle(res: Resources, before: string, text: string, params: seq<string>, after: string)
    requires Paired(Fields(before)) && StartsWithSpace(text) && StartsWithSpace(after)
    requires Fields(text) == params && Paired(params)
    ensures ApplyParams(res, Fields(before + text + after))
         == Then(Then(ApplyParams(res, Fields(before)), params), Fields(after))
  {
    hide ApplyParams, Fields, Paired;
    assert before + text + after == before + (text + after);
    assert StartsWithSpace(text + after) by { assert text != "" ==> (text + after)[0] == text[0]; }
    assert text == "" ==> text + after == after;
    FieldsAppend(before, text + after);
    FieldsAppend(text, after);
    ParamsAppend(res, Fields(before), params + Fields(after));
    var r := ApplyParams(res, Fields(before));
    if r.Ok? {
      ParamsAppend(r.res, params, Fields(after));
    }
  }

  /** Lines as a text: each closed by a newline. */
  function JoinLines(lines: seq<string>): string {
    if lines == [] then "" else lines[0] + "\n" + JoinLines(lines[1..])
  }

  /** A line the scanner delivers as it is. */
  predicate IsPlain(line: string) {
    Free(line, '\n') && DropCR(line) == line && |line| <= MAX_TOKEN
  }

  predicate ArePlain(lines: seq<string>) {
    forall i | 0 <= i < |lines| :: IsPlain(lines[i])
  }

  lemma ScanCons(line: string, rest: string)
    requires IsPlain(line)
    ensures ScanLines(line + "\n" + rest) == [line] + ScanLines(rest)
  {
    IndexByteAfter(line, '\n', rest);
    assert line + "\n" + rest != "";
  }

  lemma {:induction false} ScanJoined(lines: seq<string>, rest: string)
    requires ArePlain(lines)
    ensures ScanLines(JoinLines(lines) + rest) == lines + ScanLines(rest)
  {
    hide ScanLines, IsPlain;
    if lines == [] {
      assert JoinLines(lines) + rest == rest;
    } else {
      assert ArePlain(lines[1..]);
      ScanJoined(lines[1..], rest);
      ScanCons(lines[0], JoinLines(lines[1..]) + rest);
      assert JoinLines(lines) + rest == lines[0] + "\n" + (JoinLines(lines[1..]) + rest);
    }
  }

  lemma ExtractJoined(lines: seq<string>)
    requires ArePlain(lines)
    ensures Extract(JoinLines(lines)) == ExtractFrom(NOTHING, lines)
  {
    hide ExtractFrom, JoinLines, IsPlain;
    ScanJoined(lines, "");
    assert JoinLines(lines) + "" == JoinLines(lines);
    assert lines + [] == lines;
  }

  lemma ExtractDirective(res: Resources, params: string, after: seq<string>)
    ensures ExtractFrom(res, [Directive(params)] + after)
         == var r := ApplyParams(res, Fields(params)); if r.Ok? then ExtractFrom(r.res, after) else r
  {
    ParamsOfDirective(params);
    var lines := [Directive(params)] + after;
    assert lines[0] == Directive(params) && lines[1..] == after;
  }

  // Scanning a script of which only one line is known

  /** Empty, or whole lines: what follows begins a line. */
  predicate EndsALine(above: string) { above == "" || above[|above| - 1] == '\n' }

  /** What may follow a line: nothing, or a newline and any text. */
  predicate EndsHere(tail: string) { tail == "" || tail[0] == '\n' }

  /** The scanner stops in front of a line that is too long. */
  predicate IsCut(above: string)
    decreases |above|
  {
    var i := IndexByte(above, '\n');
    i != -1 && (i > MAX_TOKEN || IsCut(above[i + 1..]))
  }

  lemma NewlineInside(above: string, x: string)
    requires above != "" && EndsALine(above)
    ensures IndexByte(above, '\n') != -1 && IndexByte(above + x, '\n') == IndexByte(above, '\n')
    ensures var i := IndexByte(above, '\n');
            && EndsALine(above[i + 1..])
            && (above + x)[..i] == above[..i] && (above + x)[i + 1..] == above[i + 1..] + x
  {
    var i := IndexByte(above, '\n');
    assert above[|above| - 1] == '\n';
    assert (above + x)[..i] == above[..i];
    IndexByteAt(above + x, '\n', i);
  }

  lemma ScanStep(s: string, i: nat)
    requires s != "" && IndexByte(s, '\n') == i
    ensures ScanLines(s) == if i > MAX_TOKEN then [] else [DropCR(s[..i])] + ScanLines(s[i + 1..])
  {
  }

  lemma CutStep(s: string, i: nat)
    requires IndexByte(s, '\n') == i
    ensures IsCut(s) <==> i > MAX_TOKEN || IsCut(s[i + 1..])
  {
    hide IndexByte;
  }

  /** Scanning goes on behind whole lines, unless it was cut there already. */
  lemma {:induction false} ScanAbove(above: string, x: string)
    requires EndsALine(above)
    ensures ScanLines(above + x) == ScanLines(above) + if IsCut(above) then [] else ScanLines(x)
    decreases |above|
  {
    if above == "" {
      assert above + x == x;
    } else {
      hide IndexByte, DropCR, EndsALine, ScanLines, IsCut;
      NewlineInside(above, x);
      var i := IndexByte(above, '\n');
      assert above + x != "";
      ScanStep(above, i);
      ScanStep(above + x, i);
      CutStep(above, i);
      if i <= MAX_TOKEN {
        var rest := above[i + 1..];
        ScanAbove(rest, x);
        Associate([DropCR(above[..i])], ScanLines(rest), if IsCut(rest) then [] else ScanLines(x));
      }
    }
  }

  /** The text behind the end of a line. */
  function BelowOf(tail: string): string { if tail == "" then "" else tail[1..] }

  lemma ScanLine(line: string, tail: string)
    requires (line != "" || tail != "") && Free(line, '\n') && EndsHere(tail)
    ensures ScanLines(line + tail)
         == if |line| > MAX_TOKEN then [] else [DropCR(line)] + ScanLines(BelowOf(tail))
  {
    hide DropCR;
    if tail == "" {
      assert line + tail == line;
      assert ScanLines("") == [];
    } else {
      assert tail == "\n" + tail[1..];
      assert line + tail == line + ['\n'] + tail[1..];
      IndexByteAfter(line, '\n', tail[1..]);
    }
  }

  /** A carriage return in front of the newline is white space, so it does not matter. */
  lemma FieldsWithoutCR(params: string)
    ensures Fields(DropCR(params)) == Fields(params)
  {
    if DropCR(params) != params {
      var n := |params| - 1;
      assert params == params[..n] + "\r";
      FieldsAppend(params[..n], "\r");
      assert Fields("\r") == [] by { assert "\r"[1..] == ""; }
    }
  }

  lemma DirectiveWithoutCR(params: string)
    ensures DropCR(Directive(params)) == Directive(DropCR(params))
  {
    var line := Directive(params);
    if params == "" {
      assert line == HEADER;
    } else {
      assert line[|line| - 1] == params[|params| - 1];
      assert line[..|line| - 1] == Directive(params[..|params| - 1]);
    }
  }

  /** A directive as the scanner delivers it. */
  lemma ExtractScanned(res: Resources, params: string, below: seq<string>)
    ensures ExtractFrom(res, [DropCR(Directive(params))] + below)
         == var r := ApplyParams(res, Fields(params)); if r.Ok? then ExtractFrom(r.res, below) else r
  {
    hide Directive, DropCR, ExtractFrom, Fields, ApplyParams;
    DirectiveWithoutCR(params);
    FieldsWithoutCR(params);
    ExtractDirective(res, DropCR(params), below);
  }

  lemma {:induction false} Exchange(res: Resources, lines: seq<string>, x: seq<string>, y: seq<string>)
    requires forall r :: ExtractFrom(r, x) == ExtractFrom(r, y)
    ensures ExtractFrom(res, lines + x) == ExtractFrom(res, lines + y)
    decreases |lines|
  {
    if lines == [] {
      assert lines + x == x && lines + y == y;
    } else {
      var first := lines[0];
      assert (lines + x)[1..] == lines[1..] + x && (lines + y)[1..] == lines[1..] + y;
      if IsSkipped(first) {
        Exchange(res, lines[1..], x, y);
      } else if IsDirective(first) {
        var r := ApplyParams(res, Params(first));
        if r.Ok? {
          Exchange(r.res, lines[1..], x, y);
        }
      }
    }
  }

  /** What may be exchanged at the beginning of a script may be exchanged behind any whole lines. */
  lemma ExchangeBelow(above: string, x: string, y: string)
    requires EndsALine(above)
    requires forall r :: ExtractFrom(r, ScanLines(x)) == ExtractFrom(r, ScanLines(y))
    ensures Extract(above + x) == Extract(above + y)
  {
    hide ScanLines, ExtractFrom, EndsALine, IsCut;
    ScanAbove(above, x);
    ScanAbove(above, y);
    if !IsCut(above) {
      Exchange(NOTHING, ScanLines(above), ScanLines(x), ScanLines(y));
    }
  }

  // Laws

  /**
   Writing `--p v` for `--p=v` in any directive of any script changes nothing. The directive may be the last line, with
   or without a newline, and any line, this one too, may be too long to be scanned.
   */
  lemma RewriteParameter(above: string, before: string, name: string, value: string, after: string, tail: string)
    requires EndsALine(above) && EndsHere(tail)
    requires Free(before, '\n') && Free(after, '\n')
    requires Paired(Fields(before)) && StartsWithSpace(after)
    requires IsWord(name) && Free(name, '=') && IsWord(value)
    ensures Extract(above + (Directive(before + (" " + name + "=" + value) + after) + tail))
         == Extract(above + (Directive(before + (" " + name + " " + value) + after) + tail))
  {
    hide Extract, ScanLines, Fields, Paired, ExtractFrom, ApplyParams, EndsALine, EndsHere, Free, Directive, DropCR;
    var joined := before + (" " + name + "=" + value) + after;
    var apart := before + (" " + name + " " + value) + after;
    SettingHasNoNewline(before, name, value, after);
    ScanLine(Directive(joined), tail);
    ScanLine(Directive(apart), tail);
    var below := ScanLines(BelowOf(tail));
    forall r
      ensures ExtractFrom(r, ScanLines(Directive(joined) + tail)) == ExtractFrom(r, ScanLines(Directive(apart) + tail))
    {
      ExtractScanned(r, joined, below);
      ExtractScanned(r, apart, below);
      EqualsOrSpace(r, before, name, value, after);
    }
    ExchangeBelow(above, Directive(joined) + tail, Directive(apart) + tail);
  }

  lemma SettingHasNoNewline(before: string, name: string, value: string, after: string)
    requires Free(before, '\n') && Free(after, '\n') && IsWord(name) && IsWord(value)
    ensures var joined := Directive(before + (" " + name + "=" + value) + after);
            var apart := Directive(before + (" " + name + " " + value) + after);
            joined != "" && apart != "" && |joined| == |apart| && Free(joined, '\n') && Free(apart, '\n')
  {
    assert IsSpace('\n');
    DirectiveHasNoNewline(before + (" " + name + "=" + value) + after);
    DirectiveHasNoNewline(before + (" " + name + " " + value) + after);
  }

  lemma DirectiveHasNoNewline(params: string)
    requires Free(params, '\n')
    ensures Free(Directive(params), '\n') && Directive(params) != ""
  {
    assert Free(HEADER, '\n');
  }

  /**
   Splitting a directive line in two at a boundary between settings changes nothing, in any script in which the line is
   not too long to be scanned.
   */
  lemma SplitDirective(above: string, a: string, b: string, tail: string)
    requires EndsALine(above) && EndsHere(tail)
    requires Free(a, '\n') && Free(b, '\n') && |Directive(a + b)| <= MAX_TOKEN
    requires Paired(Fields(a)) && StartsWithSpace(b)
    ensures Extract(above + (Directive(a + b) + tail))
         == Extract(above + (Directive(a) + "\n" + (Directive(b) + tail)))
  {
    hide Extract, ScanLines, Fields, Paired, ExtractFrom, ApplyParams, EndsALine, Free, DropCR, Directive, EndsHere;
    HalvesHaveNoNewline(a, b);
    ScanLine(Directive(a + b), tail);
    ScanTwo(Directive(a), Directive(b), tail);
    FieldsAppend(a, b);
    var one, two := Directive(a + b) + tail, Directive(a) + "\n" + (Directive(b) + tail);
    forall r ensures ExtractFrom(r, ScanLines(one)) == ExtractFrom(r, ScanLines(two)) {
      SplitScanned(r, a, b, ScanLines(BelowOf(tail)));
    }
    ExchangeBelow(above, one, two);
  }

  lemma NextLine(first: string, below: string)
    ensures first + "\n" + below == first + ("\n" + below)
    ensures EndsHere("\n" + below) && BelowOf("\n" + below) == below
  {
  }

  lemma ScanTwo(first: string, second: string, tail: string)
    requires first != "" && Free(first, '\n') && |first| <= MAX_TOKEN
    requires second != "" && Free(second, '\n') && |second| <= MAX_TOKEN && EndsHere(tail)
    ensures ScanLines(first + "\n" + (second + tail))
         == [DropCR(first)] + ([DropCR(second)] + ScanLines(BelowOf(tail)))
  {
    hide ScanLines, DropCR, Free, EndsHere, BelowOf;
    NextLine(first, second + tail);
    ScanLine(first, "\n" + (second + tail));
    ScanLine(second, tail);
  }

  lemma HalvesHaveNoNewline(a: string, b: string)
    requires Free(a, '\n') && Free(b, '\n')
    ensures Free(Directive(a + b), '\n') && Free(Directive(a), '\n') && Free(Directive(b), '\n')
    ensures |Directive(a)| <= |Directive(a + b)| && |Directive(b)| <= |Directive(a + b)|
    ensures Directive(a) != "" && Directive(b) != "" && Directive(a + b) != ""
  {
    DirectiveHasNoNewline(a);
    DirectiveHasNoNewline(b);
    DirectiveHasNoNewline(a + b);
  }

  lemma SplitScanned(res: Resources, a: string, b: string, below: seq<string>)
    requires Paired(Fields(a)) && Fields(a + b) == Fields(a) + Fields(b)
    ensures ExtractFrom(res, [DropCR(Directive(a + b))] + below)
         == ExtractFrom(res, [DropCR(Directive(a))] + ([DropCR(Directive(b))] + below))
  {
    hide Fields, Paired, ExtractFrom, ApplyParams, Directive, DropCR;
    ExtractScanned(res, a + b, below);
    ParamsAppend(res, Fields(a), Fields(b));
    ExtractScanned(res, a, [DropCR(Directive(b))] + below);
    var first := ApplyParams(res, Fields(a));
    if first.Ok? {
      ExtractScanned(first.res, b, below);
    }
  }

  /** The first line that is neither blank, nor #!, nor a directive ends the extraction. */
  predicate EndsDirectives(line: string) { !IsSkipped(line) && !IsDirective(line) }

  lemma {:induction false} NothingAfter(res: Resources, lines: seq<string>, last: string, below: seq<string>)
    requires EndsDirectives(last)
    ensures ExtractFrom(res, lines + ([last] + below)) == ExtractFrom(res, lines)
    decreases |lines|
  {
    var all := lines + ([last] + below);
    if lines != [] {
      assert all[0] == lines[0] && all[1..] == lines[1..] + ([last] + below);
      if IsSkipped(lines[0]) {
        NothingAfter(res, lines[1..], last, below);
      } else if IsDirective(lines[0]) {
        var r := ApplyParams(res, Params(lines[0]));
        if r.Ok? {
          NothingAfter(r.res, lines[1..], last, below);
        }
      }
    }
  }

  /** Nothing from the first line on that is no directive has any effect, whatever stands above it and below. */
  lemma NothingAfterDirectives(above: string, last: string, tail: string)
    requires EndsALine(above) && EndsHere(tail)
    requires Free(last, '\n') && EndsDirectives(DropCR(last))
    ensures Extract(above + (last + tail)) == Extract(above)
  {
    hide ExtractFrom, ScanLines, EndsALine, IsCut;
    assert last != "";
    ScanAbove(above, last + tail);
    ScanLine(last, tail);
    if !IsCut(above) && |last| <= MAX_TOKEN {
      NothingAfter(NOTHING, ScanLines(above), DropCR(last), ScanLines(BelowOf(tail)));
    } else {
      assert ScanLines(above) + [] == ScanLines(above);
    }
  }

  /** Blank lines and lines that begin with #! have no effect, wherever they stand. */
  lemma SkippedLinesDoNothing(above: string, line: string, below: string)
    requires EndsALine(above) && Free(line, '\n') && |line| <= 65535
    requires line == "" || line == "\r" || "#!" <= line
    ensures Extract(above + (line + "\n" + below)) == Extract(above + below)
  {
    hide Extract, ScanLines, EndsALine, ApplyParams, Fields, Directive;
    var tail := "\n" + below;
    assert line + "\n" + below == line + tail && BelowOf(tail) == below;
    ScanLine(line, tail);
    SkippedWithoutCR(line);
    forall r ensures ExtractFrom(r, ScanLines(line + tail)) == ExtractFrom(r, ScanLines(below)) {
      SkipOne(r, DropCR(line), ScanLines(below));
    }
    ExchangeBelow(above, line + tail, below);
  }

  lemma SkippedWithoutCR(line: string)
    requires line == "" || line == "\r" || "#!" <= line
    ensures IsSkipped(DropCR(line))
  {
    if "#!" <= line {
      assert line[..2] == "#!" && line[1] == '!';
    }
  }

  lemma SkipOne(res: Resources, line: string, below: seq<string>)
    requires IsSkipped(line)
    ensures ExtractFrom(res, [line] + below) == ExtractFrom(res, below)
  {
    assert ([line] + below)[1..] == below;
  }

  /** A line of 65535 characters is scanned, a longer one is not. */
  lemma LineLimit(line: string)
    requires Free(line, '\n')
    ensures ScanLines(line + "\n") == if |line| <= 65535 then [DropCR(line)] else []
  {
    hide DropCR;
    ScanLine(line, "\n");
    assert BelowOf("\n") == "" && ScanLines("") == [];
  }

  /** Of a range of nodes the smaller number is asked for; without a dash the number itself. */
  lemma NodesOfARange(res: Resources, name: string, lo: string, hi: string)
    requires (name == "--nodes" || name == "-N") && Free(lo, '-')
    ensures ApplyParam(res, name, lo + "-" + hi) == ApplyParam(res, name, lo)
    ensures ApplyParam(res, name, lo)
         == if ParseInt(lo).Some? then Some(res.(nodes := ParseInt(lo).value)) else None
  {
    hide ParseInt;
    IndexByteAfter(lo, '-', hi);
  }
}
