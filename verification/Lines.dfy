/** Bytes, newline-terminated lines and the chunks long lines are cut into. */
module Lines {
  import opened Seqs

  newtype byte = b: int | 0 <= b < 256

  const NEWLINE: byte := 10

  type Text = seq<byte>

  /** A text that ends where a line ends: empty, or closed by a newline. */
  predicate Complete(s: Text) {
    s == [] || s[|s| - 1] == NEWLINE
  }

  predicate NewlineFree(s: Text) {
    forall i | 0 <= i < |s| :: s[i] != NEWLINE
  }

  predicate AllNewlineFree(ls: seq<Text>) {
    forall l | l in ls :: NewlineFree(l)
  }

  /** The position of the first newline, or the length of `s` when it has none. */
  function FirstNewline(s: Text): (i: nat)
    ensures i <= |s| && NewlineFree(s[..i])
    ensures i < |s| ==> s[i] == NEWLINE
    ensures i == |s| <==> NewlineFree(s)
  {
    if s == [] then 0
    else if s[0] == NEWLINE then 0
    else
      var i := 1 + FirstNewline(s[1..]);
      assert s[..i] == [s[0]] + s[1..][..i - 1];
      assert s == [s[0]] + s[1..];
      i
  }

  /** The newline-terminated lines of `s`, without their newlines; text after the last newline is not a line. */
  function LinesOf(s: Text): seq<Text> {
    if NewlineFree(s) then []
    else
      var i := FirstNewline(s);
      [s[..i]] + LinesOf(s[i + 1..])
  }

  /** Every line followed by its newline. */
  function Unlines(ls: seq<Text>): Text {
    if ls == [] then [] else ls[0] + [NEWLINE] + Unlines(ls[1..])
  }

  function Concat(parts: seq<Text>): Text {
    if parts == [] then [] else parts[0] + Concat(parts[1..])
  }

  lemma {:induction false} FirstNewlineAt(s: Text, i: nat)
    requires i < |s| && s[i] == NEWLINE && NewlineFree(s[..i])
    ensures FirstNewline(s) == i
  {
    if i > 0 {
      assert s[..i][0] == s[0];
      assert s[1..][..i - 1] == s[..i][1..];
      FirstNewlineAt(s[1..], i - 1);
    }
  }

  /** One line in front of a text is the first line read from it. */
  lemma LinesOfCons(line: Text, rest: Text)
    requires NewlineFree(line)
    ensures LinesOf(line + [NEWLINE] + rest) == [line] + LinesOf(rest)
  {
    var s := line + [NEWLINE] + rest;
    assert s[..|line|] == line && s[|line|] == NEWLINE && s[|line| + 1..] == rest;
    FirstNewlineAt(s, |line|);
  }

  lemma SplitFirst(s: Text) returns (line: Text, rest: Text)
    requires Complete(s) && s != []
    ensures s == line + [NEWLINE] + rest
    ensures NewlineFree(line) && Complete(rest)
  {
    var i := FirstNewline(s);
    line, rest := s[..i], s[i + 1..];
  }

  /** `LinesOf` and `Unlines` are inverse to each other: first half. */
  lemma {:induction false} UnlinesOfLines(s: Text)
    requires Complete(s)
    ensures Unlines(LinesOf(s)) == s
    ensures AllNewlineFree(LinesOf(s))
    decreases |s|
  {
    if s != [] {
      var line, rest := SplitFirst(s);
      UnlinesOfLines(rest);
      LinesOfCons(line, rest);
      assert ([line] + LinesOf(rest))[1..] == LinesOf(rest);
    }
  }

  /** Second half: a text has only one reading as newline-free lines. */
  lemma {:induction false} LinesOfUnlines(ls: seq<Text>)
    requires AllNewlineFree(ls)
    ensures Complete(Unlines(ls))
    ensures LinesOf(Unlines(ls)) == ls
  {
    if ls != [] {
      hide LinesOf, NewlineFree;
      LinesOfUnlines(ls[1..]);
      LinesOfCons(ls[0], Unlines(ls[1..]));
      assert [ls[0]] + ls[1..] == ls;
    }
  }

  lemma {:induction false} UnlinesAppend(a: seq<Text>, b: seq<Text>)
    ensures Unlines(a + b) == Unlines(a) + Unlines(b)
  {
    if a == [] {
      assert a + b == b;
    } else {
      UnlinesAppend(a[1..], b);
      assert (a + b)[1..] == a[1..] + b;
      Associate(a[0] + [NEWLINE], Unlines(a[1..]), Unlines(b));
    }
  }

  lemma {:induction false} ConcatAppend(a: seq<Text>, b: seq<Text>)
    ensures Concat(a + b) == Concat(a) + Concat(b)
  {
    if a == [] {
      assert a + b == b;
    } else {
      ConcatAppend(a[1..], b);
      assert (a + b)[1..] == a[1..] + b;
      Associate(a[0], Concat(a[1..]), Concat(b));
    }
  }

  /** Reading one more line adds exactly that line. */
  lemma LinesOfSnoc(s: Text, line: Text)
    requires Complete(s) && NewlineFree(line)
    ensures LinesOf(s + line + [NEWLINE]) == LinesOf(s) + [line]
    ensures Complete(s + line + [NEWLINE])
  {
    UnlinesOfLines(s);
    UnlinesAppend(LinesOf(s), [line]);
    assert Unlines([line]) == line + [NEWLINE] by {
      assert Unlines([line][1..]) == [];
    }
    assert s + line + [NEWLINE] == Unlines(LinesOf(s) + [line]);
    LinesOfUnlines(LinesOf(s) + [line]);
  }

  lemma Regroup(line: Text, rest: Text, half: Text)
    ensures line + [NEWLINE] + rest + half == line + [NEWLINE] + (rest + half)
  {
  }

  /** A half-line at the end adds no line. */
  lemma {:induction false} LinesOfHalfLine(s: Text, half: Text)
    requires Complete(s) && NewlineFree(half)
    ensures LinesOf(s + half) == LinesOf(s)
    decreases |s|
  {
    if s == [] {
      assert s + half == half;
    } else {
      var line, rest := SplitFirst(s);
      LinesOfHalfLine(rest, half);
      Regroup(line, rest, half);
      LinesOfCons(line, rest);
      LinesOfCons(line, rest + half);
    }
  }

  /** What cutting `s` into chunks of `size` promises. */
  predicate IsPartition(parts: seq<Text>, s: Text, size: nat) {
    && parts != []
    && Concat(parts) == s
    && (forall i | 0 <= i < |parts| - 1 :: |parts[i]| == size)
    && |parts[|parts| - 1]| <= size
    && (|parts| > 1 ==> parts[|parts| - 1] != [])
  }

  function Partition(s: Text, size: nat): seq<Text>
    requires size > 0
    decreases |s|
  {
    if |s| <= size then [s] else [s[..size]] + Partition(s[size..], size)
  }

  lemma {:induction false} PartitionIsPartition(s: Text, size: nat)
    requires size > 0
    ensures IsPartition(Partition(s, size), s, size)
    decreases |s|
  {
    if |s| <= size {
      assert Concat([s]) == s + Concat([s][1..]);
    } else {
      PartitionIsPartition(s[size..], size);
      assert Partition(s, size)[1..] == Partition(s[size..], size);
    }
  }

  /** There is only one way to cut a text into full chunks and a rest. */
  lemma {:induction false} PartitionUnique(parts: seq<Text>, s: Text, size: nat)
    requires size > 0 && IsPartition(parts, s, size)
    ensures parts == Partition(s, size)
    decreases |parts|
  {
    var rest := Concat(parts[1..]);
    assert parts == [parts[0]] + parts[1..];
    assert s == parts[0] + rest;
    if |parts| > 1 {
      assert parts[|parts| - 1] == parts[1..][|parts| - 2];
      assert rest == parts[1] + Concat(parts[1..][1..]);
      assert s[size..] == rest && s[..size] == parts[0];
      PartitionUnique(parts[1..], rest, size);
    } else {
      assert rest == [] && s == parts[0];
    }
  }

  /** util.PartitionString: the loop over a moving start and end. A size of zero or less panics there. */
  method PartitionString(s: Text, chunkSize: int) returns (parts: seq<Text>)
    requires chunkSize > 0
    ensures IsPartition(parts, s, chunkSize)
    ensures parts == Partition(s, chunkSize)
  {
    var length := |s|;
    var start := 0;
    var end := chunkSize;
    parts := [];
    while true
      invariant 0 <= start <= length && end == start + chunkSize
      invariant Concat(parts) == s[..start]
      invariant forall i | 0 <= i < |parts| :: |parts[i]| == chunkSize
      invariant start == 0 <==> parts == []
      invariant start == length ==> start == 0
      decreases length - start
    {
      if end > length {
        end := length;
      }
      ConcatAppend(parts, [s[start..end]]);
      assert Concat([s[start..end]]) == s[start..end] + Concat([s[start..end]][1..]);
      parts := parts + [s[start..end]];
      assert s[..start] + s[start..end] == s[..end];
      if end == length {
        assert s[..length] == s;
        break;
      }
      start, end := end, end + chunkSize;
    }
    PartitionUnique(parts, s, chunkSize);
  }

  /** What sendLine hands over for one line: the line, or its chunks when a limit is set and exceeded. */
  function PiecesOfLine(line: Text, maxLineSize: nat): (pieces: seq<Text>)
    ensures pieces != []
  {
    if maxLineSize > 0 && |line| > maxLineSize then Partition(line, maxLineSize) else [line]
  }

  /** With a limit these are full pieces and a rest, and without one the line itself. */
  lemma PiecesAreAPartition(line: Text, maxLineSize: nat)
    ensures Concat(PiecesOfLine(line, maxLineSize)) == line
    ensures maxLineSize > 0 ==> IsPartition(PiecesOfLine(line, maxLineSize), line, maxLineSize)
    ensures maxLineSize == 0 ==> PiecesOfLine(line, maxLineSize) == [line]
  {
    assert Concat([line]) == line + Concat([line][1..]);
    if maxLineSize > 0 {
      PartitionIsPartition(line, maxLineSize);
    }
  }

  predicate AllFit(pieces: seq<Text>, maxLineSize: nat) {
    forall i | 0 <= i < |pieces| :: |pieces[i]| <= maxLineSize
  }

  lemma {:induction false} PiecesFit(ls: seq<Text>, maxLineSize: nat)
    requires maxLineSize > 0
    ensures AllFit(Pieces(ls, maxLineSize), maxLineSize)
  {
    hide PiecesOfLine;
    if ls != [] {
      PiecesAreAPartition(ls[0], maxLineSize);
      PiecesFit(ls[1..], maxLineSize);
    }
  }

  function Pieces(ls: seq<Text>, maxLineSize: nat): seq<Text> {
    if ls == [] then [] else PiecesOfLine(ls[0], maxLineSize) + Pieces(ls[1..], maxLineSize)
  }

  lemma {:induction false} PiecesSnoc(ls: seq<Text>, line: Text, maxLineSize: nat)
    ensures Pieces(ls + [line], maxLineSize) == Pieces(ls, maxLineSize) + PiecesOfLine(line, maxLineSize)
  {
    var more := ls + [line];
    if ls == [] {
      assert more[1..] == [] && more[0] == line;
    } else {
      var rest := ls[1..];
      assert more[1..] == rest + [line] && more[0] == ls[0];
      PiecesSnoc(rest, line, maxLineSize);
      Associate(PiecesOfLine(ls[0], maxLineSize), Pieces(rest, maxLineSize), PiecesOfLine(line, maxLineSize));
    }
  }

  /** One more line read is its pieces more sent. */
  lemma PiecesOfOneMoreLine(s: Text, line: Text, maxLineSize: nat)
    requires Complete(s) && NewlineFree(line)
    ensures Complete(s + line + [NEWLINE])
    ensures Pieces(LinesOf(s + line + [NEWLINE]), maxLineSize)
         == Pieces(LinesOf(s), maxLineSize) + PiecesOfLine(line, maxLineSize)
  {
    LinesOfSnoc(s, line);
    PiecesSnoc(LinesOf(s), line, maxLineSize);
  }

  /** Sending the first piece waiting keeps the pieces and their order. */
  lemma SendFirst(sent: seq<Text>, queue: seq<Text>)
    requires queue != []
    ensures sent + [queue[0]] + queue[1..] == sent + queue
  {
  }

  lemma {:induction false} PiecesUnlimited(ls: seq<Text>)
    ensures Pieces(ls, 0) == ls
  {
    if ls != [] {
      PiecesUnlimited(ls[1..]);
    }
  }

  /** Without a limit the pieces of a text's lines are the text again. */
  lemma UnlinesOfPieces(s: Text)
    requires Complete(s)
    ensures Unlines(Pieces(LinesOf(s), 0)) == s
  {
    PiecesUnlimited(LinesOf(s));
    UnlinesOfLines(s);
  }
}
