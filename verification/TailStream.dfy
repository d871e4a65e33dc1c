/** Follower, readTail, the agent's handler and the client, interleaved: what the client gets is the file. */
module TailStream {
  import opened Lines
  import opened Follower
  import opened Options
  import opened Seqs
  import opened TailReader
  import F = FollowerRuns

  /** network: chunks sent and not received yet; received: history, all bytes Read has returned to the client. */
  datatype State = State(
    f: F.State,
    reader: ReaderState,
    handler: HandlerPc,
    network: seq<Text>,
    client: ClientState,
    received: Text)

  datatype Action =
    | Follow(step: F.Action)
    | WriteLine
    | FinishReadTail
    | AskToClose
    | CloseReturns
    | ReadLocked(want: nat)
    | ReadCheck
    | SendChunk
    | Cancel
    | ClientRead(want: nat)

  /** NewReader tails from the start of the file's text asked for, without a limit on line length. */
  predicate Init(s: State) {
    && F.Init(s.f) && s.f.tail.maxLineSize == 0
    && s.reader == ReaderState([], None, false)
    && s.handler == Idle
    && s.network == [] && s.client == ClientState([]) && s.received == []
  }

  predicate Enabled(s: State, a: Action) {
    match a
    case Follow(step) => F.Enabled(s.f, step) && (step == F.SendPiece ==> CanReceiveLine(s.reader))
    case WriteLine => CanWriteLine(s.reader)
    case FinishReadTail => CanReceiveLine(s.reader) && s.f.tail.pc.Stopped?
    case AskToClose => s.handler == Idle
    case CloseReturns => s.handler == Closing && s.f.tail.pc.Stopped?
    case ReadLocked(_) => s.handler == Idle
    case ReadCheck => s.handler.Answering?
    case SendChunk => s.handler.SendingChunk?
    case Cancel => s.handler == Idle
    case ClientRead(_) => CanClientRead(s.client, s.network)
  }

  /** The Lines channel is unbuffered: a send of the follower is a receive of readTail. */
  function Apply(s: State, a: Action): State
    requires Enabled(s, a)
  {
    match a
    case Follow(step) =>
      var reader := if step == F.SendPiece then ReceiveLineStep(s.reader, s.f.tail.queue[0]) else s.reader;
      s.(f := F.Apply(s.f, step), reader := reader)
    case WriteLine => s.(reader := WriteLineStep(s.reader))
    case FinishReadTail => s.(reader := CloseStep(s.reader))
    case AskToClose => s.(f := F.Apply(s.f, F.Kill(StopAtEof)), handler := Closing)
    case CloseReturns => s.(handler := Idle)
    case ReadLocked(want) =>
      s.(handler := Answering(Taken(s.reader, want), |s.reader.buff| < want, s.reader.isClosed),
         reader := ReadLockedStep(s.reader, want))
    case ReadCheck => s.(handler := AnswerStep(s.handler, s.reader.isClosed))
    case SendChunk => s.(network := s.network + [s.handler.chunk], handler := Idle)
    case Cancel => s.(handler := Cancelled)
    case ClientRead(want) =>
      var bytes := InReach(s.client, s.network);
      var n := Min(want, |bytes|);
      s.(client := ClientState(bytes[n..]),
         network := Unreceived(s.client, s.network),
         received := s.received + bytes[..n])
  }

  predicate Run(s: State, actions: seq<Action>)
    decreases |actions|
  {
    actions == [] || (Enabled(s, actions[0]) && Run(Apply(s, actions[0]), actions[1..]))
  }

  function After(s: State, actions: seq<Action>): State
    requires Run(s, actions)
    decreases |actions|
  {
    if actions == [] then s else After(Apply(s, actions[0]), actions[1..])
  }

  function InHand(pc: HandlerPc): Text {
    if pc.Answering? || pc.SendingChunk? then pc.chunk else []
  }

  function HeldLine(r: ReaderState): Text {
    if r.held.Some? then r.held.value + [NEWLINE] else []
  }

  /** What has left the reader's buffer towards the client. */
  function Shipped(s: State): Text {
    s.received + s.client.buff + Concat(s.network) + InHand(s.handler)
  }

  /** Every byte of the lines sent so far, wherever on the way it is. */
  function InFlight(s: State): Text {
    Shipped(s) + s.reader.buff + HeldLine(s.reader)
  }

  predicate Balanced(s: State) {
    && InFlight(s) == Unlines(s.f.sent)
    && (s.reader.isClosed ==> s.reader.held.None? && s.f.tail.pc.Stopped?)
    && (s.handler.Answering? && s.handler.short && s.handler.closedThen ==> s.reader.buff == [] && s.reader.isClosed)
    && (s.handler == Ended(true) ==> s.reader.buff == [] && s.reader.isClosed)
    && (s.handler.Ended? ==> s.reader.isClosed)
  }

  predicate Inv(s: State) {
    F.Inv(s.f) && s.f.tail.maxLineSize == 0 && Balanced(s)
  }

  lemma HandOverKeeps(s: State)
    requires Balanced(s) && Enabled(s, Follow(F.SendPiece))
    ensures Balanced(Apply(s, Follow(F.SendPiece)))
  {
    var t := Apply(s, Follow(F.SendPiece));
    var piece := s.f.tail.queue[0];
    UnlinesAppend(s.f.sent, [piece]);
    assert Unlines([piece]) == piece + [NEWLINE] + Unlines([piece][1..]);
    assert InFlight(t) == InFlight(s) + (piece + [NEWLINE]);
  }

  lemma FollowKeeps(s: State, step: F.Action)
    requires Balanced(s) && Enabled(s, Follow(step)) && step != F.SendPiece
    ensures Balanced(Apply(s, Follow(step)))
  {
    assert InFlight(Apply(s, Follow(step))) == InFlight(s);
  }

  lemma CutFromBuffer(shipped: Text, buff: Text, n: nat, held: Text)
    requires n <= |buff|
    ensures shipped + [] + buff + held == shipped + buff[..n] + buff[n..] + held
  {
    assert shipped + [] == shipped;
    assert shipped + buff[..n] + buff[n..] == shipped + buff;
  }

  lemma ReadLockedKeeps(s: State, want: nat)
    requires Balanced(s) && s.handler == Idle
    ensures Balanced(Apply(s, ReadLocked(want)))
  {
    hide Unlines, Concat;
    CutFromBuffer(s.received + s.client.buff + Concat(s.network), s.reader.buff, Min(want, |s.reader.buff|),
                  HeldLine(s.reader));
    assert InFlight(Apply(s, ReadLocked(want))) == InFlight(s);
  }

  lemma MoveToNetwork(x: Text, net: Text, chunk: Text)
    ensures x + net + chunk == x + (net + chunk) + []
  {
  }

  lemma SendChunkKeeps(s: State)
    requires Balanced(s) && s.handler.SendingChunk?
    ensures Balanced(Apply(s, SendChunk))
  {
    var chunk := s.handler.chunk;
    ConcatAppend(s.network, [chunk]);
    assert Concat([chunk]) == chunk by { assert Concat([chunk]) == chunk + Concat([chunk][1..]); }
    MoveToNetwork(s.received + s.client.buff, Concat(s.network), chunk);
    assert Shipped(Apply(s, SendChunk)) == Shipped(s);
  }

  lemma MoveToClient(received: Text, buff: Text, net: Text, bytes: Text, net': Text, n: nat)
    requires n <= |bytes| && buff + net == bytes + net'
    ensures received + buff + net == received + bytes[..n] + bytes[n..] + net'
  {
    assert received + buff + net == received + (buff + net);
    assert received + bytes[..n] + bytes[n..] == received + bytes;
    assert received + bytes + net' == received + (bytes + net');
  }

  lemma InReachIsNext(c: ClientState, network: seq<Text>)
    requires CanClientRead(c, network)
    ensures c.buff + Concat(network) == InReach(c, network) + Concat(Unreceived(c, network))
  {
  }

  lemma ClientReadKeeps(s: State, want: nat)
    requires Balanced(s) && CanClientRead(s.client, s.network)
    ensures Balanced(Apply(s, ClientRead(want)))
  {
    var bytes := InReach(s.client, s.network);
    InReachIsNext(s.client, s.network);
    MoveToClient(s.received, s.client.buff, Concat(s.network),
                 bytes, Concat(Unreceived(s.client, s.network)), Min(want, |bytes|));
    assert Shipped(Apply(s, ClientRead(want))) == Shipped(s);
  }

  lemma SameBytes(s: State, t: State)
    requires t.received == s.received && t.client == s.client && t.network == s.network
    requires InHand(t.handler) == InHand(s.handler)
    requires t.reader.buff == s.reader.buff && HeldLine(t.reader) == HeldLine(s.reader)
    ensures InFlight(t) == InFlight(s)
  {
  }

  lemma MoveToBuffer(shipped: Text, buff: Text, line: Text)
    ensures shipped + (buff + line + [NEWLINE]) + [] == shipped + buff + (line + [NEWLINE])
  {
  }

  lemma WriteLineKeeps(s: State)
    requires Balanced(s) && CanWriteLine(s.reader)
    ensures Balanced(Apply(s, WriteLine))
  {
    hide Unlines, Concat;
    MoveToBuffer(Shipped(s), s.reader.buff, s.reader.held.value);
    assert Shipped(Apply(s, WriteLine)) == Shipped(s);
  }

  lemma ReadCheckKeeps(s: State)
    requires Balanced(s) && s.handler.Answering?
    ensures Balanced(Apply(s, ReadCheck))
  {
    hide InFlight;
    SameBytes(s, Apply(s, ReadCheck));
  }

  /** Closing and cancelling move no bytes. */
  lemma QuietStepKeeps(s: State, a: Action)
    requires Balanced(s) && Enabled(s, a)
    requires a.FinishReadTail? || a.AskToClose? || a.CloseReturns? || a.Cancel?
    ensures Balanced(Apply(s, a))
  {
    hide InFlight;
    SameBytes(s, Apply(s, a));
  }

  lemma StepKeeps(s: State, a: Action)
    requires Inv(s) && Enabled(s, a)
    ensures Inv(Apply(s, a))
  {
    hide Balanced;
    match a
    case Follow(step) =>
      F.StepKeeps(s.f, step);
      if step == F.SendPiece { HandOverKeeps(s); } else { FollowKeeps(s, step); }
    case AskToClose =>
      F.StepKeeps(s.f, F.Kill(StopAtEof));
      QuietStepKeeps(s, a);
    case WriteLine => WriteLineKeeps(s);
    case ReadCheck => ReadCheckKeeps(s);
    case ReadLocked(want) => ReadLockedKeeps(s, want);
    case SendChunk => SendChunkKeeps(s);
    case ClientRead(want) => ClientReadKeeps(s, want);
    case _ => QuietStepKeeps(s, a);
  }

  lemma {:induction false} RunKeeps(s: State, actions: seq<Action>)
    requires Inv(s) && Run(s, actions)
    ensures Inv(After(s, actions))
    decreases |actions|
  {
    if actions != [] {
      StepKeeps(s, actions[0]);
      RunKeeps(Apply(s, actions[0]), actions[1..]);
    }
  }

  lemma {:induction false} RunGrows(s: State, actions: seq<Action>)
    requires Run(s, actions)
    ensures F.Grown(s.f, After(s, actions).f)
    decreases |actions|
  {
    if actions != [] {
      RunGrows(Apply(s, actions[0]), actions[1..]);
    }
  }

  lemma InitInv(s: State)
    requires Init(s)
    ensures Inv(s)
  {
    F.InitInv(s.f);
  }

  lemma SentIsText(f: F.State)
    requires F.Inv(f) && f.tail.maxLineSize == 0
    ensures Unlines(f.sent) + Unlines(f.tail.queue) == f.content[f.start..F.Taken(f)]
  {
    var text := f.content[f.start..F.Taken(f)];
    PiecesUnlimited(LinesOf(text));
    UnlinesOfLines(text);
    UnlinesAppend(f.sent, f.tail.queue);
  }

  lemma Accounted(s: State)
    requires Inv(s)
    ensures InFlight(s) + Unlines(s.f.tail.queue) == s.f.content[s.f.start..F.Taken(s.f)]
  {
    SentIsText(s.f);
  }

  lemma PrefixOfAll(a: Text, b: Text, c: Text, d: Text, e: Text, f: Text, g: Text)
    ensures a <= a + b + c + d + e + f + g
  {
  }

  /**
   End to end. Whatever the interleaving and the sizes of all buffers: what the client has received, and the bytes on
   their way (its own rest, the chunks in the network and in the handler's hand, the reader's buffer, readTail's line
   and the line being sent) are, in this order, the complete lines read so far: a prefix of the file's text from the
   start.
   */
  lemma EndToEnd(s: State, actions: seq<Action>)
    requires Init(s) && Run(s, actions)
    ensures var t := After(s, actions);
      && s.f.start <= F.Taken(t.f) <= |t.f.content|
      && Complete(t.f.content[s.f.start..F.Taken(t.f)])
      && t.received + t.client.buff + Concat(t.network) + InHand(t.handler) + t.reader.buff + HeldLine(t.reader)
         + Unlines(t.f.tail.queue) == t.f.content[s.f.start..F.Taken(t.f)]
      && t.received <= t.f.content[s.f.start..F.Taken(t.f)]
  {
    InitInv(s);
    RunKeeps(s, actions);
    RunGrows(s, actions);
    var t := After(s, actions);
    Accounted(t);
    PrefixOfAll(t.received, t.client.buff, Concat(t.network), InHand(t.handler), t.reader.buff, HeldLine(t.reader),
                Unlines(t.f.tail.queue));
  }

  /** Nothing is on its way any more. */
  predicate Drained(s: State) {
    s.client.buff == [] && s.network == []
  }

  /**
   When end of file was answered to a Read that was locked after the reader had closed, the client that reads on gets
   everything: all lines the follower has sent.
   */
  lemma EndOfFileIsComplete(s: State, actions: seq<Action>)
    requires Init(s) && Run(s, actions)
    requires After(s, actions).handler == Ended(true) && Drained(After(s, actions))
    ensures var t := After(s, actions); t.received == Unlines(t.f.sent)
  {
    InitInv(s);
    RunKeeps(s, actions);
    var t := After(s, actions);
    DrainedInFlight(t);
    assert t.received + [] == t.received;
  }

  lemma DrainedInFlight(s: State)
    requires Drained(s) && s.handler.Ended? && s.reader.held.None?
    ensures InFlight(s) == s.received + s.reader.buff
  {
  }

  /** In general, what end of file costs is exactly what sits in the reader's buffer by then. */
  lemma EndOfFileMisses(s: State, actions: seq<Action>)
    requires Init(s) && Run(s, actions)
    requires After(s, actions).handler.Ended? && Drained(After(s, actions))
    ensures var t := After(s, actions);
      && t.received + t.reader.buff == Unlines(t.f.sent)
      && (t.received == Unlines(t.f.sent) <==> t.reader.buff == [])
  {
    InitInv(s);
    RunKeeps(s, actions);
    var t := After(s, actions);
    DrainedInFlight(t);
  }

  ghost predicate Reaches(s: State, t: State) {
    exists actions :: Run(s, actions) && After(s, actions) == t
  }

  lemma {:induction false} RunSnoc(s: State, actions: seq<Action>, a: Action)
    requires Run(s, actions) && Enabled(After(s, actions), a)
    ensures Run(s, actions + [a]) && After(s, actions + [a]) == Apply(After(s, actions), a)
    decreases |actions|
  {
    if actions == [] {
      assert actions + [a] == [a] && [a][1..] == [];
      assert Run(Apply(s, a), [a][1..]);
    } else {
      RunSnoc(Apply(s, actions[0]), actions[1..], a);
      assert (actions + [a])[1..] == actions[1..] + [a];
    }
  }

  lemma Step(s: State, t: State, a: Action) returns (next: State)
    requires Reaches(s, t) && Enabled(t, a)
    ensures next == Apply(t, a) && Reaches(s, next)
  {
    var actions :| Run(s, actions) && After(s, actions) == t;
    RunSnoc(s, actions, a);
    next := Apply(t, a);
  }

  lemma Stay(s: State)
    ensures Reaches(s, s)
  {
    assert Run(s, []) && After(s, []) == s;
  }

  /** The last line is in readTail's hand, everything before it has been delivered, the follower waits. */
  predicate LastLineInHand(s: State) {
    && s.f.tail.pc == Waiting && s.f.dying == Alive
    && s.reader.held.Some? && s.reader.buff == [] && !s.reader.isClosed
    && s.handler == Idle && Drained(s)
  }

  /** Close has returned, and readTail still holds the last line. */
  predicate ClosedWithLine(s: State) {
    && s.f.tail.pc.Stopped?
    && s.reader.held.Some? && s.reader.buff == [] && !s.reader.isClosed
    && s.handler == Idle && Drained(s)
  }

  lemma CloseWithLine(s0: State, s: State) returns (t: State)
    requires Reaches(s0, s) && LastLineInHand(s)
    ensures Reaches(s0, t) && ClosedWithLine(t)
    ensures t.received == s.received && t.f.sent == s.f.sent && t.reader == s.reader
  {
    hide Reaches, Run, After, Unlines, Concat, LinesOf, Pieces, Partition;
    t := Step(s0, s, AskToClose);
    t := Step(s0, t, Follow(F.Abandon));
    t := Step(s0, t, CloseReturns);
  }

  /**
   From there end of file can come too early: the reader is locked while readTail holds the line; readTail then
   writes it and closes, and only now does Read look whether the reader is closed. The line stays behind.
   */
  lemma LastLineCanStayBehind(s0: State, s: State) returns (t: State)
    requires Reaches(s0, s) && LastLineInHand(s)
    ensures Reaches(s0, t)
    ensures t.handler == Ended(false) && Drained(t) && t.f.sent == s.f.sent
    ensures t.received == s.received && t.reader.buff == s.reader.held.value + [NEWLINE]
  {
    hide Reaches, Run, After, Unlines, Concat, LinesOf, Pieces, Partition;
    t := CloseWithLine(s0, s);
    t := Step(s0, t, ReadLocked(128));
    assert t.handler == Answering([], true, false);
    t := Step(s0, t, WriteLine);
    t := Step(s0, t, FinishReadTail);
    t := Step(s0, t, ReadCheck);
  }

  function OneLineFile(): State {
    var tail := TailState(0, LoopTop, 0, [], [], 0, []);
    State(F.State(0, [65, NEWLINE], 0, Alive, tail, [], 0, 0), ReaderState([], None, false), Idle, [],
          ClientState([]), [])
  }

  function OneLineTail(pc: Pc, fpos: nat, buf: Text, queue: seq<Text>, offset: int): TailState {
    TailState(0, pc, fpos, buf, [], offset, queue)
  }

  lemma OneLineBuffered() returns (s: State)
    ensures Reaches(OneLineFile(), s)
    ensures s == var s0 := OneLineFile();
                 s0.(f := s0.f.(tail := OneLineTail(Pc.Reading, 2, [65, NEWLINE], [], 0)))
  {
    var s0 := OneLineFile();
    Stay(s0);
    s := Step(s0, s0, Follow(F.Tell));
    s := Step(s0, s, Follow(F.Fill(2)));
  }

  lemma OneLineRead() returns (s: State)
    ensures Reaches(OneLineFile(), s)
    ensures s == var s0 := OneLineFile(); s0.(f := s0.f.(tail := OneLineTail(Sending, 2, [], [[65]], 0)))
  {
    s := OneLineBuffered();
    FirstNewlineAt(s.f.tail.buf, 1);
    assert s.f.tail.acc + s.f.tail.buf[..1] == [65];
    s := Step(OneLineFile(), s, Follow(F.TakeLine));
  }

  lemma OneLineHandedOver() returns (s: State)
    ensures Reaches(OneLineFile(), s)
    ensures s == var s0 := OneLineFile();
                 s0.(f := s0.f.(tail := OneLineTail(LoopTop, 2, [], [], 0), sent := [[65]]),
                     reader := ReaderState([], Some([65]), false))
  {
    hide Reaches, Run, After, Unlines, Concat, LinesOf, Pieces, Partition;
    var s0 := OneLineFile();
    s := OneLineRead();
    s := Step(s0, s, Follow(F.SendPiece));
    s := Step(s0, s, Follow(F.FinishLine));
  }

  lemma OneLineInHand() returns (s: State)
    ensures Reaches(OneLineFile(), s) && LastLineInHand(s)
    ensures s.received == [] && s.f.sent == [[65]] && s.reader.held == Some([65])
  {
    hide Reaches, Run, After, Unlines, Concat, LinesOf, Pieces, Partition;
    var s0 := OneLineFile();
    s := OneLineHandedOver();
    s := Step(s0, s, Follow(F.Tell));
    assert s.f.tail == OneLineTail(Pc.Reading, 2, [], [], 2);
    s := Step(s0, s, Follow(F.HitEof));
    s := Step(s0, s, Follow(F.BeginWait));
  }

  /** So completeness without the condition of EndOfFileIsComplete fails: a client of a one-line file gets nothing. */
  lemma EndOfFileCanComeTooEarly() returns (actions: seq<Action>)
    ensures Init(OneLineFile()) && Run(OneLineFile(), actions)
    ensures var t := After(OneLineFile(), actions);
      t.handler == Ended(false) && Drained(t) && t.received == [] && Unlines(t.f.sent) == [65, NEWLINE]
  {
    var s := OneLineInHand();
    var t := LastLineCanStayBehind(OneLineFile(), s);
    actions :| Run(OneLineFile(), actions) && After(OneLineFile(), actions) == t;
    assert Unlines([[65]]) == [65] + [NEWLINE] + Unlines([[65]][1..]);
  }
}
