/**
 The tracker's server goroutine and its clients, interleaved. A client is one call of BlockUntilExists or one watch of
 ChangeEvents: it asks to watch, listens to the events channel, and asks once to remove its watch. All replies travel
 on one shared, unbuffered channel, and nothing in the code says whom a reply is for.
 */
module TrackerRuns {
  import opened Options
  import opened Tracker

  type ClientId = nat

  datatype ClientPc =
    | Out
    | Asking(w: WatchInfo)                        // sending its request to watch
    | AwaitingAdd(w: WatchInfo)                   // receiving from the shared reply channel
    | In(w: WatchInfo)                            // watching, events channel not fetched yet
    | Listening(w: WatchInfo, ch: Option<Chan>)   // a missing channel is nil: receiving from it blocks
    | Leaving(w: WatchInfo)                       // about to call remove
    | PastLock(w: WatchInfo)                      // past the locked part of remove, sending its request
    | AwaitingRemove(w: WatchInfo)                // receiving from the shared reply channel

  /** The server in its select, or blocked in the handling of one case of it. */
  datatype ServerPc =
    | Selecting
    | AnsweringAdd(client: ClientId, w: WatchInfo, ok: bool)
    | Unsubscribing(client: ClientId, w: WatchInfo)
    | AnsweringRemove(client: ClientId, w: WatchInfo)
    | Sending(fname: Path, ch: Chan, dn: Chan)

  datatype State = State(t: TrackerState, server: ServerPc, clients: map<ClientId, ClientPc>)

  datatype Action =
    | Ask(c: ClientId, w: WatchInfo)
    | AcceptAdd(c: ClientId, added: bool)
    | Answer(c: ClientId)
    | FetchEvents(c: ClientId)
    | Event(name: Path)
    | Deliver(c: ClientId, enough: bool)
    | Escape
    | SeeClosed(c: ClientId)
    | GiveUp(c: ClientId)
    | PassLock(c: ClientId)
    | AcceptRemove(c: ClientId)
    | Unsubscribe

  function At(s: State, c: ClientId): ClientPc { if c in s.clients then s.clients[c] else Out }

  function Moved(s: State, c: ClientId, pc: ClientPc): State { s.(clients := s.clients[c := pc]) }

  predicate Init(s: State) {
    s.t == TrackerState(map[], map[], map[], {}, 0, {}) && s.server == Selecting && s.clients == map[]
  }

  predicate AwaitsReply(pc: ClientPc) { pc.AwaitingAdd? || pc.AwaitingRemove? }

  predicate HasReply(pc: ServerPc) { pc.AnsweringAdd? || pc.AnsweringRemove? }

  /** Any client that receives from the reply channel may take the reply on it. */
  predicate Enabled(s: State, a: Action) {
    match a
    case Ask(c, _) => At(s, c) == Out
    case AcceptAdd(c, _) => s.server == Selecting && At(s, c).Asking?
    case Answer(c) => HasReply(s.server) && AwaitsReply(At(s, c))
    case FetchEvents(c) => At(s, c).In?
    case Event(_) => s.server == Selecting
    case Deliver(c, _) => s.server.Sending? && At(s, c).Listening? && At(s, c).ch == Some(s.server.ch)
    case Escape => s.server.Sending? && s.server.dn in s.t.closed
    case SeeClosed(c) => At(s, c).Listening? && At(s, c).ch.Some? && At(s, c).ch.value in s.t.closed
    case GiveUp(c) => At(s, c).In? || At(s, c).Listening?
    case PassLock(c) => At(s, c).Leaving?
    case AcceptRemove(c) => s.server == Selecting && At(s, c).PastLock?
    case Unsubscribe => s.server.Unsubscribing?
  }

  /** What a client makes of the reply it gets, be it its own or not: an error of Watch ends the call. */
  function OnReply(pc: ClientPc, server: ServerPc): ClientPc
    requires AwaitsReply(pc) && HasReply(server)
  {
    if pc.AwaitingAdd? && (server.AnsweringAdd? ==> server.ok) then In(pc.w) else Out
  }

  function Apply(s: State, a: Action): State
    requires Enabled(s, a)
  {
    match a
    case Ask(c, w) => Moved(s, c, Asking(w))
    case AcceptAdd(c, added) =>
      var w := At(s, c).w;
      Moved(s, c, AwaitingAdd(w)).(t := AddStep(s.t, w, added),
                                   server := AnsweringAdd(c, w, AddSucceeds(s.t, w, added)))
    case Answer(c) => Moved(s, c, OnReply(At(s, c), s.server)).(server := Selecting)
    case FetchEvents(c) => Moved(s, c, Listening(At(s, c).w, Lookup(s.t.chans, At(s, c).w.fname)))
    case Event(name) =>
      if name in s.t.chans && name in s.t.done then s.(server := Sending(name, s.t.chans[name], s.t.done[name]))
      else s
    case Deliver(c, enough) =>
      Moved(s, c, if enough then Leaving(At(s, c).w) else At(s, c)).(server := Selecting)
    case Escape => s.(server := Selecting)
    case SeeClosed(c) => Moved(s, c, Leaving(At(s, c).w))
    case GiveUp(c) => Moved(s, c, Leaving(At(s, c).w))
    case PassLock(c) => Moved(s, c, PastLock(At(s, c).w)).(t := ReleaseStep(s.t, At(s, c).w.fname))
    case AcceptRemove(c) =>
      var w := At(s, c).w;
      Moved(s, c, AwaitingRemove(w)).(t := RemoveStep(s.t, w),
                                      server := if IsLast(s.t, w) then Unsubscribing(c, w) else AnsweringRemove(c, w))
    case Unsubscribe =>
      s.(t := UnsubscribeStep(s.t, Key(s.server.w)), server := AnsweringRemove(s.server.client, s.server.w))
  }

  predicate Run(s: State, actions: seq<Action>)
    decreases |actions|
  {
    actions == [] || (Enabled(s, actions[0]) && Run(Apply(s, actions[0]), actions[1..]))
  }

  function After(s: State, actions: seq<Action>): State
    requires Run(s, actions)
    decreases |actions|
  {
    if actions == [] then s else After(Apply(s, actions[0]), actions[1..])
  }

  /** The one client the server is working for, and what that client must be doing. */
  predicate Serving(s: State, c: ClientId) {
    match s.server
    case AnsweringAdd(owner, w, _) => c == owner
    case Unsubscribing(owner, w) => c == owner
    case AnsweringRemove(owner, w) => c == owner
    case _ => false
  }

  function Served(server: ServerPc): ClientPc
    requires server.AnsweringAdd? || server.Unsubscribing? || server.AnsweringRemove?
  {
    if server.AnsweringAdd? then AwaitingAdd(server.w) else AwaitingRemove(server.w)
  }

  predicate RepliesInv(s: State) {
    forall c | c in s.clients :: AwaitsReply(s.clients[c]) <==> Serving(s, c)
  }

  predicate ServedInv(s: State) {
    s.server.AnsweringAdd? || s.server.Unsubscribing? || s.server.AnsweringRemove? ==>
      At(s, s.server.client) == Served(s.server)
  }

  lemma RepliesKeep(s: State, a: Action)
    requires RepliesInv(s) && ServedInv(s) && Enabled(s, a)
    ensures RepliesInv(Apply(s, a)) && ServedInv(Apply(s, a))
  {
  }

  predicate Opened(t: TrackerState, ch: Chan) { ch < t.next && ch !in t.closed }

  predicate ChannelsInv(t: TrackerState) {
    && (forall f | f in t.chans :: Opened(t, t.chans[f]))
    && (forall f | f in t.done :: Opened(t, t.done[f]))
    && (forall f, g | f in t.chans && g in t.chans && t.chans[f] == t.chans[g] :: f == g)
    && (forall f, g | f in t.done && g in t.done && t.done[f] == t.done[g] :: f == g)
    && (forall f, g | f in t.chans && g in t.done :: t.chans[f] != t.done[g])
    && (forall ch | ch in t.closed :: ch < t.next)
  }

  /** A blocked send: its events channel is open, and its done channel is closed unless it is still in the map. */
  predicate SendingInv(s: State) {
    s.server.Sending? ==>
      && Lookup(s.t.chans, s.server.fname) == Some(s.server.ch)
      && (s.server.fname in s.t.done ==> s.t.done[s.server.fname] == s.server.dn)
      && (s.server.fname !in s.t.done ==> s.server.dn in s.t.closed)
  }

  lemma AddKeepsChannels(t: TrackerState, w: WatchInfo, added: bool)
    requires ChannelsInv(t)
    ensures ChannelsInv(AddStep(t, w, added))
  {
    WithChansKeeps(t, w.fname);
    WithDoneKeeps(WithChans(t, w.fname), w.fname);
  }

  lemma WithChansKeeps(t: TrackerState, f: Path)
    requires ChannelsInv(t)
    ensures ChannelsInv(WithChans(t, f))
  {
    assert t.next !in t.closed;
  }

  lemma WithDoneKeeps(t: TrackerState, f: Path)
    requires ChannelsInv(t)
    ensures ChannelsInv(WithDone(t, f))
  {
    assert t.next !in t.closed;
  }

  lemma ReleaseKeepsChannels(t: TrackerState, f: Path)
    requires ChannelsInv(t)
    ensures ChannelsInv(ReleaseStep(t, f))
  {
  }

  lemma RemoveKeepsChannels(t: TrackerState, w: WatchInfo)
    requires ChannelsInv(t)
    ensures ChannelsInv(RemoveStep(t, w))
  {
  }

  lemma ChannelsKeep(s: State, a: Action)
    requires ChannelsInv(s.t) && SendingInv(s) && Enabled(s, a)
    ensures ChannelsInv(Apply(s, a).t) && SendingInv(Apply(s, a))
  {
    match a
    case AcceptAdd(c, added) => AddKeepsChannels(s.t, At(s, c).w, added);
    case PassLock(c) => ReleaseKeepsChannels(s.t, At(s, c).w.fname);
    case AcceptRemove(c) => RemoveKeepsChannels(s.t, At(s, c).w);
    case _ =>
  }

  /** The client's watch has been added, and its removal not processed. */
  predicate Holds(s: State, c: ClientId) {
    match At(s, c)
    case AwaitingAdd(w) => s.server == AnsweringAdd(c, w, true)
    case In(_) => true
    case Listening(_, _) => true
    case Leaving(_) => true
    case PastLock(_) => true
    case _ => false
  }

  predicate HoldsKey(s: State, c: ClientId, k: Path) { Holds(s, c) && Key(At(s, c).w) == k }

  function Holders(s: State, k: Path): set<ClientId> { set c | c in s.clients && HoldsKey(s, c, k) }

  /** The reference counts: the key's number of holders, and subscribed while there are any. */
  predicate CountOk(s: State, k: Path) {
    && WatchNum(s.t, k) == |Holders(s, k)|
    && (k in s.t.watchNums <==> Holders(s, k) != {})
    && (k in s.t.subscribed <==> k in s.t.watchNums || (s.server.Unsubscribing? && Key(s.server.w) == k))
    && (s.server.Unsubscribing? ==> Key(s.server.w) !in s.t.watchNums)
  }

  ghost predicate CountsInv(s: State) {
    forall k :: CountOk(s, k)
  }

  lemma SameHolders(s: State, s': State, k: Path)
    requires forall c | c in s.clients || c in s'.clients :: HoldsKey(s', c, k) <==> HoldsKey(s, c, k)
    ensures Holders(s', k) == Holders(s, k)
  {
    assert forall c | HoldsKey(s, c, k) :: c in s.clients;
    assert forall c | HoldsKey(s', c, k) :: c in s'.clients;
  }

  /** A successful add makes the client one more holder of its key; nothing else changes. */
  lemma AcceptAddHolders(s: State, c: ClientId, added: bool, k: Path)
    requires Enabled(s, AcceptAdd(c, added))
    ensures c !in Holders(s, k)
    ensures Holders(Apply(s, AcceptAdd(c, added)), k)
         == if AddSucceeds(s.t, At(s, c).w, added) && Key(At(s, c).w) == k then Holders(s, k) + {c} else Holders(s, k)
  {
    var s' := Apply(s, AcceptAdd(c, added));
    assert At(s', c) == AwaitingAdd(At(s, c).w);
    assert forall d | d != c :: At(s', d) == At(s, d);
  }

  lemma AcceptAddKeepsCount(s: State, c: ClientId, added: bool, k: Path)
    requires CountOk(s, k) && Enabled(s, AcceptAdd(c, added))
    ensures CountOk(Apply(s, AcceptAdd(c, added)), k)
  {
    AcceptAddHolders(s, c, added, k);
  }

  lemma AcceptRemoveKeepsCount(s: State, c: ClientId, k: Path)
    requires Enabled(s, AcceptRemove(c))
    requires CountOk(s, k) && CountOk(s, Key(At(s, c).w))
    ensures CountOk(Apply(s, AcceptRemove(c)), k)
  {
    var s' := Apply(s, AcceptRemove(c));
    var w := At(s, c).w;
    if Key(w) == k {
      assert c in Holders(s, k);
      assert Holders(s', k) == Holders(s, k) - {c};
    } else {
      SameHolders(s, s', k);
    }
  }

  lemma OtherStepKeepsCount(s: State, a: Action, k: Path)
    requires RepliesInv(s) && ServedInv(s) && CountOk(s, k) && Enabled(s, a)
    requires !a.AcceptAdd? && !a.AcceptRemove?
    ensures CountOk(Apply(s, a), k)
  {
    SameHolders(s, Apply(s, a), k);
  }

  /** The events channel a client listens to is its own file's, or closed. */
  predicate ListeningInv(s: State) {
    forall c | c in s.clients :: ListensToOwn(s.t, s.clients[c])
  }

  predicate ListensToOwn(t: TrackerState, pc: ClientPc) {
    pc.Listening? && pc.ch.Some? ==> Lookup(t.chans, pc.w.fname) == pc.ch || pc.ch.value in t.closed
  }

  lemma ListeningKeeps(s: State, a: Action)
    requires ListeningInv(s) && Enabled(s, a)
    ensures ListeningInv(Apply(s, a))
  {
    var s' := Apply(s, a);
    forall c | c in s'.clients ensures ListensToOwn(s'.t, s'.clients[c]) {
      if c in s.clients {
        assert ListensToOwn(s.t, s.clients[c]);
      }
    }
  }

  ghost predicate Inv(s: State) {
    RepliesInv(s) && ServedInv(s) && ChannelsInv(s.t) && SendingInv(s) && CountsInv(s) && ListeningInv(s)
  }

  lemma StepKeeps(s: State, a: Action)
    requires Inv(s) && Enabled(s, a)
    ensures Inv(Apply(s, a))
  {
    RepliesKeep(s, a);
    ChannelsKeep(s, a);
    ListeningKeeps(s, a);
    forall k ensures CountOk(Apply(s, a), k) {
      assert CountOk(s, k);
      match a
      case AcceptAdd(c, added) => AcceptAddKeepsCount(s, c, added, k);
      case AcceptRemove(c) =>
        assert CountOk(s, Key(At(s, c).w));
        AcceptRemoveKeepsCount(s, c, k);
      case _ => OtherStepKeepsCount(s, a, k);
    }
  }

  lemma {:induction false} RunKeeps(s: State, actions: seq<Action>)
    requires Inv(s) && Run(s, actions)
    ensures Inv(After(s, actions))
    decreases |actions|
  {
    if actions != [] {
      StepKeeps(s, actions[0]);
      RunKeeps(Apply(s, actions[0]), actions[1..]);
    }
  }

  lemma InitInv(s: State)
    requires Init(s)
    ensures Inv(s)
  {
  }

  /**
   Everybody gets its own answer. In every reachable state at most one client receives from the shared reply channel,
   and when there is a reply on it, it is the reply to that client's request.
   */
  lemma AnswersMatch(s: State, actions: seq<Action>, c: ClientId)
    requires Init(s) && Run(s, actions) && AwaitsReply(At(After(s, actions), c))
    ensures var t := After(s, actions);
      && (forall d | AwaitsReply(At(t, d)) :: d == c)
      && Serving(t, c)
      && (HasReply(t.server) ==>
            t.server.client == c && t.server.w == At(t, c).w && t.server.AnsweringAdd? == At(t, c).AwaitingAdd?)
  {
    InitInv(s);
    RunKeeps(s, actions);
  }

  /** Closing a closed channel and sending on one panic. */
  predicate Panics(s: State, a: Action)
    requires Enabled(s, a)
  {
    match a
    case PassLock(c) => Lookup(s.t.done, At(s, c).w.fname).Some? && s.t.done[At(s, c).w.fname] in s.t.closed
    case AcceptRemove(c) => Lookup(s.t.chans, At(s, c).w.fname).Some? && s.t.chans[At(s, c).w.fname] in s.t.closed
    case _ => s.server.Sending? && s.server.ch in s.t.closed
  }

  /** No step of any run closes a channel twice, and the server never stands before a send on a closed channel. */
  lemma NoPanic(s: State, actions: seq<Action>, a: Action)
    requires Init(s) && Run(s, actions) && Enabled(After(s, actions), a)
    ensures !Panics(After(s, actions), a)
    ensures var t := Apply(After(s, actions), a); t.server.Sending? ==> t.server.ch !in t.t.closed
  {
    hide Run, After, Init, RepliesInv, ServedInv, CountsInv, ListeningInv;
    InitInv(s);
    RunKeeps(s, actions);
    StepKeeps(After(s, actions), a);
  }

  /** The clients whose watch of k, directly or as the directory of a file to be created, is added and not removed. */
  ghost function WatchersOf(s: State, k: Path): set<ClientId> {
    set c | c in s.clients && Holds(s, c) && Watches(At(s, c).w, k)
  }

  lemma WatchersAreHolders(s: State, k: Path)
    ensures WatchersOf(s, k) == Holders(s, k)
  {
    hide Key;
    forall c | c in s.clients && Holds(s, c) ensures Watches(At(s, c).w, k) <==> Key(At(s, c).w) == k {
      KeyIff(At(s, c).w, k);
    }
  }

  /**
   The reference counts, over all interleavings: the number kept for a path is the number of clients that watch it or
   wait for a file in it; never negative; and the path is subscribed exactly while it is positive, or during the one
   call that unsubscribes it.
   */
  lemma CountsAreExact(s: State, actions: seq<Action>, k: Path)
    requires Init(s) && Run(s, actions)
    ensures var t := After(s, actions);
      && WatchNum(t.t, k) == |WatchersOf(t, k)| >= 0
      && (k in t.t.subscribed <==>
            WatchNum(t.t, k) > 0 || (t.server.Unsubscribing? && Watches(t.server.w, k)))
  {
    hide Watches, Key, WatchersOf;
    InitInv(s);
    RunKeeps(s, actions);
    var t := After(s, actions);
    assert CountOk(t, k);
    WatchersAreHolders(t, k);
    if t.server.Unsubscribing? {
      KeyIff(t.server.w, k);
    }
  }

  /** An event goes to a client only if it is about the file that client watches. */
  lemma EventsReachTheirWatcher(s: State, actions: seq<Action>, c: ClientId, enough: bool)
    requires Init(s) && Run(s, actions) && Enabled(After(s, actions), Deliver(c, enough))
    ensures After(s, actions).server.fname == At(After(s, actions), c).w.fname
  {
    InitInv(s);
    RunKeeps(s, actions);
    DeliversOwn(After(s, actions), c, enough);
  }

  lemma DeliversOwn(s: State, c: ClientId, enough: bool)
    requires ChannelsInv(s.t) && SendingInv(s) && ListeningInv(s) && Enabled(s, Deliver(c, enough))
    ensures s.server.fname == At(s, c).w.fname
  {
    assert ListensToOwn(s.t, s.clients[c]);
  }

  /** When remove(f) passes its locked part while the server is blocked sending to f, the server can escape. */
  lemma RemoveOpensEscape(s: State, actions: seq<Action>, c: ClientId)
    requires Init(s) && Run(s, actions) && After(s, actions).server.Sending?
    requires At(After(s, actions), c).Leaving? && At(After(s, actions), c).w.fname == After(s, actions).server.fname
    ensures var t := Apply(After(s, actions), PassLock(c)); Enabled(t, Escape) && t.server == After(s, actions).server
  {
    InitInv(s);
    RunKeeps(s, actions);
  }

  /** At any moment of a blocked send the escape is open exactly when f has no done channel in the map. */
  lemma EscapeIffReleased(s: State, actions: seq<Action>)
    requires Init(s) && Run(s, actions) && After(s, actions).server.Sending?
    ensures var t := After(s, actions); Enabled(t, Escape) <==> t.server.fname !in t.t.done
  {
    InitInv(s);
    RunKeeps(s, actions);
  }

  /** The client watches f and has not passed the locked part of its remove. */
  predicate StaysWith(pc: ClientPc, f: Path) {
    (pc.In? || pc.Listening? || pc.Leaving?) && pc.w.fname == f
  }

  /** The server blocked sending to a file nobody watches, its escape shut. */
  predicate Stuck(s: State) {
    && s.server.Sending?
    && s.server.dn !in s.t.closed
    && forall c | c in s.clients :: !StaysWith(s.clients[c], s.server.fname)
  }

  /** Whatever anybody does, a stuck server stays stuck in this very send. */
  lemma {:induction false} StuckForever(s: State, actions: seq<Action>)
    requires Inv(s) && Stuck(s) && Run(s, actions)
    ensures After(s, actions).server == s.server && Stuck(After(s, actions))
    decreases |actions|
  {
    if actions != [] {
      StepKeeps(s, actions[0]);
      StuckStep(s, actions[0]);
      StuckForever(Apply(s, actions[0]), actions[1..]);
    }
  }

  lemma StuckStep(s: State, a: Action)
    requires Inv(s) && Stuck(s) && Enabled(s, a)
    ensures Apply(s, a).server == s.server && Stuck(Apply(s, a))
  {
    if a.Deliver? {
      DeliversOwn(s, a.c, a.enough);
      assert false;
    }
    StuckElsewhere(s, a);
  }

  lemma StuckElsewhere(s: State, a: Action)
    requires RepliesInv(s) && ServedInv(s) && ChannelsInv(s.t) && SendingInv(s)
    requires Stuck(s) && Enabled(s, a) && !a.Deliver?
    ensures Apply(s, a).server == s.server && Stuck(Apply(s, a))
  {
    var f := s.server.fname;
    var s' := Apply(s, a);
    forall c | c in s'.clients ensures !StaysWith(s'.clients[c], f) {
      if c in s.clients {
        assert !StaysWith(s.clients[c], f);
      }
    }
  }

  ghost predicate Reaches(s: State, t: State) {
    exists actions :: Run(s, actions) && After(s, actions) == t
  }

  lemma Stay(s: State)
    ensures Reaches(s, s)
  {
    assert Run(s, []) && After(s, []) == s;
  }

  lemma {:induction false} RunSnoc(s: State, actions: seq<Action>, a: Action)
    requires Run(s, actions) && Enabled(After(s, actions), a)
    ensures Run(s, actions + [a]) && After(s, actions + [a]) == Apply(After(s, actions), a)
    decreases |actions|
  {
    if actions == [] {
      assert actions + [a] == [a] && [a][1..] == [];
      assert Run(Apply(s, a), [a][1..]);
    } else {
      RunSnoc(Apply(s, actions[0]), actions[1..], a);
      assert (actions + [a])[1..] == actions[1..] + [a];
    }
  }

  lemma Step(s: State, t: State, a: Action) returns (next: State)
    requires Reaches(s, t) && Enabled(t, a)
    ensures next == Apply(t, a) && Reaches(s, next)
  {
    var actions :| Run(s, actions) && After(s, actions) == t;
    RunSnoc(s, actions, a);
    next := Apply(t, a);
  }

  /** A server blocked in a send without being stuck can be freed by one client that has had enough. */
  lemma NotStuckCanBeFreed(s: State) returns (t: State)
    requires Inv(s) && s.server.Sending? && !Stuck(s)
    ensures Reaches(s, t) && t.server == Selecting
  {
    Stay(s);
    t := s;
    if s.server.dn !in s.t.closed {
      var c :| c in s.clients && StaysWith(s.clients[c], s.server.fname);
      if !At(t, c).Leaving? {
        t := Step(s, t, GiveUp(c));
      }
      t := Step(s, t, PassLock(c));
    }
    t := Step(s, t, Escape);
  }

  /** The server is wedged exactly in the stuck states: from all others where it is blocked it can still be freed. */
  lemma WedgedIffStuck(s: State, actions: seq<Action>)
    requires Init(s) && Run(s, actions) && After(s, actions).server.Sending?
    ensures Stuck(After(s, actions)) <==> forall t | Reaches(After(s, actions), t) :: t.server.Sending?
  {
    InitInv(s);
    RunKeeps(s, actions);
    var u := After(s, actions);
    if Stuck(u) {
      forall t | Reaches(u, t) ensures t.server.Sending? {
        var more :| Run(u, more) && After(u, more) == t;
        StuckForever(u, more);
      }
    } else {
      var t := NotStuckCanBeFreed(u);
      assert Reaches(u, t) && !t.server.Sending?;
    }
  }

  /** No request to watch was refused by the watcher. */
  predicate NoAddFails(actions: seq<Action>) {
    forall a | a in actions && a.AcceptAdd? :: a.added
  }

  /** The client has caused f's done channel, or shares it, and will pass the locked part of its remove. */
  predicate Answerable(s: State, c: ClientId, f: Path) {
    || StaysWith(At(s, c), f)
    || (At(s, c).AwaitingAdd? && At(s, c).w.fname == f && s.server == AnsweringAdd(c, At(s, c).w, true))
  }

  ghost predicate EveryDoneIsAnswerable(s: State) {
    forall f | f in s.t.done :: exists c :: Answerable(s, c, f)
  }

  lemma AnswerableStep(s: State, a: Action)
    requires RepliesInv(s) && ServedInv(s) && EveryDoneIsAnswerable(s) && Enabled(s, a)
    requires a.AcceptAdd? ==> a.added
    ensures EveryDoneIsAnswerable(Apply(s, a))
  {
    var s' := Apply(s, a);
    forall f | f in s'.t.done ensures exists c :: Answerable(s', c, f) {
      if f in s.t.done {
        var c :| Answerable(s, c, f);
        assert Answerable(s', c, f);
      } else {
        assert Answerable(s', a.c, f);
      }
    }
  }

  lemma {:induction false} AnswerableRun(s: State, actions: seq<Action>)
    requires Inv(s) && EveryDoneIsAnswerable(s) && Run(s, actions) && NoAddFails(actions)
    ensures EveryDoneIsAnswerable(After(s, actions))
    decreases |actions|
  {
    if actions != [] {
      assert actions[0] in actions;
      StepKeeps(s, actions[0]);
      AnswerableStep(s, actions[0]);
      assert forall a | a in actions[1..] :: a in actions;
      AnswerableRun(Apply(s, actions[0]), actions[1..]);
    }
  }

  /** As long as no request to watch is refused the server cannot wedge. */
  lemma NeverStuck(s: State, actions: seq<Action>)
    requires Init(s) && Run(s, actions) && NoAddFails(actions)
    ensures !Stuck(After(s, actions))
  {
    InitInv(s);
    RunKeeps(s, actions);
    AnswerableRun(s, actions);
    var t := After(s, actions);
    if t.server.Sending? && t.server.dn !in t.t.closed {
      var c :| Answerable(t, c, t.server.fname);
      assert StaysWith(t.clients[c], t.server.fname);
    }
  }

  const START := State(TrackerState(map[], map[], map[], {}, 0, {}), Selecting, map[])

  /** An idle server answers one request to watch: Ask, AcceptAdd, Answer. */
  lemma Watch(s0: State, s: State, c: ClientId, w: WatchInfo, added: bool) returns (t: State)
    requires Reaches(s0, s) && s.server == Selecting && At(s, c) == Out
    ensures Reaches(s0, t)
    ensures t == State(AddStep(s.t, w, added), Selecting,
                       s.clients[c := if AddSucceeds(s.t, w, added) then In(w) else Out])
  {
    t := Step(s0, s, Ask(c, w));
    t := Step(s0, t, AcceptAdd(c, added));
    t := Step(s0, t, Answer(c));
    assert t.clients == s.clients[c := At(t, c)];
  }

  /** A client that watches gives up and passes the locked part of remove. */
  lemma Leave(s0: State, s: State, c: ClientId, w: WatchInfo) returns (t: State)
    requires Reaches(s0, s) && At(s, c) == In(w)
    ensures Reaches(s0, t)
    ensures t == State(ReleaseStep(s.t, w.fname), s.server, s.clients[c := PastLock(w)])
  {
    t := Step(s0, s, GiveUp(c));
    t := Step(s0, t, PassLock(c));
    assert t.clients == s.clients[c := PastLock(w)];
  }

  const CREATION_OF_A := WatchInfo(true, "d/a")
  const CREATION_OF_B := WatchInfo(true, "d/b")

  /**
   A refused request can wedge it. Waiting for "d/a" fails because the directory is missing, but leaves its channels
   behind; another client waits for "d/b" once the directory exists, and the creation of "d/a" is sent to nobody.
   */
  lemma RefusedRequestCanWedge() returns (actions: seq<Action>)
    ensures Init(START) && Run(START, actions) && Stuck(After(START, actions))
  {
    Stay(START);
    var s := Watch(START, START, 0, CREATION_OF_A, false);
    assert s == State(TrackerState(map["d/a" := 0], map["d/a" := 1], map[], {}, 2, {}), Selecting, map[0 := Out]);
    s := Watch(START, s, 1, CREATION_OF_B, true);
    assert Lookup(s.t.chans, "d/a") == Some(0) && Lookup(s.t.done, "d/a") == Some(1) && s.t.closed == {};
    assert s.clients == map[0 := Out, 1 := In(CREATION_OF_B)];
    s := Step(START, s, Event("d/a"));
    assert CREATION_OF_A.fname != CREATION_OF_B.fname;
    actions :| Run(START, actions) && After(START, actions) == s;
  }

  const CHANGES_OF_F := WatchInfo(false, "f")

  lemma FirstWatcherPastLock() returns (s: State)
    ensures Reaches(START, s)
    ensures s == State(TrackerState(map["f" := 0], map[], map["f" := 1], {"f"}, 2, {1}), Selecting,
                       map[0 := PastLock(CHANGES_OF_F)])
  {
    Stay(START);
    s := Watch(START, START, 0, CHANGES_OF_F, true);
    assert s == State(TrackerState(map["f" := 0], map["f" := 1], map["f" := 1], {"f"}, 2, {}), Selecting,
                      map[0 := In(CHANGES_OF_F)]);
    s := Leave(START, s, 0, CHANGES_OF_F);
    assert s.t.done == map[];
  }

  /**
   Having passed the locked part of remove(f) does not by itself keep the escape open: a second watch of f accepted in
   between makes a new done channel. That watcher then has to take the event or leave; EscapeIffReleased says when.
   */
  lemma NewWatchShutsEscape() returns (actions: seq<Action>)
    ensures Init(START) && Run(START, actions)
    ensures var s := After(START, actions);
      s.server.Sending? && At(s, 0) == PastLock(WatchInfo(false, s.server.fname)) && !Enabled(s, Escape) && !Stuck(s)
  {
    var s := FirstWatcherPastLock();
    s := Watch(START, s, 1, CHANGES_OF_F, true);
    assert s.t.chans == map["f" := 0] && s.t.done == map["f" := 2] && s.t.closed == {1};
    assert s.clients == map[0 := PastLock(CHANGES_OF_F), 1 := In(CHANGES_OF_F)];
    s := Step(START, s, Event("f"));
    assert StaysWith(s.clients[1], s.server.fname);
    actions :| Run(START, actions) && After(START, actions) == s;
  }
}
