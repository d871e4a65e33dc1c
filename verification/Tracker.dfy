/**
 pkg/tail/watch/inotify_tracker.go: the shared tracker. Its maps are guarded by one mutex, so every locked section is
 one step on them. Channels are numbers; `next` is the first number not handed out, `closed` the closed channels.
 */
module Tracker {
  import opened Options

  type Path = string
  type Chan = nat

  /** fname is a cleaned path; create asks for the creation of the file, hence for events of its directory. */
  datatype WatchInfo = WatchInfo(create: bool, fname: Path)

  /** The directory of a cleaned path. */
  function Dir(p: Path): Path {
    if p == "" then "."
    else if p[|p| - 1] == '/' then (if |p| == 1 then "/" else p[..|p| - 1])
    else Dir(p[..|p| - 1])
  }

  /** The path the fsnotify watcher is asked to watch. */
  function Key(w: WatchInfo): Path { if w.create then Dir(w.fname) else w.fname }

  datatype TrackerState = TrackerState(
    chans: map<Path, Chan>,
    done: map<Path, Chan>,
    watchNums: map<Path, int>,
    subscribed: set<Path>,
    next: Chan,
    closed: set<Chan>)

  /** A missing entry of a Go map of ints reads as zero. */
  function WatchNum(t: TrackerState, k: Path): int { if k in t.watchNums then t.watchNums[k] else 0 }

  function Lookup(m: map<Path, Chan>, f: Path): Option<Chan> { if f in m then Some(m[f]) else None }

  /** The locked part of remove. */
  function ReleaseStep(t: TrackerState, f: Path): TrackerState {
    if f in t.done then t.(done := t.done - {f}, closed := t.closed + {t.done[f]}) else t
  }

  function WithChans(t: TrackerState, f: Path): TrackerState {
    if f in t.chans then t else t.(chans := t.chans[f := t.next], next := t.next + 1)
  }

  function WithDone(t: TrackerState, f: Path): TrackerState {
    if f in t.done then t else t.(done := t.done[f := t.next], next := t.next + 1)
  }

  /** addWatch succeeds when the key is watched already or the watcher takes it; `added` is the watcher's answer. */
  predicate AddSucceeds(t: TrackerState, w: WatchInfo, added: bool) {
    WatchNum(t, Key(w)) != 0 || added
  }

  function AddStep(t: TrackerState, w: WatchInfo, added: bool): TrackerState {
    var k := Key(w);
    var u := WithDone(WithChans(t, w.fname), w.fname);
    if AddSucceeds(t, w, added) then
      u.(watchNums := u.watchNums[k := WatchNum(t, k) + 1],
         subscribed := if WatchNum(t, k) == 0 then u.subscribed + {k} else u.subscribed)
    else u
  }

  predicate IsLast(t: TrackerState, w: WatchInfo) { WatchNum(t, Key(w)) - 1 == 0 }

  /** The locked part of removeWatch. */
  function RemoveStep(t: TrackerState, w: WatchInfo): TrackerState {
    var f, k := w.fname, Key(w);
    var u := if f in t.chans then t.(chans := t.chans - {f}, closed := t.closed + {t.chans[f]}) else t;
    if IsLast(t, w) then u.(watchNums := u.watchNums - {k})
    else u.(watchNums := u.watchNums[k := WatchNum(t, k) - 1])
  }

  /** The call of watcher.Remove that follows it, outside the lock. */
  function UnsubscribeStep(t: TrackerState, k: Path): TrackerState { t.(subscribed := t.subscribed - {k}) }

  // What a request watches, said without the functions above

  predicate SlashFree(name: string) {
    forall i | 0 <= i < |name| :: name[i] != '/'
  }

  predicate Splits(f: Path, k: Path, name: string) {
    && SlashFree(name)
    && ((k != "" && f == k + "/" + name) || (k == "/" && f == "/" + name) || (k == "." && f == name))
  }

  /** `k` is the directory in which `f` has its name: the root, the working directory, or any other. */
  ghost predicate IsParent(k: Path, f: Path) { exists name :: Splits(f, k, name) }

  /** The request watches the path itself, or the directory of the file whose creation it waits for. */
  ghost predicate Watches(w: WatchInfo, k: Path) { if w.create then IsParent(k, w.fname) else w.fname == k }

  lemma {:induction false} DirIsParent(f: Path) returns (name: string)
    ensures Splits(f, Dir(f), name)
  {
    if f == "" {
      name := "";
    } else {
      var n := |f| - 1;
      if f[n] == '/' {
        name := "";
        assert f == f[..n] + "/";
      } else {
        var front := DirIsParent(f[..n]);
        name := front + [f[n]];
        assert f == f[..n] + [f[n]];
      }
    }
  }

  lemma {:induction false} DirDropsTheName(p: string, name: string)
    requires SlashFree(name)
    ensures Dir(p + name) == Dir(p)
    decreases |name|
  {
    if name == "" {
      assert p + name == p;
    } else {
      var n := |name| - 1;
      DirDropsTheName(p, name[..n]);
      assert (p + name)[..|p + name| - 1] == p + name[..n];
    }
  }

  lemma DirOfSlash(k: Path)
    ensures Dir(k + "/") == if k == "" then "/" else k
  {
    assert (k + "/")[..|k|] == k;
  }

  /** Every path has one parent, and Dir finds it. */
  lemma DirIff(k: Path, f: Path)
    ensures IsParent(k, f) <==> k == Dir(f)
  {
    if IsParent(k, f) {
      var name :| Splits(f, k, name);
      if k != "" && f == k + "/" + name {
        DirDropsTheName(k + "/", name);
        DirOfSlash(k);
      } else if k == "/" && f == "/" + name {
        DirDropsTheName("/", name);
      } else {
        DirDropsTheName("", name);
        assert "" + name == name;
      }
    }
    if k == Dir(f) {
      var name := DirIsParent(f);
    }
  }

  lemma KeyIff(w: WatchInfo, k: Path)
    ensures Watches(w, k) <==> k == Key(w)
  {
    DirIff(k, w.fname);
  }

  /** An accepted request counts once for the path it watches and for no other, and that path is then subscribed. */
  lemma AddCounts(t: TrackerState, w: WatchInfo, added: bool, k: Path)
    requires Watches(w, k) && (WatchNum(t, k) != 0 || added)
    ensures var t' := AddStep(t, w, added);
            && WatchNum(t', k) == WatchNum(t, k) + 1
            && (forall q | q != k :: WatchNum(t', q) == WatchNum(t, q))
            && (WatchNum(t, k) == 0 || k in t.subscribed ==> t'.subscribed == t.subscribed + {k})
  {
    hide Dir;
    KeyIff(w, k);
  }

  ghost predicate SameBut(m: map<Path, Chan>, n: map<Path, Chan>, f: Path) {
    forall g | g != f :: (g in m <==> g in n) && (g in m ==> m[g] == n[g])
  }

  /** A second request for a file gets the channels that are there, the first gets new ones. Other files keep theirs. */
  lemma AddKeepsChannels(t: TrackerState, w: WatchInfo, added: bool)
    ensures var f, t' := w.fname, AddStep(t, w, added);
            && f in t'.chans && f in t'.done && t'.closed == t.closed
            && (if f in t.chans then t'.chans[f] == t.chans[f] else t.next <= t'.chans[f] < t'.next)
            && (if f in t.done then t'.done[f] == t.done[f] else t.next <= t'.done[f] < t'.next)
            && (f !in t.chans && f !in t.done ==> t'.chans[f] != t'.done[f])
            && SameBut(t.chans, t'.chans, f) && SameBut(t.done, t'.done, f)
  {
    hide Key;
  }

  /** A refused one counts nowhere, but the channels of its file are there now. */
  lemma RefusedCountsNowhere(t: TrackerState, w: WatchInfo, k: Path)
    requires Watches(w, k) && WatchNum(t, k) == 0
    ensures var t' := AddStep(t, w, false);
            && t'.watchNums == t.watchNums && t'.subscribed == t.subscribed
            && w.fname in t'.chans && w.fname in t'.done
  {
    hide Dir;
    KeyIff(w, k);
  }

  /** A removal counts once for that path; the last one tells the watcher to end the subscription of that path. */
  lemma RemoveCounts(t: TrackerState, w: WatchInfo, k: Path)
    requires Watches(w, k)
    ensures var t' := RemoveStep(t, w);
            && WatchNum(t', k) == WatchNum(t, k) - 1
            && (forall q | q != k :: WatchNum(t', q) == WatchNum(t, q))
            && w.fname !in t'.chans
            && (w.fname in t.chans ==> t.chans[w.fname] in t'.closed)
            && (IsLast(t, w) <==> WatchNum(t, k) == 1)
            && t'.subscribed == t.subscribed
            && UnsubscribeStep(t', Key(w)).subscribed == t.subscribed - {k}
  {
    hide Dir;
    KeyIff(w, k);
  }

  class InotifyTracker {
    var chans: map<Path, Chan>
    var done: map<Path, Chan>
    var watchNums: map<Path, int>
    var subscribed: set<Path>
    var next: Chan
    var closed: set<Chan>

    ghost function State(): TrackerState
      reads this
    {
      TrackerState(chans, done, watchNums, subscribed, next, closed)
    }

    constructor ()
      ensures State() == TrackerState(map[], map[], map[], {}, 0, {})
    {
      chans, done, watchNums, subscribed, next, closed := map[], map[], map[], {}, 0, {};
    }

    method MakeChan() returns (ch: Chan)
      modifies this`next
      ensures ch == old(next) && next == old(next) + 1
    {
      ch := next;
      next := next + 1;
    }

    /** The locked part of remove. Closing a closed channel panics. */
    method Release(fname: Path)
      requires fname in done ==> done[fname] !in closed
      modifies this
      ensures State() == ReleaseStep(old(State()), fname)
    {
      if fname in done {
        var ch := done[fname];
        done := done - {fname};
        closed := closed + {ch};
      }
    }

    method AddWatch(winfo: WatchInfo, added: bool) returns (ok: bool)
      modifies this
      ensures State() == AddStep(old(State()), winfo, added)
      ensures ok == AddSucceeds(old(State()), winfo, added)
    {
      hide Dir;
      if winfo.fname !in chans {
        var ch := MakeChan();
        chans := chans[winfo.fname := ch];
      }
      if winfo.fname !in done {
        var ch := MakeChan();
        done := done[winfo.fname := ch];
      }
      assert State() == WithDone(WithChans(old(State()), winfo.fname), winfo.fname);
      hide WithDone, WithChans;
      var fname := winfo.fname;
      if winfo.create {
        fname := Dir(fname);
      }
      var num := if fname in watchNums then watchNums[fname] else 0;
      ok := true;
      if num == 0 {
        ok := added;
        if added {
          subscribed := subscribed + {fname};
        }
      }
      if ok {
        watchNums := watchNums[fname := num + 1];
      }
    }

    /** The locked part of removeWatch; `last` says the watcher has to be told. */
    method RemoveWatch(winfo: WatchInfo) returns (last: bool)
      requires winfo.fname in chans ==> chans[winfo.fname] !in closed
      modifies this
      ensures State() == RemoveStep(old(State()), winfo)
      ensures last == IsLast(old(State()), winfo)
    {
      if winfo.fname in chans {
        var ch := chans[winfo.fname];
        chans := chans - {winfo.fname};
        closed := closed + {ch};
      }
      var fname := winfo.fname;
      if winfo.create {
        fname := Dir(fname);
      }
      var num := if fname in watchNums then watchNums[fname] else 0;
      watchNums := watchNums[fname := num - 1];
      last := num - 1 == 0;
      if last {
        watchNums := watchNums - {fname};
        assert watchNums == old(watchNums) - {fname};
      }
    }

    method Unsubscribe(key: Path)
      modifies this
      ensures State() == UnsubscribeStep(old(State()), key)
    {
      subscribed := subscribed - {key};
    }

    /** The locked part of sendEvent. */
    method LookUp(name: Path) returns (ch: Option<Chan>, dn: Option<Chan>)
      ensures ch == Lookup(chans, name) && dn == Lookup(done, name)
    {
      ch, dn := None, None;
      if name in chans {
        ch := Some(chans[name]);
      }
      if name in done {
        dn := Some(done[name]);
      }
    }
  }
}
