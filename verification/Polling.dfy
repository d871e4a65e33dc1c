/**
 pkg/tail/watch/polling.go and filechanges.go: the poller that looks at the file's size and modification time, and
 the one-slot notification channels through which it wakes the following goroutine.
 */
module Polling {
  import opened Options

  /** What one stat of the file answers. */
  datatype FileInfo = FileInfo(size: nat, mtime: nat)

  /**
   running: ChangeEvents has been called; snapshot: the answer of a stat not yet looked at;
   modified, truncated: the one-slot channels hold a token.
   */
  datatype WatchState = WatchState(
    running: bool,
    prevSize: nat,
    prevMtime: Option<nat>,
    snapshot: Option<FileInfo>,
    modified: bool,
    truncated: bool)

  /** ChangeEvents: the poller starts from the caller's position and no modification time; it is started once. */
  function SubscribeStep(w: WatchState, pos: nat): WatchState {
    if w.running then w else WatchState(true, pos, None, None, false, false)
  }

  predicate CanStat(w: WatchState) { w.running && w.snapshot.None? }

  function StatStep(w: WatchState, info: FileInfo): WatchState { w.(snapshot := Some(info)) }

  predicate CanCompare(w: WatchState) { w.snapshot.Some? }

  /** The size decides when it was known and has changed, the modification time otherwise. */
  function CompareStep(w: WatchState): WatchState
    requires CanCompare(w)
  {
    var fi := w.snapshot.value;
    var w := w.(snapshot := None);
    if w.prevSize > 0 && w.prevSize > fi.size then
      w.(truncated := true, prevSize := fi.size)
    else if w.prevSize > 0 && w.prevSize < fi.size then
      w.(modified := true, prevSize := fi.size)
    else if w.prevMtime != Some(fi.mtime) then
      w.(modified := true, prevSize := fi.size, prevMtime := Some(fi.mtime))
    else
      w.(prevSize := fi.size)
  }

  /** A file that is as the poller remembers it causes no notification. */
  lemma SameFilePostsNothing(w: WatchState, info: FileInfo)
    requires w.prevSize == info.size && w.prevMtime == Some(info.mtime)
    ensures CompareStep(StatStep(w, info)) == w.(snapshot := None)
  {
  }

  /** A file that has shrunk is reported as truncated and not as modified; one that has grown the other way round. */
  lemma SizeIsReported(w: WatchState, info: FileInfo)
    requires w.prevSize > 0 && w.prevSize != info.size
    ensures var t := CompareStep(StatStep(w, info));
            && (info.size < w.prevSize ==> t.truncated && t.modified == w.modified)
            && (info.size > w.prevSize ==> t.modified && t.truncated == w.truncated)
            && t.prevSize == info.size && t.prevMtime == w.prevMtime
  {
  }

  /** A file that was empty is told by its modification time alone: growth at the same time is not reported. */
  lemma EmptyFileByTime(w: WatchState, info: FileInfo)
    requires w.prevSize == 0
    ensures CompareStep(StatStep(w, info))
         == w.(snapshot := None, prevSize := info.size, prevMtime := Some(info.mtime),
               modified := w.modified || w.prevMtime != Some(info.mtime))
  {
  }

  /** The second look at a file that has not changed in between finds it as it is remembered. */
  lemma TwoLooksRemember(w: WatchState, info: FileInfo)
    ensures var t := CompareStep(StatStep(CompareStep(StatStep(w, info)), info));
            t.prevSize == info.size && t.prevMtime == Some(info.mtime)
  {
  }

  predicate CanReceive(w: WatchState) { w.modified }

  function ReceiveStep(w: WatchState): WatchState { w.(modified := false) }

  /** A channel of capacity one; sendOnlyIfEmpty drops what does not fit. */
  class Slot {
    var full: bool

    constructor ()
      ensures !full
    {
      full := false;
    }

    method SendOnlyIfEmpty()
      modifies this
      ensures full
    {
      if !full {
        full := true;
      }
    }

    method Receive()
      requires full
      modifies this
      ensures !full
    {
      full := false;
    }
  }

  class FileChanges {
    const modified: Slot
    const truncated: Slot

    constructor ()
      ensures fresh(modified) && fresh(truncated) && modified != truncated
      ensures !modified.full && !truncated.full
    {
      modified := new Slot();
      truncated := new Slot();
    }
  }

  /** The polling goroutine started by one call of ChangeEvents. */
  class PollingFileWatcher {
    const changes: FileChanges
    var prevSize: nat
    var prevMtime: Option<nat>
    var snapshot: Option<FileInfo>

    ghost predicate Valid()
      reads this, changes.modified, changes.truncated
    {
      changes.modified != changes.truncated
    }

    ghost function State(): WatchState
      reads this, changes.modified, changes.truncated
    {
      WatchState(true, prevSize, prevMtime, snapshot, changes.modified.full, changes.truncated.full)
    }

    constructor ChangeEvents(pos: nat)
      ensures Valid() && fresh(changes) && fresh(changes.modified) && fresh(changes.truncated)
      ensures forall w: WatchState | !w.running :: State() == SubscribeStep(w, pos)
      ensures prevSize == pos && prevMtime == None && snapshot == None
      ensures !changes.modified.full && !changes.truncated.full
    {
      changes := new FileChanges();
      prevSize, prevMtime, snapshot := pos, None, None;
    }

    method Stat(info: FileInfo)
      requires Valid() && CanStat(State())
      modifies this
      ensures Valid() && State() == StatStep(old(State()), info)
    {
      snapshot := Some(info);
    }

    method Compare()
      requires Valid() && CanCompare(State())
      modifies this, changes.modified, changes.truncated
      ensures Valid() && State() == CompareStep(old(State()))
    {
      var fi := snapshot.value;
      snapshot := None;
      if prevSize > 0 && prevSize > fi.size {
        changes.truncated.SendOnlyIfEmpty();
        prevSize := fi.size;
        return;
      }
      if prevSize > 0 && prevSize < fi.size {
        changes.modified.SendOnlyIfEmpty();
        prevSize := fi.size;
        return;
      }
      prevSize := fi.size;
      if prevMtime != Some(fi.mtime) {
        prevMtime := Some(fi.mtime);
        changes.modified.SendOnlyIfEmpty();
      }
    }

    /** The waiting goroutine takes the token from Modified. */
    method Receive()
      requires Valid() && CanReceive(State())
      modifies changes.modified
      ensures Valid() && State() == ReceiveStep(old(State()))
    {
      changes.modified.Receive();
    }
  }
}
