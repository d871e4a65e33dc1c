/** What clients of the tracker can count on: events reach them, and their calls can end, exactly unless it is stuck. */
module TrackerProgress {
  import opened Options
  import opened Tracker
  import opened TrackerRuns

  /** The server answers the client it works for, or is freed from its send. */
  lemma ServerReturns(s: State) returns (t: State)
    requires Inv(s) && !Stuck(s)
    ensures Reaches(s, t) && t.server == Selecting
  {
    if s.server.Sending? {
      t := NotStuckCanBeFreed(s);
    } else {
      Stay(s);
      t := s;
      if t.server.Unsubscribing? {
        t := Step(s, t, Unsubscribe);
      }
      if t.server.AnsweringAdd? || t.server.AnsweringRemove? {
        t := Step(s, t, Answer(t.server.client));
      }
    }
  }

  lemma ReachedIsInv(s: State, t: State)
    requires Inv(s) && Reaches(s, t)
    ensures Inv(t)
  {
    var actions :| Run(s, actions) && After(s, actions) == t;
    RunKeeps(s, actions);
  }

  /** With an idle server, and past the lock of remove, a client gets its reply and ends its call. */
  lemma Removes(s0: State, s: State, c: ClientId) returns (t: State)
    requires Reaches(s0, s) && s.server == Selecting && At(s, c).PastLock?
    ensures Reaches(s0, t) && At(t, c) == Out
  {
    hide RemoveStep, UnsubscribeStep, Reaches, IsLast;
    t := Step(s0, s, AcceptRemove(c));
    if t.server.Unsubscribing? {
      t := Step(s0, t, Unsubscribe);
    }
    t := Step(s0, t, Answer(c));
  }

  /** With an idle server a client passes, step by step, through all of its call. */
  lemma Leaves(s0: State, s: State, c: ClientId) returns (t: State)
    requires Reaches(s0, s) && Inv(s) && s.server == Selecting
    ensures Reaches(s0, t) && At(t, c) == Out
  {
    t := s;
    assert !AwaitsReply(At(t, c));
    hide AddStep, ReleaseStep, Reaches, Inv, AddSucceeds;
    if At(t, c).Asking? {
      t := Step(s0, t, AcceptAdd(c, false));
      t := Step(s0, t, Answer(c));
    }
    if At(t, c).In? || At(t, c).Listening? {
      t := Step(s0, t, GiveUp(c));
    }
    if At(t, c).Leaving? {
      t := Step(s0, t, PassLock(c));
    }
    if At(t, c).PastLock? {
      t := Removes(s0, t, c);
    }
  }

  /** In every reachable state: a call that has begun can still end exactly if the server is not stuck. */
  lemma CallsCanEndIff(s: State, actions: seq<Action>, c: ClientId)
    requires Init(s) && Run(s, actions) && At(After(s, actions), c) != Out
    ensures var t := After(s, actions);
            (exists u :: Reaches(t, u) && At(u, c) == Out) <==> !Stuck(t)
  {
    InitInv(s);
    RunKeeps(s, actions);
    var t := After(s, actions);
    if Stuck(t) {
      forall u | Reaches(t, u) ensures At(u, c) != Out {
        var more :| Run(t, more) && After(t, more) == u;
        StaysInside(t, more, c);
      }
    } else {
      var idle := ServerReturns(t);
      ReachedIsInv(t, idle);
      var u := Leaves(t, idle, c);
    }
  }

  lemma {:induction false} StaysInside(s: State, actions: seq<Action>, c: ClientId)
    requires Inv(s) && Stuck(s) && Run(s, actions) && At(s, c) != Out
    ensures At(After(s, actions), c) != Out
    decreases |actions|
  {
    if actions != [] {
      StepKeeps(s, actions[0]);
      StuckStep(s, actions[0]);
      InsideStep(s, actions[0], c);
      StaysInside(Apply(s, actions[0]), actions[1..], c);
    }
  }

  lemma InsideStep(s: State, a: Action, c: ClientId)
    requires s.server.Sending? && Enabled(s, a) && At(s, c) != Out
    ensures At(Apply(s, a), c) != Out
  {
  }

  /** An event that the server is sending can be taken by any client that has just begun to watch its file. */
  lemma WatcherCanTakeIt(s: State, actions: seq<Action>, c: ClientId, enough: bool) returns (t: State)
    requires Init(s) && Run(s, actions)
    requires var u := After(s, actions); u.server.Sending? && At(u, c).In? && At(u, c).w.fname == u.server.fname
    ensures var u := After(s, actions);
            && Reaches(u, t) && t.server == Selecting && t.t == u.t
            && (if enough then At(t, c) == Leaving(At(u, c).w) else At(t, c) == Listening(At(u, c).w, Some(u.server.ch)))
  {
    InitInv(s);
    RunKeeps(s, actions);
    var u := After(s, actions);
    Stay(u);
    t := Step(u, u, FetchEvents(c));
    t := Step(u, t, Deliver(c, enough));
  }

  /** In every reachable state a client listens where its file's events are sent, or sees that its channel is closed. */
  lemma NobodyListensInVain(s: State, actions: seq<Action>, c: ClientId)
    requires Init(s) && Run(s, actions)
    requires At(After(s, actions), c).Listening? && At(After(s, actions), c).ch.Some?
    ensures var t := After(s, actions);
            var pc := At(t, c);
            && (Lookup(t.t.chans, pc.w.fname) == pc.ch || Enabled(t, SeeClosed(c)))
            && (t.server.Sending? && t.server.fname == pc.w.fname ==>
                  Enabled(t, Deliver(c, true)) || Enabled(t, SeeClosed(c)))
  {
    InitInv(s);
    RunKeeps(s, actions);
    assert ListensToOwn(After(s, actions).t, After(s, actions).clients[c]);
  }
}
