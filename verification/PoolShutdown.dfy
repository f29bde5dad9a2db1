/** What `stop` achieves, of either kind. */
module PoolShutdown {
  import opened PoolModel
  import opened PoolWakeup
  import opened PoolStop
  import opened PoolResize

  /** No task from before `mark` is queued. */
  predicate Cleared(q: seq<Task>, mark: Task) {
    forall i :: 0 <= i < |q| ==> mark <= q[i]
  }

  /** A `stop(wait)` of `threads` is under way or over; it began when `mark` tasks had been pushed. */
  ghost predicate Stopping(s: State, threads: seq<WorkerId>, wait: bool, mark: Task) {
    && mark <= s.nextTask && (if wait then s.isDone else s.isStop)
    && (s.control != Idle ==> s.threads == threads)
    && match s.control
       case StopFlags(i) => !wait && i <= |threads| && Flagged(s.workers, threads, i)
       case StopClear => !wait && Flagged(s.workers, threads, |threads|)
       case StopNotify => !wait ==> Flagged(s.workers, threads, |threads|) && Cleared(s.q, mark)
       case Joining(i) => Left(s.workers, threads, i) && (!wait ==> Cleared(s.q, mark))
       case FinalClear => Left(s.workers, threads, |threads|) && (!wait ==> Cleared(s.q, mark))
       case Idle => s.threads == [] && Left(s.workers, threads, |threads|) && Cleared(s.q, mark)
       case _ => false
  }

  /** No flag is taken back, whoever has left stays away, and the queue gets later tasks only. */
  ghost predicate Onward(s: State, r: State) {
    && |s.workers| <= |r.workers|
    && (forall v :: 0 <= v < |s.workers| ==>
          (s.workers[v].flag ==> r.workers[v].flag) && (s.workers[v].stage.Exited? ==> r.workers[v].stage.Exited?))
    && s.nextTask <= r.nextTask && (forall i :: 0 <= i < |r.q| ==> r.q[i] in s.q || s.nextTask <= r.q[i])
    && (s.isDone ==> r.isDone) && (s.isStop ==> r.isStop)
  }

  lemma OnwardKeeps(s: State, r: State, threads: seq<WorkerId>, wait: bool, mark: Task)
    requires Stopping(s, threads, wait, mark) && Onward(s, r)
    requires r.threads == s.threads && r.control == s.control
    ensures Stopping(r, threads, wait, mark)
  {
    forall n: nat | Flagged(s.workers, threads, n) ensures Flagged(r.workers, threads, n) {}
    forall n: nat | Left(s.workers, threads, n) ensures Left(r.workers, threads, n) {}
    if Cleared(s.q, mark) {
      forall i | 0 <= i < |r.q| ensures mark <= r.q[i] {
        if r.q[i] in s.q {
          var j :| 0 <= j < |s.q| && s.q[j] == r.q[i];
        }
      }
    }
  }

  lemma WorkGoesOnward(s: State, w: WorkerId)
    requires CanWork(s, w)
    ensures Onward(s, WorkerStep(s, w))
  {}

  lemma OtherGoesOnward(s: State, l: Label)
    requires Enabled(s, l) && !l.Command? && !l.Work?
    ensures Onward(s, Next(s, l))
  {}

  lemma FlaggingStops(s: State, threads: seq<WorkerId>, wait: bool, mark: Task)
    requires Inv(s) && Stopping(s, threads, wait, mark) && s.control.StopFlags?
    ensures Stopping(CommandStep(s), threads, wait, mark)
  {
    if s.control.next < |threads| { FlagKeepsJoins(s, s.control.next); }
  }

  lemma NotifyStops(s: State, threads: seq<WorkerId>, wait: bool, mark: Task)
    requires Stopping(s, threads, wait, mark) && s.control.StopNotify? && CanCommand(s)
    ensures Stopping(CommandStep(s), threads, wait, mark)
  {}

  lemma ClearingStops(s: State, threads: seq<WorkerId>, wait: bool, mark: Task)
    requires Stopping(s, threads, wait, mark) && (s.control.StopClear? || s.control.FinalClear?)
    ensures Stopping(CommandStep(s), threads, wait, mark)
  {}

  lemma JoiningStops(s: State, threads: seq<WorkerId>, wait: bool, mark: Task)
    requires Stopping(s, threads, wait, mark) && s.control.Joining? && CanCommand(s)
    ensures Stopping(CommandStep(s), threads, wait, mark)
  {}

  /** The steps of `stop` itself. */
  lemma CommandStops(s: State, threads: seq<WorkerId>, wait: bool, mark: Task)
    requires Inv(s) && Stopping(s, threads, wait, mark) && CanCommand(s)
    ensures Stopping(CommandStep(s), threads, wait, mark)
  {
    if s.control.StopFlags? {
      FlaggingStops(s, threads, wait, mark);
    } else if s.control.StopNotify? {
      NotifyStops(s, threads, wait, mark);
    } else if s.control.Joining? {
      JoiningStops(s, threads, wait, mark);
    } else {
      ClearingStops(s, threads, wait, mark);
    }
  }

  lemma StepStops(s: State, l: Label, threads: seq<WorkerId>, wait: bool, mark: Task)
    requires Inv(s) && Stopping(s, threads, wait, mark) && Enabled(s, l) && !l.BeginResize? && !l.BeginStop?
    ensures Stopping(Next(s, l), threads, wait, mark)
  {
    if l.Command? {
      CommandStops(s, threads, wait, mark);
    } else if l.Work? {
      WorkGoesOnward(s, l.w);
      OnwardKeeps(s, Next(s, l), threads, wait, mark);
    } else {
      OtherGoesOnward(s, l);
      OnwardKeeps(s, Next(s, l), threads, wait, mark);
    }
  }

  lemma {:induction false} RunStops(s: State, ls: seq<Label>, threads: seq<WorkerId>, wait: bool, mark: Task)
    requires Inv(s) && Stopping(s, threads, wait, mark) && IsRun(s, ls) && NoCommands(ls)
    ensures Stopping(After(s, ls), threads, wait, mark)
    decreases |ls|
  {
    if ls == [] {
    } else {
      assert ls[0] in ls && forall l <- ls[1..] :: l in ls;
      StepKeeps(s, ls[0]);
      StepStops(s, ls[0], threads, wait, mark);
      RunStops(Next(s, ls[0]), ls[1..], threads, wait, mark);
    }
  }

  /** A call of `stop(wait)` that does not return at once. */
  predicate Stops(s: State, wait: bool) {
    s.control == Idle && !s.isStop && (wait ==> !s.isDone)
  }

  lemma StopUnderWay(start: seq<Label>, wait: bool, ls: seq<Label>)
    requires IsRun(INITIAL, start) && Stops(After(INITIAL, start), wait)
    requires IsRun(After(INITIAL, start), [BeginStop(wait)] + ls) && NoCommands(ls)
    ensures var s := After(INITIAL, start);
      Stopping(After(s, [BeginStop(wait)] + ls), s.threads, wait, s.nextTask)
  {
    var s := After(INITIAL, start);
    Reachable(start);
    assert ([BeginStop(wait)] + ls)[1..] == ls;
    StepKeeps(s, BeginStop(wait));
    RunStops(Next(s, BeginStop(wait)), ls, s.threads, wait, s.nextTask);
  }

  /**
   * When a `stop` of either kind is over, whatever the workers and pushers did meanwhile: the pool has no threads,
   * every worker that it had has exited, no task from before the stop is queued, and the pool stays closed.
   */
  lemma StopAchieves(start: seq<Label>, wait: bool, ls: seq<Label>)
    requires IsRun(INITIAL, start) && Stops(After(INITIAL, start), wait)
    requires IsRun(After(INITIAL, start), [BeginStop(wait)] + ls) && NoCommands(ls)
    requires After(After(INITIAL, start), [BeginStop(wait)] + ls).control == Idle
    ensures var s := After(INITIAL, start);
            var r := After(s, [BeginStop(wait)] + ls);
      && r.threads == []
      && (forall i :: 0 <= i < |s.threads| ==>
            s.threads[i] < |r.workers| && r.workers[s.threads[i]].stage == Exited)
      && (forall t <- r.q :: s.nextTask <= t)
      && (if wait then r.isDone else r.isStop)
  {
    StopUnderWay(start, wait, ls);
  }

  /**
   * `stop(false)` clears first: at its `notify_all` no task from before it is queued any more, and every one of its
   * threads is told to go.
   */
  lemma StopClearsBeforeItNotifies(start: seq<Label>, ls: seq<Label>)
    requires IsRun(INITIAL, start) && Stops(After(INITIAL, start), false)
    requires IsRun(After(INITIAL, start), [BeginStop(false)] + ls) && NoCommands(ls)
    requires After(After(INITIAL, start), [BeginStop(false)] + ls).control == StopNotify
    ensures var s := After(INITIAL, start);
            var r := After(s, [BeginStop(false)] + ls);
      && (forall t <- r.q :: s.nextTask <= t)
      && (forall i :: 0 <= i < |s.threads| ==>
            s.threads[i] < |r.workers| && r.workers[s.threads[i]].flag)
  {
    StopUnderWay(start, false, ls);
  }

  /** A closed pool neither resizes nor stops again, except that a draining stop may be followed by a hard one. */
  lemma ClosedPoolStays(s: State, n: nat)
    requires s.control == Idle
    ensures s.isStop || s.isDone ==> Next(s, BeginResize(n)) == s && Next(s, BeginStop(true)) == s
    ensures s.isStop ==> Next(s, BeginStop(false)) == s
    ensures !s.isStop ==> Next(s, BeginStop(false)).isStop
  {}

  /** Nobody who may call the pool is kept waiting by it, and a pop finds something exactly if there is something. */
  lemma CallsAreOpen(s: State, c: Caller, n: nat, wait: bool)
    ensures c.Outside? && c !in s.pending ==> Enabled(s, Enqueue(c))
    ensures c.Inside? && c.w < |s.workers| && s.workers[c.w].stage.Running? && c !in s.pending ==>
      Enabled(s, Enqueue(c))
    ensures Enabled(s, PopOutside) <==> s.q != []
    ensures Enabled(s, ClearOne) <==> s.q != []
    ensures s.control == Idle ==> Enabled(s, BeginResize(n)) && Enabled(s, BeginStop(wait))
  {}
}
