/** When `stop(true)` runs every task that was pushed, and the one case in which it does not. */
module PoolStop {
  import opened Wrappers
  import opened PoolModel
  import opened PoolWakeup
  import opened PoolTasks

  // ---------- whose flag is set, and who has left ----------

  /** The flags that a shrinking `resize` under way may have set. */
  predicate BeingDetached(c: Control, i: int) {
    (c.Shrinking? && c.last < i) || (c.ShrinkNotify? && c.target <= i)
  }

  ghost predicate FlagsOk(ws: seq<Worker>, threads: seq<WorkerId>, c: Control, isStop: bool) {
    forall i :: 0 <= i < |threads| ==>
      threads[i] < |ws| && (ws[threads[i]].flag ==> isStop || BeingDetached(c, i))
  }

  /** A worker leaves only because its flag is set or the pool is done. */
  ghost predicate LeaversOk(ws: seq<Worker>, isDone: bool) {
    forall w :: 0 <= w < |ws| && (ws[w].stage == Leaving(None) || ws[w].stage.Exited?) ==> ws[w].flag || isDone
  }

  ghost predicate ExitsOk(s: State) {
    && FlagsOk(s.workers, s.threads, s.control, s.isStop) && LeaversOk(s.workers, s.isDone)
    && (s.control.StopFlags? ==> s.isStop)
  }

  lemma WorkKeepsExits(s: State, w: WorkerId)
    requires ExitsOk(s) && CanWork(s, w)
    ensures ExitsOk(WorkerStep(s, w))
  {
    var r := WorkerStep(s, w);
    assert FlagsOk(r.workers, r.threads, r.control, r.isStop);
    assert LeaversOk(r.workers, r.isDone);
  }

  lemma SetFlagKeepsExits(s: State, i: nat, control: Control)
    requires ThreadsOk(s) && ExitsOk(s) && i < |s.threads| && (control.StopFlags? ==> s.isStop)
    requires s.isStop ||
             (BeingDetached(control, i) && forall j :: BeingDetached(s.control, j) ==> BeingDetached(control, j))
    ensures ExitsOk(SetFlag(s, s.threads[i]).(control := control))
  {
    var r := SetFlag(s, s.threads[i]).(control := control);
    assert LeaversOk(r.workers, r.isDone);
    assert FlagsOk(r.workers, r.threads, r.control, r.isStop);
  }

  lemma CommandKeepsExits(s: State)
    requires Inv(s) && ExitsOk(s) && CanCommand(s)
    ensures ExitsOk(CommandStep(s))
  {
    var r := CommandStep(s);
    if s.control.Shrinking? && s.control.target <= s.control.last {
      SetFlagKeepsExits(s, s.control.last, r.control);
    } else if s.control.StopFlags? && s.control.next < |s.threads| {
      SetFlagKeepsExits(s, s.control.next, r.control);
    } else {
      assert LeaversOk(r.workers, r.isDone);
      assert FlagsOk(r.workers, r.threads, r.control, r.isStop);
    }
  }

  lemma StepKeepsExits(s: State, l: Label)
    requires Inv(s) && ExitsOk(s) && Enabled(s, l)
    ensures ExitsOk(Next(s, l))
  {
    match l
    case Work(w) => WorkKeepsExits(s, w);
    case Command => CommandKeepsExits(s);
    case _ =>
      var r := Next(s, l);
      assert LeaversOk(r.workers, r.isDone);
      assert FlagsOk(r.workers, r.threads, r.control, r.isStop);
  }

  lemma {:induction false} RunKeepsExits(s: State, ls: seq<Label>)
    requires Inv(s) && ExitsOk(s) && IsRun(s, ls)
    ensures Inv(After(s, ls)) && ExitsOk(After(s, ls))
    decreases |ls|
  {
    if ls == [] {
    } else {
      StepKeeps(s, ls[0]);
      StepKeepsExits(s, ls[0]);
      RunKeepsExits(Next(s, ls[0]), ls[1..]);
    }
  }

  // ---------- joining ----------

  ghost predicate Flagged(ws: seq<Worker>, threads: seq<WorkerId>, n: nat) {
    forall i :: 0 <= i < n && i < |threads| ==> threads[i] < |ws| && ws[threads[i]].flag
  }

  ghost predicate NoneSleeps(ws: seq<Worker>, threads: seq<WorkerId>) {
    forall i :: 0 <= i < |threads| && threads[i] < |ws| ==> !ws[threads[i]].stage.Sleeping?
  }

  /** Once a stop joins, it is a draining one that has notified, or all its threads are told to go and are awake. */
  ghost predicate JoinsOk(s: State) {
    match s.control
    case StopFlags(i) => Flagged(s.workers, s.threads, i)
    case StopClear => Flagged(s.workers, s.threads, |s.threads|)
    case StopNotify => s.isDone || Flagged(s.workers, s.threads, |s.threads|)
    case Joining(_) =>
      s.drainNotified || (Flagged(s.workers, s.threads, |s.threads|) && NoneSleeps(s.workers, s.threads))
    case _ => true
  }

  /** A worker with its flag set does not go to sleep, and no worker's flag is taken back. */
  lemma WorkKeepsJoins(s: State, w: WorkerId)
    requires JoinsOk(s) && CanWork(s, w)
    ensures JoinsOk(WorkerStep(s, w))
  {
    var r := WorkerStep(s, w);
    forall n: nat | Flagged(s.workers, s.threads, n) ensures Flagged(r.workers, r.threads, n) {}
    if Flagged(s.workers, s.threads, |s.threads|) && NoneSleeps(s.workers, s.threads) {
      assert NoneSleeps(r.workers, r.threads);
    }
  }

  lemma WakeKeepsJoins(s: State, r: State, w: WorkerId)
    requires JoinsOk(s) && Asleep(s, w) && r.workers == s.workers[w := s.workers[w].(stage := Woken)]
    requires r.threads == s.threads && r.control == s.control && r.isDone == s.isDone
    requires r.drainNotified == s.drainNotified
    ensures JoinsOk(r)
  {
    forall n: nat | Flagged(s.workers, s.threads, n) ensures Flagged(r.workers, r.threads, n) {}
    if NoneSleeps(s.workers, s.threads) { assert NoneSleeps(r.workers, r.threads); }
  }

  lemma FlagKeepsJoins(s: State, i: nat)
    requires ThreadsOk(s) && i < |s.threads| && Flagged(s.workers, s.threads, i)
    ensures Flagged(SetFlag(s, s.threads[i]).workers, s.threads, i + 1)
  {}

  lemma CommandKeepsJoins(s: State)
    requires Inv(s) && JoinsOk(s) && CanCommand(s)
    ensures JoinsOk(CommandStep(s))
  {
    match s.control
    case StopFlags(i) => if i < |s.threads| { FlagKeepsJoins(s, i); }
    case StopNotify =>
      if !s.isDone {
        assert Flagged(WakeAll(s.workers), s.threads, |s.threads|) && NoneSleeps(WakeAll(s.workers), s.threads);
      }
    case _ =>
  }

  lemma StepKeepsJoins(s: State, l: Label)
    requires Inv(s) && JoinsOk(s) && Enabled(s, l)
    ensures JoinsOk(Next(s, l))
  {
    match l
    case Work(w) => WorkKeepsJoins(s, w);
    case Spurious(w) => WakeKeepsJoins(s, Next(s, l), w);
    case Notify(c, target) => if target.Some? { WakeKeepsJoins(s, Next(s, l), target.value); }
    case Command => CommandKeepsJoins(s);
    case _ =>
  }

  lemma {:induction false} RunKeepsJoins(s: State, ls: seq<Label>)
    requires Inv(s) && JoinsOk(s) && IsRun(s, ls)
    ensures Inv(After(s, ls)) && JoinsOk(After(s, ls))
    decreases |ls|
  {
    if ls == [] {
    } else {
      StepKeeps(s, ls[0]);
      StepKeepsJoins(s, ls[0]);
      RunKeepsJoins(Next(s, ls[0]), ls[1..]);
    }
  }

  lemma JoinedIsAwake(s: State, i: nat)
    requires Inv(s) && JoinsOk(s) && s.control.Joining? && i < |s.threads|
    ensures !Asleep(s, s.threads[i])
  {}

  /**
   * Neither `resize` nor any `stop` ever hangs: the thread that executes it can go on, or a worker can move, or a
   * caller can notify. In particular no join waits for a worker that nobody will wake.
   */
  lemma ControllerNeverHangs(ls: seq<Label>)
    requires IsRun(INITIAL, ls) && After(INITIAL, ls).control != Idle
    ensures CanCommand(After(INITIAL, ls)) || Progress(After(INITIAL, ls))
  {
    var s := After(INITIAL, ls);
    RunKeepsJoins(INITIAL, ls);
    ControllerIsDefined(s);
    if s.control.Joining? && s.control.next < |s.threads| && s.workers[s.threads[s.control.next]].stage != Exited {
      JoinedIsAwake(s, s.control.next);
      AwakeMoves(s, s.threads[s.control.next]);
    } else if s.holder.Some? {
      assert CanWork(s, s.holder.value);
    }
  }

  // ---------- draining ----------

  /** A worker in any other stage has already looked at the queue for the last time. */
  predicate Potent(g: Stage) {
    !g.PopFailed? && g != Leaving(None) && !g.Exited?
  }

  ghost predicate SomeonePotent(ws: seq<Worker>, threads: seq<WorkerId>) {
    exists i :: 0 <= i < |threads| && threads[i] < |ws| && Potent(ws[threads[i]].stage)
  }

  ghost predicate Unflagged(ws: seq<Worker>, threads: seq<WorkerId>) {
    forall i :: 0 <= i < |threads| ==> threads[i] < |ws| && !ws[threads[i]].flag
  }

  ghost predicate Left(ws: seq<Worker>, threads: seq<WorkerId>, n: nat) {
    forall i :: 0 <= i < n && i < |threads| ==> threads[i] < |ws| && ws[threads[i]].stage.Exited?
  }

  /** `stop(true)` is under way for `threads`: tasks wait only while one of them will still look at the queue. */
  ghost predicate Draining(s: State, threads: seq<WorkerId>) {
    && s.isDone && Unflagged(s.workers, threads)
    && (s.q != [] ==> SomeonePotent(s.workers, threads))
    && match s.control
       case StopNotify => s.threads == threads
       case Joining(i) => s.threads == threads && Left(s.workers, threads, i)
       case FinalClear => s.threads == threads && Left(s.workers, threads, |threads|)
       case Idle => true
       case _ => false
  }

  /** What may happen during the stop: no push but by tasks that run on joined workers, no other stop. */
  ghost predicate Quiet(ls: seq<Label>, threads: seq<WorkerId>) {
    forall l <- ls :: !l.BeginStop? && (l.Enqueue? ==> l.c.Inside? && l.c.w in threads)
  }

  lemma PotentStays(x: Worker, q: seq<Task>, isDone: bool)
    requires Potent(x.stage) && !x.flag && q != []
    ensures Potent(NextStage(x, q, isDone))
  {}

  lemma WorkKeepsDraining(s: State, w: WorkerId, threads: seq<WorkerId>)
    requires Draining(s, threads) && CanWork(s, w)
    ensures Draining(WorkerStep(s, w), threads)
  {
    var r := WorkerStep(s, w);
    assert Unflagged(r.workers, threads);
    if r.q != [] {
      assert s.q != [];
      var i :| 0 <= i < |threads| && threads[i] < |s.workers| && Potent(s.workers[threads[i]].stage);
      PotentStays(s.workers[threads[i]], s.q, s.isDone);
      assert Potent(r.workers[threads[i]].stage);
    }
    forall i: nat | Left(s.workers, threads, i) ensures Left(r.workers, threads, i) {}
  }

  lemma WakeKeepsDraining(s: State, r: State, w: WorkerId, threads: seq<WorkerId>)
    requires Draining(s, threads) && Asleep(s, w)
    requires r.workers == s.workers[w := s.workers[w].(stage := Woken)]
    requires r.isDone == s.isDone && r.q == s.q && r.control == s.control && r.threads == s.threads
    ensures Draining(r, threads)
  {
    assert Unflagged(r.workers, threads);
    if r.q != [] {
      var i :| 0 <= i < |threads| && threads[i] < |s.workers| && Potent(s.workers[threads[i]].stage);
      assert Potent(r.workers[threads[i]].stage);
    }
    forall i: nat | Left(s.workers, threads, i) ensures Left(r.workers, threads, i) {}
  }

  lemma CommandKeepsDraining(s: State, threads: seq<WorkerId>)
    requires Draining(s, threads) && CanCommand(s)
    ensures Draining(CommandStep(s), threads)
  {
    var r := CommandStep(s);
    assert Unflagged(r.workers, threads);
    if r.q != [] {
      var i :| 0 <= i < |threads| && threads[i] < |s.workers| && Potent(s.workers[threads[i]].stage);
      assert Potent(r.workers[threads[i]].stage);
    }
    forall i: nat | Left(s.workers, threads, i) ensures Left(r.workers, threads, i) {}
  }

  lemma StepKeepsDraining(s: State, l: Label, threads: seq<WorkerId>)
    requires Draining(s, threads) && Enabled(s, l) && Quiet([l], threads)
    ensures Draining(Next(s, l), threads)
  {
    assert l in [l];
    match l
    case Work(w) => WorkKeepsDraining(s, w, threads);
    case Spurious(w) => WakeKeepsDraining(s, Next(s, l), w, threads);
    case Notify(c, target) => if target.Some? { WakeKeepsDraining(s, Next(s, l), target.value, threads); }
    case Enqueue(c) =>
      var i :| 0 <= i < |threads| && threads[i] == c.w;
      assert Potent(s.workers[threads[i]].stage);
    case Command => CommandKeepsDraining(s, threads);
    case _ =>
  }

  lemma {:induction false} RunKeepsDraining(s: State, ls: seq<Label>, threads: seq<WorkerId>)
    requires Draining(s, threads) && IsRun(s, ls) && Quiet(ls, threads)
    ensures Draining(After(s, ls), threads)
    decreases |ls|
  {
    if ls == [] {
    } else {
      StepKeepsDraining(s, ls[0], threads);
      RunKeepsDraining(Next(s, ls[0]), ls[1..], threads);
    }
  }

  /** The state in which `stop(true)` joins its last thread, after the quiet run `ls`. */
  ghost predicate Joins(s: State, ls: seq<Label>) {
    && IsRun(s, [BeginStop(true)] + ls) && Quiet(ls, s.threads)
    && After(s, [BeginStop(true)] + ls).control == FinalClear
  }

  /** Every way `stop(true)` can go from `s` leaves nothing for the final `clear_queue` to discard. */
  ghost predicate AlwaysDrains(s: State) {
    forall ls | Joins(s, ls) :: After(s, [BeginStop(true)] + ls).q == []
  }

  /** The queue is empty or some joined worker is not between its failed pop and its look at `isDone`. */
  ghost predicate SomeoneDrains(s: State) {
    s.q == [] || exists w <- s.threads :: w < |s.workers| && !s.workers[w].stage.PopFailed?
  }

  /** A call of `stop(true)` that does not return at once, with threads to join. */
  ghost predicate CanStop(s: State) {
    s.control == Idle && !s.isDone && !s.isStop && s.threads != []
  }

  lemma StopStarts(s: State)
    requires Inv(s) && ExitsOk(s) && CanStop(s) && SomeoneDrains(s)
    ensures Draining(Next(s, BeginStop(true)), s.threads)
  {
    var r := Next(s, BeginStop(true));
    assert Unflagged(r.workers, s.threads);
    if s.q != [] {
      var w :| w in s.threads && w < |s.workers| && !s.workers[w].stage.PopFailed?;
      var i :| 0 <= i < |s.threads| && s.threads[i] == w;
      assert Potent(r.workers[s.threads[i]].stage);
    }
  }

  lemma {:induction false} StopDrains(s: State, ls: seq<Label>)
    requires Inv(s) && ExitsOk(s) && CanStop(s) && SomeoneDrains(s) && Joins(s, ls)
    ensures After(s, [BeginStop(true)] + ls).q == []
    ensures Left(After(s, [BeginStop(true)] + ls).workers, s.threads, |s.threads|)
    ensures After(s, [BeginStop(true)] + ls).threads == s.threads
  {
    assert ([BeginStop(true)] + ls)[1..] == ls;
    StopStarts(s);
    RunKeepsDraining(Next(s, BeginStop(true)), ls, s.threads);
  }

  lemma RunFrom(s: State, l: Label, ls: seq<Label>)
    requires Enabled(s, l) && IsRun(Next(s, l), ls)
    ensures IsRun(s, [l] + ls) && After(s, [l] + ls) == After(Next(s, l), ls)
  {
    assert ([l] + ls)[1..] == ls;
  }

  /** Notifies everybody, joins the one thread, which has exited, and comes to the final `clear_queue`. */
  lemma JoinsOne(s: State)
    requires s.control == StopNotify && s.holder.None?
    requires |s.threads| == 1 && s.threads[0] < |s.workers| && s.workers[s.threads[0]].stage.Exited?
    ensures IsRun(s, [Command] + ([Command] + ([Command] + [])))
    ensures var r := After(s, [Command] + ([Command] + ([Command] + []))); r.control == FinalClear && r.q == s.q
  {
    var s1 := CommandStep(s);
    var s2 := CommandStep(s1);
    RunFrom(s2, Command, []);
    RunFrom(s1, Command, [Command] + []);
    RunFrom(s, Command, [Command] + ([Command] + []));
  }

  /** The worker that missed the task sees `isDone` and leaves. */
  lemma LeavesLate(s: State, w: WorkerId) returns (ls: seq<Label>)
    requires s.control == StopNotify && s.isDone && s.threads == [w] && w < |s.workers| && s.workers[w].stage.PopFailed?
    ensures IsRun(s, ls) && After(s, ls).control == FinalClear && After(s, ls).q == s.q
    ensures forall l <- ls :: l == Work(w) || l == Command
  {
    var s1 := WorkerStep(s, w);
    var join := [Command] + ([Command] + ([Command] + []));
    JoinsOne(WorkerStep(s1, w));
    RunFrom(s1, Work(w), join);
    RunFrom(s, Work(w), [Work(w)] + join);
    ls := [Work(w)] + ([Work(w)] + join);
  }

  /** Only one worker can be where nobody drains, since there it holds the pool's mutex. */
  lemma LateIsAlone(s: State)
    requires Inv(s) && s.threads != [] && !SomeoneDrains(s)
    ensures |s.threads| == 1 && s.workers[s.threads[0]].stage.PopFailed?
  {
    forall i | 0 <= i < |s.threads| ensures s.workers[s.threads[i]].stage.PopFailed? && s.holder == Some(s.threads[i]) {
      assert s.threads[i] in s.threads;
      assert Critical(s.workers[s.threads[i]].stage);
    }
    var last := |s.threads| - 1;
    assert s.threads[last] == s.threads[0];
  }

  /** If nobody drains, the stop can go on to discard what is queued. */
  lemma StopLoses(s: State) returns (ls: seq<Label>)
    requires Inv(s) && CanStop(s) && !SomeoneDrains(s)
    ensures Joins(s, ls) && After(s, [BeginStop(true)] + ls).q == s.q != []
  {
    LateIsAlone(s);
    ls := LeavesLate(Next(s, BeginStop(true)), s.threads[0]);
    RunFrom(s, BeginStop(true), ls);
  }

  /** A fresh worker finds nothing to do twice, and then a task is pushed. */
  lemma MissesTheTask(s: State) returns (ls: seq<Label>)
    requires s.q == [] && s.holder.None? && s.pending == {} && s.workers == [Worker(FirstPop, false)]
    ensures IsRun(s, ls)
    ensures var r := After(s, ls);
      && r.q == [s.nextTask] && r.workers == [Worker(PopFailed, false)] && r.threads == s.threads
      && r.control == s.control && r.isDone == s.isDone && r.isStop == s.isStop
  {
    var s1 := WorkerStep(s, 0);
    var s2 := WorkerStep(s1, 0);
    var s3 := WorkerStep(s2, 0);
    RunFrom(s3, Enqueue(Outside(0)), []);
    ls := [Enqueue(Outside(0))] + [];
    RunFrom(s2, Work(0), ls);
    ls := [Work(0)] + ls;
    RunFrom(s1, Work(0), ls);
    ls := [Work(0)] + ls;
    RunFrom(s, Work(0), ls);
    ls := [Work(0)] + ls;
  }

  /** One worker is started, and misses the task that is pushed. */
  lemma LosingStart() returns (ls: seq<Label>)
    ensures IsRun(INITIAL, ls)
    ensures var s := After(INITIAL, ls); CanStop(s) && !SomeoneDrains(s) && s.q == [0]
  {
    var s1 := Next(INITIAL, BeginResize(1));
    var s2 := CommandStep(s1);
    var s3 := CommandStep(s2);
    ls := MissesTheTask(s3);
    RunFrom(s2, Command, ls);
    ls := [Command] + ls;
    RunFrom(s1, Command, ls);
    ls := [Command] + ls;
    RunFrom(INITIAL, BeginResize(1), ls);
    ls := [BeginResize(1)] + ls;
  }

  /** A draining stop does lose a task: there is a run to a call of `stop(true)` that ends in discarding task 0. */
  lemma StopCanLose() returns (before: seq<Label>, ls: seq<Label>)
    ensures IsRun(INITIAL, before) && CanStop(After(INITIAL, before)) && Joins(After(INITIAL, before), ls)
    ensures var r := After(After(INITIAL, before), [BeginStop(true)] + ls); r.q == [0] && 0 in CommandStep(r).discarded
    ensures !AlwaysDrains(After(INITIAL, before))
  {
    before := LosingStart();
    RunKeepsExits(INITIAL, before);
    ls := StopLoses(After(INITIAL, before));
  }

  /**
   * `stop(true)` runs every queued task whatever the schedule, if and only if some joined worker is not just then
   * between the pop that failed and its look at `isDone`.
   */
  lemma DrainsExactlyIf(ls: seq<Label>)
    requires IsRun(INITIAL, ls) && CanStop(After(INITIAL, ls))
    ensures AlwaysDrains(After(INITIAL, ls)) <==> SomeoneDrains(After(INITIAL, ls))
  {
    var s := After(INITIAL, ls);
    RunKeepsExits(INITIAL, ls);
    if SomeoneDrains(s) {
      forall more | Joins(s, more) ensures After(s, [BeginStop(true)] + more).q == [] {
        StopDrains(s, more);
      }
    } else {
      var more := StopLoses(s);
      assert Joins(s, more);
    }
  }

  /** It does with two joined threads, or with no push between its enqueue and its notify. */
  lemma DrainsWithoutPushInFlight(ls: seq<Label>)
    requires IsRun(INITIAL, ls) && CanStop(After(INITIAL, ls))
    requires |After(INITIAL, ls).threads| > 1 || After(INITIAL, ls).pending == {}
    ensures AlwaysDrains(After(INITIAL, ls))
  {
    var s := After(INITIAL, ls);
    RunKeepsExits(INITIAL, ls);
    DrainsExactlyIf(ls);
    assert s.threads[0] in s.threads;
    if s.workers[s.threads[0]].stage.PopFailed? {
      if |s.threads| > 1 {
        assert s.threads[1] in s.threads;
        assert s.threads[0] != s.threads[1];
        assert !s.workers[s.threads[1]].stage.PopFailed?;
      } else {
        assert s.holder == Some(s.threads[0]);
        assert FoundEmpty(s);
      }
    }
  }

  /** A detached worker has the task in hand: `resize` let it go, and no stop joins it. */
  ghost predicate WithDetached(s: State, t: Task) {
    exists w :: 0 <= w < |s.workers| && w !in s.threads && Weight(s.workers[w], Has(t)) == 1
  }

  lemma LeftHaveNothing(ws: seq<Worker>, threads: seq<WorkerId>, w: WorkerId, t: Task)
    requires Left(ws, threads, |threads|) && w < |ws|
    ensures w in threads ==> Weight(ws[w], Has(t)) == 0
  {}

  /**
   * When `stop(true)` has joined its threads, every task ever pushed has been run and freed, unless a caller
   * popped or cleared it or a detached worker has it; and the final `clear_queue` finds nothing to discard.
   */
  lemma StopRunsEveryTask(before: seq<Label>, ls: seq<Label>, t: Task)
    requires IsRun(INITIAL, before) && CanStop(After(INITIAL, before)) && SomeoneDrains(After(INITIAL, before))
    requires Joins(After(INITIAL, before), ls)
    ensures var r := After(After(INITIAL, before), [BeginStop(true)] + ls);
      && r.q == []
      && (t < r.nextTask && !WithDetached(r, t) && t !in r.discarded && t !in r.handed ==>
            Count(r.done, t) == 1 && Count(r.started, t) == 1)
  {
    var s := After(INITIAL, before);
    var r := After(s, [BeginStop(true)] + ls);
    RunKeepsExits(INITIAL, before);
    StopDrains(s, ls);
    RunConserves(INITIAL, before, t);
    RunConserves(s, [BeginStop(true)] + ls, t);
    RanIsInHand(r.workers, t);
    if Total(r.workers, Has(t)) > 0 {
      var w := SomeWeight(r.workers, Has(t));
      LeftHaveNothing(r.workers, r.threads, w, t);
    }
  }
}
