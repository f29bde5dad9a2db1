/** The pool's mutex, its count of waiting workers, and why no wakeup is lost. */
module PoolWakeup {
  import opened Wrappers
  import opened PoolModel

  /** The stages in which a worker holds the pool's mutex. */
  predicate Critical(g: Stage) {
    g.Testing? || g.PopFailed? || g.SawNotDone? || g.Leaving?
  }

  /** What a worker can count for: a waiting worker, a woken one that has not tested again, a task it has in hand. */
  datatype Kind = Waiting | WokenUp | Has(task: Task) | Ran(task: Task)

  function Weight(x: Worker, k: Kind): nat {
    var g := x.stage;
    match k
    case Waiting => if Critical(g) || g.Sleeping? || g.Woken? then 1 else 0
    case WokenUp => if g.Woken? || g == Testing(true) then 1 else 0
    case Has(t) => if g in {Running(t), AfterRun(t), Repop(t), Leaving(Some(t))} then 1 else 0
    case Ran(t) => if g in {Running(t), AfterRun(t), Repop(t)} then 1 else 0
  }

  function Total(ws: seq<Worker>, k: Kind): nat {
    if ws == [] then 0 else Total(ws[..|ws| - 1], k) + Weight(ws[|ws| - 1], k)
  }

  lemma {:induction false} TotalAfter(ws: seq<Worker>, w: nat, x: Worker, k: Kind)
    requires w < |ws|
    ensures Total(ws[w := x], k) == Total(ws, k) - Weight(ws[w], k) + Weight(x, k)
    ensures Weight(ws[w], k) <= Total(ws, k)
  {
    var n := |ws| - 1;
    if w == n {
      assert ws[w := x][..n] == ws[..n];
    } else {
      assert ws[w := x][..n] == ws[..n][w := x];
      TotalAfter(ws[..n], w, x, k);
    }
  }

  lemma TotalMore(ws: seq<Worker>, x: Worker, k: Kind)
    ensures Total(ws + [x], k) == Total(ws, k) + Weight(x, k)
  {
    assert (ws + [x])[..|ws|] == ws;
  }

  lemma {:induction false} TotalWakeAll(ws: seq<Worker>, k: Kind)
    ensures Total(WakeAll(ws), k) >= Total(ws, k)
    ensures !k.WokenUp? ==> Total(WakeAll(ws), k) == Total(ws, k)
  {
    if ws == [] {
    } else {
      var n := |ws| - 1;
      assert WakeAll(ws)[..n] == WakeAll(ws[..n]);
      TotalWakeAll(ws[..n], k);
    }
  }

  // ---------- the invariant ----------

  /** Exactly the worker in a critical stage holds the mutex. */
  ghost predicate MutexOk(s: State) {
    && (s.holder.Some? ==> s.holder.value < |s.workers|)
    && forall w :: 0 <= w < |s.workers| ==> (Critical(s.workers[w].stage) <==> s.holder == Some(w))
  }

  ghost predicate JoinedOk(ws: seq<Worker>, threads: seq<WorkerId>) {
    && (forall i :: 0 <= i < |threads| ==> threads[i] < |ws|)
    && (forall i, j :: 0 <= i < j < |threads| ==> threads[i] != threads[j])
  }

  /** A task that is pushing is running. */
  ghost predicate CallersOk(ws: seq<Worker>, pending: set<Caller>) {
    forall c <- pending :: c.Inside? ==> c.w < |ws| && ws[c.w].stage.Running?
  }

  /** The controlling thread's index is within its `n` threads. */
  predicate PlaceOk(control: Control, n: nat) {
    match control
    case Shrinking(last, target) => target - 1 <= last < n
    case ShrinkNotify(target) => target <= n
    case StopFlags(i) => i <= n
    case Joining(i) => i <= n
    case _ => true
  }

  ghost predicate ThreadsOk(s: State) {
    JoinedOk(s.workers, s.threads) && CallersOk(s.workers, s.pending) && PlaceOk(s.control, |s.threads|)
  }

  /** `nWaiting` counts the workers inside the wait, asleep or not. */
  predicate WaitingOk(s: State) {
    s.nWaiting == Total(s.workers, Waiting)
  }

  ghost predicate SomeoneSleeps(s: State) {
    exists w :: Asleep(s, w)
  }

  /** A worker that found the queue empty and still holds the mutex. */
  predicate FoundEmpty(s: State) {
    s.holder.Some? && s.holder.value < |s.workers| &&
    (s.workers[s.holder.value].stage.PopFailed? || s.workers[s.holder.value].stage.SawNotDone?)
  }

  /** A worker sleeps only if each queued task has somebody who is still going to see to it. */
  ghost predicate WakeupsOk(s: State) {
    && (SomeoneSleeps(s) ==> |s.q| <= |s.pending| + Total(s.workers, WokenUp))
    && (FoundEmpty(s) ==> |s.q| <= |s.pending|)
  }

  /** After the `notify_all` of `stop(true)` nobody sleeps or is about to. */
  ghost predicate DrainOk(s: State) {
    s.drainNotified ==>
      s.isDone && forall w :: 0 <= w < |s.workers| ==> !s.workers[w].stage.Sleeping? && !s.workers[w].stage.SawNotDone?
  }

  ghost predicate Inv(s: State) {
    MutexOk(s) && ThreadsOk(s) && WaitingOk(s) && WakeupsOk(s) && DrainOk(s)
  }

  // ---------- one worker moves ----------

  /** `r` is `s` after worker `w` has gone to stage `g`, which changes no more than it may. */
  ghost predicate Moved(s: State, r: State, w: WorkerId, g: Stage) {
    && w < |s.workers| && r.workers == s.workers[w := Worker(g, s.workers[w].flag)]
    && r.threads == s.threads && r.pending == s.pending && r.control == s.control
    && r.isDone == s.isDone && r.isStop == s.isStop && r.drainNotified == s.drainNotified && r.nextTask == s.nextTask
    && r.holder == (if Critical(g) then Some(w) else if Critical(s.workers[w].stage) then None else s.holder)
    && (Critical(g) ==> Critical(s.workers[w].stage) || s.holder.None?)
    && r.nWaiting == s.nWaiting - Weight(s.workers[w], Waiting) + Weight(Worker(g, false), Waiting)
    && (Inside(w) in s.pending ==> !s.workers[w].stage.Running?)
  }

  lemma WorkMoves(s: State, w: WorkerId)
    requires MutexOk(s) && CanWork(s, w)
    ensures Moved(s, WorkerStep(s, w), w, WorkerStep(s, w).workers[w].stage)
  {}

  lemma PutTotals(s: State, r: State, w: WorkerId, g: Stage, k: Kind)
    requires Moved(s, r, w, g)
    ensures Total(r.workers, k) == Total(s.workers, k) - Weight(s.workers[w], k) + Weight(Worker(g, false), k)
    ensures Weight(s.workers[w], k) <= Total(s.workers, k)
  {
    TotalAfter(s.workers, w, Worker(g, s.workers[w].flag), k);
  }

  lemma MoveKeepsMutex(s: State, r: State, w: WorkerId, g: Stage)
    requires MutexOk(s) && Moved(s, r, w, g)
    ensures MutexOk(r)
  {}

  lemma MoveKeepsThreads(s: State, r: State, w: WorkerId, g: Stage)
    requires ThreadsOk(s) && Moved(s, r, w, g)
    ensures ThreadsOk(r)
  {
    forall c <- r.pending | c.Inside? ensures c.w < |r.workers| && r.workers[c.w].stage.Running? {
      assert c in s.pending;
    }
  }

  lemma MoveKeepsWaiting(s: State, r: State, w: WorkerId, g: Stage)
    requires WaitingOk(s) && Moved(s, r, w, g)
    ensures WaitingOk(r)
  {
    PutTotals(s, r, w, g, Waiting);
  }

  /** What a worker's step does to the queue, by the stages it goes between. */
  lemma WorkTakes(s: State, w: WorkerId)
    requires CanWork(s, w)
    ensures |WorkerStep(s, w).q| <= |s.q|
    ensures s.workers[w].stage == Testing(true) ==> |WorkerStep(s, w).q| < |s.q| || s.q == []
  {}

  /** Which way a worker goes to sleep, and where a woken one goes. */
  lemma WorkPath(s: State, w: WorkerId)
    requires CanWork(s, w)
    ensures var from, to := s.workers[w].stage, WorkerStep(s, w).workers[w].stage;
      && (to.PopFailed? ==> s.q == [])
      && (to.SawNotDone? ==> from.PopFailed? && !s.isDone)
      && (to.Sleeping? ==> from.SawNotDone?)
      && (from.Woken? ==> to == Testing(true))
  {}

  lemma SleepersAfter(s: State, r: State, w: WorkerId, g: Stage)
    requires Moved(s, r, w, g) && SomeoneSleeps(r)
    ensures g.Sleeping? || SomeoneSleeps(s)
  {
    var v :| Asleep(r, v);
    if v != w { assert Asleep(s, v); }
  }

  /** A step that takes at most one task, and one if it comes from a woken worker's test of a full queue. */
  lemma MoveKeepsWakeups(s: State, r: State, w: WorkerId, g: Stage)
    requires MutexOk(s) && WakeupsOk(s) && Moved(s, r, w, g)
    requires |r.q| <= |s.q|
    requires s.workers[w].stage == Testing(true) ==> |r.q| < |s.q| || r.q == []
    requires s.workers[w].stage.Woken? ==> g == Testing(true)
    requires g.PopFailed? ==> r.q == []
    requires g.SawNotDone? || g.Sleeping? ==> s.workers[w].stage.PopFailed? || s.workers[w].stage.SawNotDone?
    ensures WakeupsOk(r)
  {
    PutTotals(s, r, w, g, WokenUp);
    if g.SawNotDone? || g.Sleeping? { assert FoundEmpty(s); }
    if SomeoneSleeps(r) { SleepersAfter(s, r, w, g); }
    if FoundEmpty(r) && r.holder.value != w { assert FoundEmpty(s); }
  }

  lemma MoveKeepsDrain(s: State, r: State, w: WorkerId, g: Stage)
    requires DrainOk(s) && Moved(s, r, w, g)
    requires g.SawNotDone? ==> !s.isDone
    requires g.Sleeping? ==> s.workers[w].stage.SawNotDone?
    ensures DrainOk(r)
  {}

  lemma WorkKeeps(s: State, w: WorkerId)
    requires Inv(s) && CanWork(s, w)
    ensures Inv(WorkerStep(s, w))
  {
    var r, g := WorkerStep(s, w), WorkerStep(s, w).workers[w].stage;
    WorkMoves(s, w);
    WorkTakes(s, w);
    WorkPath(s, w);
    MoveKeepsMutex(s, r, w, g);
    MoveKeepsThreads(s, r, w, g);
    MoveKeepsWaiting(s, r, w, g);
    MoveKeepsWakeups(s, r, w, g);
    MoveKeepsDrain(s, r, w, g);
  }

  /** A sleeper is woken, by a caller that has enqueued a task or for no reason. */
  lemma WakeKeeps(s: State, w: WorkerId, c: set<Caller>)
    requires Inv(s) && Asleep(s, w) && |c| <= 1 && c <= s.pending
    requires c != {} ==> s.holder.None?
    ensures Inv(Put(s, w, Woken).(pending := s.pending - c))
  {
    var m, r := Put(s, w, Woken), Put(s, w, Woken).(pending := s.pending - c);
    MoveKeepsMutex(s, m, w, Woken);
    MoveKeepsThreads(s, m, w, Woken);
    MoveKeepsWaiting(s, m, w, Woken);
    MoveKeepsDrain(s, m, w, Woken);
    PutTotals(s, m, w, Woken, WokenUp);
    assert |s.pending - c| == |s.pending| - |c|;
    assert SomeoneSleeps(s);
    assert FoundEmpty(m) ==> FoundEmpty(s);
    forall d <- r.pending | d.Inside? ensures d.w < |r.workers| && r.workers[d.w].stage.Running? {
      assert d in m.pending;
    }
    assert MutexOk(r) && WaitingOk(r) && DrainOk(r);
  }

  // ---------- the other steps ----------

  /** Only the controlling thread's place, `isDone`, `isStop` or the far end of the queue changes. */
  lemma SameWorkersKeep(s: State, r: State)
    requires Inv(s) && PlaceOk(r.control, |r.threads|)
    requires r.workers == s.workers && r.holder == s.holder && r.nWaiting == s.nWaiting
    requires r.pending == s.pending && r.threads <= s.threads && |r.q| <= |s.q|
    requires r.drainNotified == s.drainNotified && (s.isDone ==> r.isDone)
    ensures Inv(r)
  {
    assert MutexOk(r) && ThreadsOk(r) && WaitingOk(r) && DrainOk(r);
    if SomeoneSleeps(r) {
      var w :| Asleep(r, w);
      assert Asleep(s, w);
    }
    assert FoundEmpty(r) ==> FoundEmpty(s);
  }

  lemma ControlKeeps(s: State, control: Control)
    requires Inv(s) && PlaceOk(control, |s.threads|)
    ensures Inv(s.(control := control))
  {
    SameWorkersKeep(s, s.(control := control));
  }

  lemma EnqueueKeeps(s: State, c: Caller)
    requires Inv(s) && Enabled(s, Enqueue(c))
    ensures Inv(Next(s, Enqueue(c)))
  {
    var r := Next(s, Enqueue(c));
    assert MutexOk(r) && ThreadsOk(r) && WaitingOk(r) && DrainOk(r);
    assert |r.pending| == |s.pending| + 1;
    if SomeoneSleeps(r) {
      var w :| Asleep(r, w);
      assert Asleep(s, w);
    }
    assert FoundEmpty(r) ==> FoundEmpty(s);
  }

  lemma NotifyKeeps(s: State, c: Caller, target: Option<WorkerId>)
    requires Inv(s) && Enabled(s, Notify(c, target))
    ensures Inv(Next(s, Notify(c, target)))
  {
    var r := Next(s, Notify(c, target));
    if target.Some? {
      WakeKeeps(s, target.value, {c});
    } else {
      assert !SomeoneSleeps(r) by {
        forall w ensures !Asleep(r, w) { assert !Asleep(s, w); }
      }
      assert ThreadsOk(r) && MutexOk(r) && WaitingOk(r) && DrainOk(r);
    }
  }

  lemma SpuriousKeeps(s: State, w: WorkerId)
    requires Inv(s) && Asleep(s, w)
    ensures Inv(Put(s, w, Woken))
  {
    WakeKeeps(s, w, {});
    assert s.pending - {} == s.pending;
  }

  lemma FlagKeepsWakeups(s: State, r: State, w: WorkerId)
    requires WaitingOk(s) && WakeupsOk(s) && w < |s.workers|
    requires r.workers == s.workers[w := s.workers[w].(flag := true)]
    requires r.nWaiting == s.nWaiting && r.q == s.q && r.pending == s.pending && r.holder == s.holder
    ensures WaitingOk(r) && WakeupsOk(r)
  {
    TotalAfter(s.workers, w, s.workers[w].(flag := true), Waiting);
    TotalAfter(s.workers, w, s.workers[w].(flag := true), WokenUp);
    if SomeoneSleeps(r) {
      var v :| Asleep(r, v);
      assert Asleep(s, v);
    }
    assert FoundEmpty(r) ==> FoundEmpty(s);
  }

  lemma FlagKeepsCallers(ws: seq<Worker>, pending: set<Caller>, w: WorkerId)
    requires CallersOk(ws, pending) && w < |ws|
    ensures CallersOk(ws[w := ws[w].(flag := true)], pending)
  {}

  lemma SetFlagKeeps(s: State, w: WorkerId, control: Control)
    requires Inv(s) && w < |s.workers| && PlaceOk(control, |s.threads|)
    ensures Inv(SetFlag(s, w).(control := control))
  {
    var r := SetFlag(s, w).(control := control);
    FlagKeepsWakeups(s, r, w);
    FlagKeepsCallers(s.workers, s.pending, w);
    assert JoinedOk(r.workers, r.threads) && MutexOk(r) && DrainOk(r);
  }

  /** `set_thread` and the vectors it goes with. */
  function Grown(s: State): State {
    s.(workers := s.workers + [Worker(FirstPop, false)], threads := s.threads + [|s.workers|])
  }

  lemma GrowKeepsThreads(s: State)
    requires ThreadsOk(s) && s.control.Growing?
    ensures ThreadsOk(Grown(s))
  {
    var r := Grown(s);
    assert JoinedOk(r.workers, r.threads);
    forall c <- r.pending | c.Inside? ensures c.w < |r.workers| && r.workers[c.w].stage.Running? {
      assert c in s.pending;
    }
  }

  lemma GrowKeepsMutex(s: State)
    requires MutexOk(s) && DrainOk(s)
    ensures MutexOk(Grown(s)) && DrainOk(Grown(s))
  {}

  lemma GrowKeepsWakeups(s: State)
    requires WaitingOk(s) && WakeupsOk(s)
    ensures WaitingOk(Grown(s)) && WakeupsOk(Grown(s))
  {
    var r := Grown(s);
    TotalMore(s.workers, Worker(FirstPop, false), Waiting);
    TotalMore(s.workers, Worker(FirstPop, false), WokenUp);
    if SomeoneSleeps(r) {
      var v :| Asleep(r, v);
      assert Asleep(s, v);
    }
    assert FoundEmpty(r) ==> FoundEmpty(s);
  }

  lemma GrowKeeps(s: State)
    requires Inv(s) && s.control.Growing?
    ensures Inv(Grown(s))
  {
    GrowKeepsThreads(s);
    GrowKeepsMutex(s);
    GrowKeepsWakeups(s);
  }

  lemma WakeAllKeepsCallers(ws: seq<Worker>, pending: set<Caller>)
    requires CallersOk(ws, pending)
    ensures CallersOk(WakeAll(ws), pending)
  {}

  /** `notify_all`, after which the controlling thread goes on to `control` with `threads`. */
  lemma WakeAllKeeps(s: State, threads: seq<WorkerId>, control: Control, drain: bool)
    requires Inv(s) && s.holder.None? && threads <= s.threads && (drain ==> s.isDone)
    requires PlaceOk(control, |threads|)
    ensures Inv(s.(workers := WakeAll(s.workers), threads := threads, control := control,
                   drainNotified := s.drainNotified || drain))
  {
    var r := s.(workers := WakeAll(s.workers), threads := threads, control := control,
                drainNotified := s.drainNotified || drain);
    TotalWakeAll(s.workers, Waiting);
    WakeAllKeepsCallers(s.workers, s.pending);
    assert JoinedOk(r.workers, r.threads) && MutexOk(r) && WaitingOk(r);
    assert !SomeoneSleeps(r) && DrainOk(r);
  }

  lemma GrowingKeeps(s: State)
    requires Inv(s) && s.control.Growing?
    ensures Inv(CommandStep(s))
  {
    if |s.threads| < s.control.target { GrowKeeps(s); } else { ControlKeeps(s, Idle); }
  }

  lemma ShrinkingKeeps(s: State)
    requires Inv(s) && s.control.Shrinking? && CanCommand(s)
    ensures Inv(CommandStep(s))
  {
    var i, n := s.control.last, s.control.target;
    if n <= i {
      SetFlagKeeps(s, s.threads[i], Shrinking(i - 1, n));
    } else {
      ControlKeeps(s, ShrinkNotify(n));
    }
  }

  lemma ShrinkNotifyKeeps(s: State)
    requires Inv(s) && s.control.ShrinkNotify? && CanCommand(s)
    ensures Inv(CommandStep(s))
  {
    WakeAllKeeps(s, s.threads[..s.control.target], Idle, false);
  }

  lemma StopFlagsKeeps(s: State)
    requires Inv(s) && s.control.StopFlags? && CanCommand(s)
    ensures Inv(CommandStep(s))
  {
    var i := s.control.next;
    if i < |s.threads| { SetFlagKeeps(s, s.threads[i], StopFlags(i + 1)); } else { ControlKeeps(s, StopClear); }
  }

  lemma StopNotifyKeeps(s: State)
    requires Inv(s) && s.control.StopNotify? && CanCommand(s)
    ensures Inv(CommandStep(s))
  {
    WakeAllKeeps(s, s.threads, Joining(0), s.isDone);
  }

  /** Clearing and joining change no worker. */
  lemma OtherCommandKeeps(s: State)
    requires Inv(s) && CanCommand(s) && (s.control.StopClear? || s.control.Joining? || s.control.FinalClear?)
    ensures Inv(CommandStep(s))
  {
    SameWorkersKeep(s, CommandStep(s));
  }

  lemma CommandKeeps(s: State)
    requires Inv(s) && CanCommand(s)
    ensures Inv(CommandStep(s))
  {
    match s.control
    case Growing(_) => GrowingKeeps(s);
    case Shrinking(_, _) => ShrinkingKeeps(s);
    case ShrinkNotify(_) => ShrinkNotifyKeeps(s);
    case StopFlags(_) => StopFlagsKeeps(s);
    case StopNotify => StopNotifyKeeps(s);
    case _ => OtherCommandKeeps(s);
  }

  /** Popping, clearing and the beginning of a command change no worker. */
  lemma OtherStepKeeps(s: State, l: Label)
    requires Inv(s) && Enabled(s, l) && (l.PopOutside? || l.ClearOne? || l.BeginResize? || l.BeginStop?)
    ensures Inv(Next(s, l))
  {
    SameWorkersKeep(s, Next(s, l));
  }

  lemma StepKeeps(s: State, l: Label)
    requires Inv(s) && Enabled(s, l)
    ensures Inv(Next(s, l))
  {
    match l
    case Work(w) => WorkKeeps(s, w);
    case Spurious(w) => SpuriousKeeps(s, w);
    case Enqueue(c) => EnqueueKeeps(s, c);
    case Notify(c, target) => NotifyKeeps(s, c, target);
    case Command => CommandKeeps(s);
    case _ => OtherStepKeeps(s, l);
  }

  lemma {:induction false} RunKeeps(s: State, ls: seq<Label>)
    requires Inv(s) && IsRun(s, ls)
    ensures Inv(After(s, ls))
    decreases |ls|
  {
    if ls == [] {
    } else {
      StepKeeps(s, ls[0]);
      RunKeeps(Next(s, ls[0]), ls[1..]);
    }
  }

  lemma Reachable(ls: seq<Label>)
    requires IsRun(INITIAL, ls)
    ensures Inv(After(INITIAL, ls))
  {
    RunKeeps(INITIAL, ls);
  }

  // ---------- what it means ----------

  /**
   * No wakeup is lost: while a worker sleeps un-notified, every queued task is matched by a caller still to
   * notify or by a woken worker still to test the queue. Once those have settled, a sleeper means an empty queue.
   */
  lemma NoLostWakeup(ls: seq<Label>)
    requires IsRun(INITIAL, ls)
    ensures var s := After(INITIAL, ls); SomeoneSleeps(s) ==>
      && |s.q| <= |s.pending| + Total(s.workers, WokenUp)
      && (s.pending == {} && Total(s.workers, WokenUp) == 0 ==> s.q == [])
  {
    Reachable(ls);
  }

  /** The pool's mutex excludes: no two workers are inside the wait's critical parts. */
  lemma OneWorkerInside(ls: seq<Label>, v: WorkerId, w: WorkerId)
    requires IsRun(INITIAL, ls)
    ensures var ws := After(INITIAL, ls).workers;
      v < |ws| && w < |ws| && Critical(ws[v].stage) && Critical(ws[w].stage) ==> v == w
  {
    Reachable(ls);
  }

  /** `nWaiting` is the number of workers in the wait, and so never negative. */
  lemma WaitingIsExact(ls: seq<Label>)
    requires IsRun(INITIAL, ls)
    ensures After(INITIAL, ls).nWaiting == Total(After(INITIAL, ls).workers, Waiting) >= 0
  {
    Reachable(ls);
  }

  /** The controlling thread waits only for the pool's mutex or for a thread it joins, and indexes no missing thread. */
  lemma ControllerIsDefined(s: State)
    requires Inv(s)
    ensures CanCommand(s) <==>
      && s.control != Idle
      && (s.control.ShrinkNotify? || s.control.StopNotify? ==> s.holder.None?)
      && (s.control.Joining? && s.control.next < |s.threads| ==> s.workers[s.threads[s.control.next]].stage == Exited)
  {}

  /** After the `notify_all` of `stop(true)` no worker is ever asleep un-notified. */
  lemma DrainingPoolNeverSleeps(ls: seq<Label>)
    requires IsRun(INITIAL, ls)
    ensures After(INITIAL, ls).drainNotified ==> !SomeoneSleeps(After(INITIAL, ls))
  {
    Reachable(ls);
  }

  /** Some worker can take a step, or a caller that has enqueued can notify. */
  ghost predicate Progress(s: State) {
    (exists w :: CanWork(s, w)) || exists c, target :: Enabled(s, Notify(c, target))
  }

  lemma {:induction false} SomeWeight(ws: seq<Worker>, k: Kind) returns (w: WorkerId)
    requires Total(ws, k) > 0
    ensures w < |ws| && Weight(ws[w], k) == 1
  {
    w := |ws| - 1;
    if Weight(ws[w], k) == 0 { w := SomeWeight(ws[..w], k); }
  }

  lemma CallerNotifies(s: State, c: Caller)
    requires c in s.pending && s.holder.None?
    ensures Progress(s)
  {
    if w :| Asleep(s, w) {
      assert Enabled(s, Notify(c, Some(w)));
    } else {
      assert Enabled(s, Notify(c, None));
    }
  }

  /** A worker that is neither asleep nor gone can move, or waits for somebody who can. */
  lemma AwakeMoves(s: State, w: WorkerId)
    requires Inv(s) && w < |s.workers| && s.workers[w].stage != Exited && !Asleep(s, w)
    ensures Progress(s)
  {
    if s.holder.Some? {
      assert CanWork(s, s.holder.value);
    } else if s.pending != {} {
      var c :| c in s.pending;
      CallerNotifies(s, c);
    } else {
      assert CanWork(s, w);
    }
  }

  /** No task is stuck: while tasks wait and a worker has not exited, some worker can move or be woken. */
  lemma NeverStuck(ls: seq<Label>, w: WorkerId)
    requires IsRun(INITIAL, ls)
    requires var s := After(INITIAL, ls); s.q != [] && w < |s.workers| && s.workers[w].stage != Exited
    ensures Progress(After(INITIAL, ls))
  {
    var s := After(INITIAL, ls);
    Reachable(ls);
    if !Asleep(s, w) {
      AwakeMoves(s, w);
    } else if s.holder.Some? {
      assert CanWork(s, s.holder.value);
    } else if s.pending != {} {
      var c :| c in s.pending;
      CallerNotifies(s, c);
    } else {
      var v := SomeWeight(s.workers, WokenUp);
      assert CanWork(s, v);
    }
  }

  /** A draining pool does not hang: after the `notify_all` of `stop(true)` every worker left can get on. */
  lemma DrainNeverHangs(ls: seq<Label>, w: WorkerId)
    requires IsRun(INITIAL, ls)
    requires var s := After(INITIAL, ls); s.drainNotified && w < |s.workers| && s.workers[w].stage != Exited
    ensures Progress(After(INITIAL, ls))
  {
    Reachable(ls);
    AwakeMoves(After(INITIAL, ls), w);
  }
}
