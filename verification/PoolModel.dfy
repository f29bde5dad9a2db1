/**
 * The thread pool as a state machine. One step is one access that another thread can see: a critical
 * section of the queue's mutex, one read of a flag, taking or giving back the pool's mutex, one wakeup.
 */
module PoolModel {
  import opened Wrappers

  /** Tasks are numbered in the order in which they are pushed. */
  type Task = nat
  type WorkerId = nat

  /** Where a worker thread is. From `Testing` to `Leaving` it holds the pool's mutex, except asleep or woken. */
  datatype Stage =
    | FirstPop
    | Running(task: Task)
    | AfterRun(task: Task)
    | Repop(task: Task)
    | WantLock
    | Testing(woken: bool)
    | PopFailed
    | SawNotDone
    | Sleeping
    | Woken
    | Leaving(next: Option<Task>)
    | Exited

  datatype Worker = Worker(stage: Stage, flag: bool)

  /** Who is pushing: a thread outside the pool, or the task a worker is running. */
  datatype Caller = Outside(n: nat) | Inside(w: WorkerId)

  /** What the thread that resizes and stops the pool is doing. */
  datatype Control =
    | Idle
    | Growing(target: nat)
    | Shrinking(last: int, target: nat)
    | ShrinkNotify(target: nat)
    | StopFlags(next: nat)
    | StopClear
    | StopNotify
    | Joining(next: nat)
    | FinalClear

  /**
   * `pending` are the callers that have enqueued a task and not yet notified. Histories: `started` the
   * calls of tasks, `done`, `discarded` and `handed` the tasks freed after their run, freed without a
   * run, and popped by a caller; `drainNotified` whether `stop(true)` has notified everybody.
   */
  datatype State = State(
    q: seq<Task>,
    isDone: bool,
    isStop: bool,
    nWaiting: int,
    holder: Option<WorkerId>,
    workers: seq<Worker>,
    threads: seq<WorkerId>,
    pending: set<Caller>,
    control: Control,
    nextTask: Task,
    started: seq<Task>,
    done: seq<Task>,
    discarded: seq<Task>,
    handed: seq<Task>,
    drainNotified: bool)

  const INITIAL := State([], false, false, 0, None, [], [], {}, Idle, 0, [], [], [], [], false)

  datatype Label =
    | Work(w: WorkerId)
    | Spurious(w: WorkerId)
    | Enqueue(c: Caller)
    | Notify(c: Caller, target: Option<WorkerId>)
    | PopOutside
    | ClearOne
    | BeginResize(n: nat)
    | BeginStop(wait: bool)
    | Command

  // ---------- workers ----------

  function Put(s: State, w: WorkerId, stage: Stage): State
    requires w < |s.workers|
  {
    s.(workers := s.workers[w := s.workers[w].(stage := stage)])
  }

  function TakeFirst(s: State): State
    requires s.q != []
  {
    s.(q := s.q[1..])
  }

  predicate CanWork(s: State, w: WorkerId) {
    w < |s.workers| &&
    match s.workers[w].stage
    case Running(_) => Inside(w) !in s.pending
    case WantLock => s.holder.None?
    case Woken => s.holder.None?
    case Sleeping => false
    case Exited => false
    case _ => true
  }

  /** Where a worker goes next. */
  function NextStage(x: Worker, q: seq<Task>, isDone: bool): Stage {
    match x.stage
    case FirstPop => if q == [] then WantLock else Running(q[0])
    case Running(t) => AfterRun(t)
    case AfterRun(t) => if x.flag then Exited else Repop(t)
    case Repop(_) => if q == [] then WantLock else Running(q[0])
    case WantLock => Testing(false)
    case Testing(_) => if q == [] then PopFailed else Leaving(Some(q[0]))
    case PopFailed => if isDone then Leaving(None) else SawNotDone
    case SawNotDone => if x.flag then Leaving(None) else Sleeping
    case Sleeping => Sleeping
    case Woken => Testing(true)
    case Leaving(next) => if next.None? then Exited else Running(next.value)
    case Exited => Exited
  }

  predicate Pops(g: Stage) {
    g.FirstPop? || g.Repop? || g.Testing?
  }

  /** Deletes the functor of the task it has run. */
  predicate Frees(g: Stage, to: Stage) {
    g.Repop? || (g.AfterRun? && to.Exited?)
  }

  /** Who holds the pool's mutex after worker `w` has gone from `g` to `to`. */
  function HolderAfter(g: Stage, to: Stage, holder: Option<WorkerId>, w: WorkerId): Option<WorkerId> {
    if g.WantLock? || g.Woken? then Some(w)
    else if to.Sleeping? || g.Leaving? then None
    else holder
  }

  /** `++nWaiting` is before the wait, `--nWaiting` after it. */
  function WaitingChange(g: Stage): int {
    if g.WantLock? then 1 else if g.Leaving? then -1 else 0
  }

  function WorkerStep(s: State, w: WorkerId): State
    requires CanWork(s, w)
  {
    var x := s.workers[w];
    var g, to := x.stage, NextStage(x, s.q, s.isDone);
    s.(workers := s.workers[w := Worker(to, x.flag)],
       q := if Pops(g) && s.q != [] then s.q[1..] else s.q,
       holder := HolderAfter(g, to, s.holder, w),
       nWaiting := s.nWaiting + WaitingChange(g),
       started := if to.Running? then s.started + [to.task] else s.started,
       done := if Frees(g, to) then s.done + [g.task] else s.done)
  }

  predicate Asleep(s: State, w: WorkerId) {
    w < |s.workers| && s.workers[w].stage == Sleeping
  }

  /** `notify_all`. */
  function WakeAll(ws: seq<Worker>): (r: seq<Worker>)
    ensures |r| == |ws|
    ensures forall i :: 0 <= i < |ws| ==> r[i] == if ws[i].stage.Sleeping? then ws[i].(stage := Woken) else ws[i]
  {
    seq(|ws|, i requires 0 <= i < |ws| => if ws[i].stage.Sleeping? then ws[i].(stage := Woken) else ws[i])
  }

  // ---------- the controlling thread ----------

  function Discard(s: State): State
    requires s.q != []
  {
    TakeFirst(s).(discarded := s.discarded + [s.q[0]])
  }

  function SetFlag(s: State, w: WorkerId): State
    requires w < |s.workers|
  {
    s.(workers := s.workers[w := s.workers[w].(flag := true)])
  }

  predicate CanCommand(s: State) {
    match s.control
    case Idle => false
    case Shrinking(i, n) => n <= i ==> i < |s.threads| && s.threads[i] < |s.workers|
    case ShrinkNotify(n) => s.holder.None? && n <= |s.threads|
    case StopFlags(i) => i < |s.threads| ==> s.threads[i] < |s.workers|
    case StopNotify => s.holder.None?
    case Joining(i) => i < |s.threads| ==> s.threads[i] < |s.workers| && s.workers[s.threads[i]].stage == Exited
    case _ => true
  }

  function CommandStep(s: State): State
    requires CanCommand(s)
  {
    match s.control
    case Growing(n) =>
      if |s.threads| < n then
        s.(workers := s.workers + [Worker(FirstPop, false)], threads := s.threads + [|s.workers|])
      else s.(control := Idle)
    case Shrinking(i, n) =>
      if n <= i then SetFlag(s, s.threads[i]).(control := Shrinking(i - 1, n)) else s.(control := ShrinkNotify(n))
    case ShrinkNotify(n) => s.(workers := WakeAll(s.workers), threads := s.threads[..n], control := Idle)
    case StopFlags(i) =>
      if i < |s.threads| then SetFlag(s, s.threads[i]).(control := StopFlags(i + 1)) else s.(control := StopClear)
    case StopClear => if s.q != [] then Discard(s) else s.(control := StopNotify)
    case StopNotify =>
      s.(workers := WakeAll(s.workers), control := Joining(0), drainNotified := s.drainNotified || s.isDone)
    case Joining(i) => if i < |s.threads| then s.(control := Joining(i + 1)) else s.(control := FinalClear)
    case FinalClear => if s.q != [] then Discard(s) else s.(threads := [], control := Idle)
    case Idle => s
  }

  // ---------- steps ----------

  ghost predicate Enabled(s: State, l: Label) {
    match l
    case Work(w) => CanWork(s, w)
    case Spurious(w) => Asleep(s, w)
    case Enqueue(c) => c !in s.pending && (c.Inside? ==> c.w < |s.workers| && s.workers[c.w].stage.Running?)
    case Notify(c, target) =>
      c in s.pending && s.holder.None? &&
      if target.Some? then Asleep(s, target.value) else forall w :: !Asleep(s, w)
    case PopOutside => s.q != []
    case ClearOne => s.q != []
    case BeginResize(n) => s.control == Idle
    case BeginStop(_) => s.control == Idle
    case Command => CanCommand(s)
  }

  ghost function Next(s: State, l: Label): State
    requires Enabled(s, l)
  {
    match l
    case Work(w) => WorkerStep(s, w)
    case Spurious(w) => Put(s, w, Woken)
    case Enqueue(c) => s.(q := s.q + [s.nextTask], nextTask := s.nextTask + 1, pending := s.pending + {c})
    case Notify(c, target) =>
      var told := s.(pending := s.pending - {c});
      if target.Some? then Put(told, target.value, Woken) else told
    case PopOutside => TakeFirst(s).(handed := s.handed + [s.q[0]])
    case ClearOne => Discard(s)
    case BeginResize(n) =>
      if s.isStop || s.isDone then s
      else s.(control := if |s.threads| <= n then Growing(n) else Shrinking(|s.threads| - 1, n))
    case BeginStop(wait) =>
      if wait then (if s.isDone || s.isStop then s else s.(isDone := true, control := StopNotify))
      else if s.isStop then s
      else s.(isStop := true, control := StopFlags(0))
    case Command => CommandStep(s)
  }

  ghost predicate IsRun(s: State, ls: seq<Label>)
    decreases |ls|
  {
    ls == [] || (Enabled(s, ls[0]) && IsRun(Next(s, ls[0]), ls[1..]))
  }

  ghost function After(s: State, ls: seq<Label>): State
    requires IsRun(s, ls)
    decreases |ls|
  {
    if ls == [] then s else After(Next(s, ls[0]), ls[1..])
  }
}
