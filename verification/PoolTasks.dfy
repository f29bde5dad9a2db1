/** What becomes of a task, over every interleaving. */
module PoolTasks {
  import opened PoolModel
  import opened PoolWakeup

  function Count(q: seq<Task>, t: Task): nat {
    multiset(q)[t]
  }

  lemma CountFirst(q: seq<Task>, t: Task)
    requires q != []
    ensures Count(q, t) == Count(q[1..], t) + if q[0] == t then 1 else 0
  {
    assert q == [q[0]] + q[1..];
  }

  /** A pushed task is in exactly one place: queued, in a worker's hand, run and freed, discarded or handed out. */
  predicate Conserved(s: State, t: Task) {
    && Count(s.q, t) + Total(s.workers, Has(t)) + Count(s.done, t) + Count(s.discarded, t) + Count(s.handed, t)
       == (if t < s.nextTask then 1 else 0)
    && Count(s.started, t) == Total(s.workers, Ran(t)) + Count(s.done, t)
  }

  /** The queue holds the tasks pushed last, in the order of their pushes. */
  predicate InOrder(q: seq<Task>, next: Task) {
    |q| <= next && forall i :: 0 <= i < |q| ==> q[i] == next - |q| + i
  }

  /** A task comes into a worker's hand as it is popped and leaves it as it is freed. */
  lemma HandBalances(x: Worker, q: seq<Task>, isDone: bool, t: Task)
    ensures var to := NextStage(x, q, isDone);
      && Weight(x, Has(t)) + (if Pops(x.stage) && q != [] && q[0] == t then 1 else 0)
         == Weight(Worker(to, x.flag), Has(t)) + (if Frees(x.stage, to) && x.stage.task == t then 1 else 0)
      && Weight(x, Ran(t)) + (if to.Running? && to.task == t then 1 else 0)
         == Weight(Worker(to, x.flag), Ran(t)) + (if Frees(x.stage, to) && x.stage.task == t then 1 else 0)
  {}

  lemma HandsAfter(ws: seq<Worker>, w: WorkerId, q: seq<Task>, isDone: bool, t: Task)
    requires w < |ws|
    ensures var x, to := ws[w], NextStage(ws[w], q, isDone);
      && Total(ws[w := Worker(to, x.flag)], Has(t)) == Total(ws, Has(t))
         + (if Pops(x.stage) && q != [] && q[0] == t then 1 else 0)
         - (if Frees(x.stage, to) && x.stage.task == t then 1 else 0)
      && Total(ws[w := Worker(to, x.flag)], Ran(t)) == Total(ws, Ran(t))
         + (if to.Running? && to.task == t then 1 else 0)
         - (if Frees(x.stage, to) && x.stage.task == t then 1 else 0)
  {
    var x := Worker(NextStage(ws[w], q, isDone), ws[w].flag);
    HandBalances(ws[w], q, isDone, t);
    TotalAfter(ws, w, x, Has(t));
    TotalAfter(ws, w, x, Ran(t));
  }

  lemma WorkConserves(s: State, w: WorkerId, t: Task)
    requires CanWork(s, w) && Conserved(s, t)
    ensures Conserved(WorkerStep(s, w), t)
  {
    var r, x, to := WorkerStep(s, w), s.workers[w], NextStage(s.workers[w], s.q, s.isDone);
    HandsAfter(s.workers, w, s.q, s.isDone, t);
    if s.q != [] { CountFirst(s.q, t); }
    assert Count(r.q, t) == Count(s.q, t) - if Pops(x.stage) && s.q != [] && s.q[0] == t then 1 else 0;
    assert Count(r.done, t) == Count(s.done, t) + if Frees(x.stage, to) && x.stage.task == t then 1 else 0;
    assert Count(r.started, t) == Count(s.started, t) + if to.Running? && to.task == t then 1 else 0;
  }

  lemma PutConserves(s: State, w: WorkerId, x: Worker, t: Task)
    requires w < |s.workers| && Conserved(s, t)
    requires Weight(x, Has(t)) == Weight(s.workers[w], Has(t)) && Weight(x, Ran(t)) == Weight(s.workers[w], Ran(t))
    ensures Conserved(s.(workers := s.workers[w := x]), t)
  {
    TotalAfter(s.workers, w, x, Has(t));
    TotalAfter(s.workers, w, x, Ran(t));
  }

  lemma DiscardConserves(s: State, t: Task)
    requires s.q != [] && Conserved(s, t)
    ensures Conserved(Discard(s), t)
  {
    CountFirst(s.q, t);
  }

  lemma WakeAllConserves(s: State, t: Task)
    requires Conserved(s, t)
    ensures Conserved(s.(workers := WakeAll(s.workers)), t)
  {
    TotalWakeAll(s.workers, Has(t));
    TotalWakeAll(s.workers, Ran(t));
  }

  lemma SetFlagConserves(s: State, w: WorkerId, t: Task)
    requires w < |s.workers| && Conserved(s, t)
    ensures Conserved(SetFlag(s, w), t)
  {
    PutConserves(s, w, s.workers[w].(flag := true), t);
  }

  function Hired(s: State): State {
    s.(workers := s.workers + [Worker(FirstPop, false)])
  }

  lemma HiringConserves(s: State, t: Task)
    requires Conserved(s, t)
    ensures Conserved(Hired(s), t)
  {
    TotalMore(s.workers, Worker(FirstPop, false), Has(t));
    TotalMore(s.workers, Worker(FirstPop, false), Ran(t));
  }

  /** `r` is `s` as far as tasks are concerned. */
  predicate SameTasks(s: State, r: State) {
    r.q == s.q && r.workers == s.workers && r.done == s.done && r.discarded == s.discarded && r.handed == s.handed &&
    r.started == s.started && r.nextTask == s.nextTask
  }

  /** What a command may do to tasks: nothing, start a worker, flag or wake workers, or discard one task. */
  ghost predicate Touches(s: State, r: State) {
    || SameTasks(s, r)
    || SameTasks(Hired(s), r)
    || (exists w :: 0 <= w < |s.workers| && SameTasks(SetFlag(s, w), r))
    || SameTasks(s.(workers := WakeAll(s.workers)), r)
    || (s.q != [] && SameTasks(Discard(s), r))
  }

  lemma FlaggingTouches(s: State)
    requires CanCommand(s) && (s.control.Shrinking? || s.control.StopFlags?)
    ensures Touches(s, CommandStep(s))
  {
    match s.control
    case Shrinking(i, n) => if n <= i { assert SameTasks(SetFlag(s, s.threads[i]), CommandStep(s)); }
    case StopFlags(i) => if i < |s.threads| { assert SameTasks(SetFlag(s, s.threads[i]), CommandStep(s)); }
  }

  /** Resizing and stopping touch tasks only by discarding them from the queue. */
  lemma CommandTouches(s: State)
    requires CanCommand(s)
    ensures Touches(s, CommandStep(s))
  {
    if s.control.Shrinking? || s.control.StopFlags? {
      FlaggingTouches(s);
    } else {
      var r := CommandStep(s);
      assert SameTasks(s, r) || SameTasks(Hired(s), r) || SameTasks(s.(workers := WakeAll(s.workers)), r) ||
             (s.q != [] && SameTasks(Discard(s), r));
    }
  }

  lemma SameConserves(s: State, r: State, t: Task)
    requires SameTasks(s, r) && Conserved(s, t)
    ensures Conserved(r, t)
  {}

  lemma TouchConserves(s: State, r: State, t: Task)
    requires Touches(s, r) && Conserved(s, t)
    ensures Conserved(r, t)
  {
    var woken := s.(workers := WakeAll(s.workers));
    if SameTasks(s, r) {
      SameConserves(s, r, t);
    } else if SameTasks(Hired(s), r) {
      HiringConserves(s, t);
      SameConserves(Hired(s), r, t);
    } else if w :| 0 <= w < |s.workers| && SameTasks(SetFlag(s, w), r) {
      SetFlagConserves(s, w, t);
      SameConserves(SetFlag(s, w), r, t);
    } else if SameTasks(woken, r) {
      WakeAllConserves(s, t);
      SameConserves(woken, r, t);
    } else {
      DiscardConserves(s, t);
      SameConserves(Discard(s), r, t);
    }
  }

  /** Waking moves no task, whoever notifies. */
  lemma WakeConserves(s: State, r: State, w: WorkerId, t: Task)
    requires Asleep(s, w) && Conserved(s, t)
    requires SameTasks(s.(workers := s.workers[w := s.workers[w].(stage := Woken)]), r)
    ensures Conserved(r, t)
  {
    PutConserves(s, w, s.workers[w].(stage := Woken), t);
  }

  lemma EnqueueConserves(s: State, c: Caller, t: Task)
    requires Enabled(s, Enqueue(c)) && Conserved(s, t)
    ensures Conserved(Next(s, Enqueue(c)), t)
  {
    assert Count(s.q + [s.nextTask], t) == Count(s.q, t) + if t == s.nextTask then 1 else 0;
  }

  lemma PopConserves(s: State, t: Task)
    requires s.q != [] && Conserved(s, t)
    ensures Conserved(Next(s, PopOutside), t)
  {
    CountFirst(s.q, t);
  }

  lemma StepConserves(s: State, l: Label, t: Task)
    requires Enabled(s, l) && Conserved(s, t)
    ensures Conserved(Next(s, l), t)
  {
    match l
    case Work(w) => WorkConserves(s, w, t);
    case Spurious(w) => WakeConserves(s, Next(s, l), w, t);
    case Enqueue(c) => EnqueueConserves(s, c, t);
    case Notify(c, target) =>
      if target.Some? { WakeConserves(s, Next(s, l), target.value, t); } else { SameConserves(s, Next(s, l), t); }
    case PopOutside => PopConserves(s, t);
    case ClearOne => DiscardConserves(s, t);
    case Command =>
      CommandTouches(s);
      TouchConserves(s, CommandStep(s), t);
    case _ => SameConserves(s, Next(s, l), t);
  }

  /** A step leaves the queue, takes its first task, or adds the next one. */
  ghost predicate Requeues(s: State, r: State) {
    || (r.q == s.q && r.nextTask == s.nextTask)
    || (s.q != [] && r.q == s.q[1..] && r.nextTask == s.nextTask)
    || (r.q == s.q + [s.nextTask] && r.nextTask == s.nextTask + 1)
  }

  lemma StepRequeues(s: State, l: Label)
    requires Enabled(s, l)
    ensures Requeues(s, Next(s, l))
  {
    if l.Command? { CommandTouches(s); }
  }

  lemma RequeueKeepsOrder(s: State, r: State)
    requires InOrder(s.q, s.nextTask) && Requeues(s, r)
    ensures InOrder(r.q, r.nextTask)
  {}

  lemma {:induction false} RunConserves(s: State, ls: seq<Label>, t: Task)
    requires IsRun(s, ls) && Conserved(s, t) && InOrder(s.q, s.nextTask)
    ensures Conserved(After(s, ls), t) && InOrder(After(s, ls).q, After(s, ls).nextTask)
    decreases |ls|
  {
    if ls == [] {
    } else {
      StepConserves(s, ls[0], t);
      StepRequeues(s, ls[0]);
      RequeueKeepsOrder(s, Next(s, ls[0]));
      RunConserves(Next(s, ls[0]), ls[1..], t);
    }
  }

  lemma {:induction false} RanIsInHand(ws: seq<Worker>, t: Task)
    ensures Total(ws, Ran(t)) <= Total(ws, Has(t))
  {
    if ws == [] {
    } else {
      RanIsInHand(ws[..|ws| - 1], t);
    }
  }

  /**
   * Over every run a task that was pushed is in exactly one place, and one that was not is in none. So no task
   * is run twice, none is freed twice, and a task that was discarded or handed to a caller is never run.
   */
  lemma TasksAreConserved(ls: seq<Label>, t: Task)
    requires IsRun(INITIAL, ls)
    ensures var s := After(INITIAL, ls);
      && Count(s.q, t) + Total(s.workers, Has(t)) + Count(s.done, t) + Count(s.discarded, t) + Count(s.handed, t)
         == (if t < s.nextTask then 1 else 0)
      && Count(s.started, t) <= 1
      && Count(s.done, t) <= Count(s.started, t)
      && Count(s.done, t) + Count(s.discarded, t) + Count(s.handed, t) <= 1
      && (t in s.discarded || t in s.handed || t in s.q ==> t !in s.started)
  {
    RunConserves(INITIAL, ls, t);
    RanIsInHand(After(INITIAL, ls).workers, t);
  }

  /** Tasks leave the queue in the order of their pushes: behind a task that is queued every later one is too. */
  lemma QueueIsFirstInFirstOut(ls: seq<Label>, t: Task, u: Task)
    requires IsRun(INITIAL, ls)
    requires t in After(INITIAL, ls).q && t < u < After(INITIAL, ls).nextTask
    ensures u in After(INITIAL, ls).q
  {
    RunConserves(INITIAL, ls, t);
    var s := After(INITIAL, ls);
    assert s.q[u - (s.nextTask - |s.q|)] == u;
  }
}
