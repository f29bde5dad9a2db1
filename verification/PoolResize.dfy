/** What `resize` achieves, and what a worker that is told to go still does. */
module PoolResize {
  import opened PoolModel
  import opened PoolWakeup

  /** No `resize` or `stop` begins in these steps. */
  ghost predicate NoCommands(ls: seq<Label>) {
    forall l <- ls :: !l.BeginResize? && !l.BeginStop?
  }

  /** The threads from the `from`-th on have their flags set. */
  ghost predicate Dismissed(ws: seq<Worker>, threads: seq<WorkerId>, from: int) {
    forall i :: 0 <= i < |threads| && from <= i ==> threads[i] < |ws| && ws[threads[i]].flag
  }

  /** The threads from the `from`-th on are workers with numbers from `first` on, without their flags set. */
  ghost predicate Hired(ws: seq<Worker>, threads: seq<WorkerId>, from: nat, first: nat) {
    forall i :: from <= i < |threads| ==> first <= threads[i] < |ws| && !ws[threads[i]].flag
  }

  ghost predicate NoneAsleep(ws: seq<Worker>, threads: seq<WorkerId>, from: nat) {
    forall i :: from <= i < |threads| && threads[i] < |ws| ==> !ws[threads[i]].stage.Sleeping?
  }

  /** `resize(n)` of the threads `before`, when there were `first` workers, is under way or over. */
  ghost predicate Resizing(s: State, before: seq<WorkerId>, first: nat, n: nat) {
    match s.control
    case Growing(target) =>
      target == n && |before| <= |s.threads| <= n && before <= s.threads && first <= |s.workers| &&
      Hired(s.workers, s.threads, |before|, first)
    case Shrinking(last, target) =>
      target == n < |before| && s.threads == before && n - 1 <= last < |before| &&
      Dismissed(s.workers, before, last + 1)
    case ShrinkNotify(target) => target == n < |before| && s.threads == before && Dismissed(s.workers, before, n)
    case Idle => Resized(s, before, first, n)
    case _ => false
  }

  /** What a `resize(n)` leaves. */
  ghost predicate Resized(s: State, before: seq<WorkerId>, first: nat, n: nat) {
    if |before| <= n then
      |s.threads| == n && before <= s.threads && Hired(s.workers, s.threads, |before|, first)
    else
      s.threads == before[..n] && Dismissed(s.workers, before, n) && NoneAsleep(s.workers, before, n)
  }

  // ---------- steps ----------

  /** A worker's step: no flag changes, and one with its flag set does not go to sleep. */
  lemma WorkKeepsResizing(s: State, w: WorkerId, before: seq<WorkerId>, first: nat, n: nat)
    requires Resizing(s, before, first, n) && CanWork(s, w)
    ensures Resizing(WorkerStep(s, w), before, first, n)
  {
    FlagsStay(s, WorkerStep(s, w), before, first, n);
  }

  ghost predicate SameFlags(ws: seq<Worker>, after: seq<Worker>) {
    && |after| == |ws|
    && forall v :: 0 <= v < |ws| ==>
         after[v].flag == ws[v].flag && (ws[v].flag && !ws[v].stage.Sleeping? ==> !after[v].stage.Sleeping?)
  }

  lemma FlagsStay(s: State, r: State, before: seq<WorkerId>, first: nat, n: nat)
    requires Resizing(s, before, first, n) && SameFlags(s.workers, r.workers)
    requires r.threads == s.threads && r.control == s.control
    ensures Resizing(r, before, first, n)
  {
    forall k: int | Dismissed(s.workers, before, k) ensures Dismissed(r.workers, before, k) {}
    if Hired(s.workers, s.threads, |before|, first) { assert Hired(r.workers, r.threads, |before|, first); }
    if Dismissed(s.workers, before, n) && NoneAsleep(s.workers, before, n) {
      assert NoneAsleep(r.workers, before, n);
    }
  }

  lemma GrowResizes(s: State, before: seq<WorkerId>, first: nat, n: nat)
    requires Resizing(s, before, first, n) && s.control.Growing?
    ensures Resizing(CommandStep(s), before, first, n)
  {
    var r := CommandStep(s);
    assert before <= r.threads && Hired(r.workers, r.threads, |before|, first);
  }

  lemma ShrinkResizes(s: State, before: seq<WorkerId>, first: nat, n: nat)
    requires Inv(s) && Resizing(s, before, first, n) && s.control.Shrinking? && CanCommand(s)
    ensures Resizing(CommandStep(s), before, first, n)
  {
    var r, last := CommandStep(s), s.control.last;
    if n <= last {
      assert Dismissed(r.workers, before, last);
    }
  }

  lemma NotifyResizes(s: State, before: seq<WorkerId>, first: nat, n: nat)
    requires Resizing(s, before, first, n) && s.control.ShrinkNotify? && CanCommand(s)
    ensures Resizing(CommandStep(s), before, first, n)
  {
    var r := CommandStep(s);
    assert Dismissed(r.workers, before, n) && NoneAsleep(r.workers, before, n);
  }

  lemma StepResizes(s: State, l: Label, before: seq<WorkerId>, first: nat, n: nat)
    requires Inv(s) && Resizing(s, before, first, n) && Enabled(s, l) && !l.BeginResize? && !l.BeginStop?
    ensures Resizing(Next(s, l), before, first, n)
  {
    if l.Work? {
      WorkKeepsResizing(s, l.w, before, first, n);
    } else if !l.Command? {
      FlagsStay(s, Next(s, l), before, first, n);
    } else if s.control.Growing? {
      GrowResizes(s, before, first, n);
    } else if s.control.Shrinking? {
      ShrinkResizes(s, before, first, n);
    } else {
      NotifyResizes(s, before, first, n);
    }
  }

  lemma {:induction false} RunResizes(s: State, ls: seq<Label>, before: seq<WorkerId>, first: nat, n: nat)
    requires Inv(s) && Resizing(s, before, first, n) && IsRun(s, ls) && NoCommands(ls)
    ensures Resizing(After(s, ls), before, first, n)
    decreases |ls|
  {
    if ls == [] {
    } else {
      assert ls[0] in ls && forall l <- ls[1..] :: l in ls;
      StepKeeps(s, ls[0]);
      StepResizes(s, ls[0], before, first, n);
      RunResizes(Next(s, ls[0]), ls[1..], before, first, n);
    }
  }

  /**
   * When a `resize(n)` of a running pool is over, whatever the workers and pushers did meanwhile, there are exactly
   * `n` threads. If the pool grew, the old threads are the first of them and the others are new workers; if it
   * shrank, the first `n` of the old threads are left, and each dropped worker is told to go and is not asleep.
   */
  lemma ResizeAchieves(start: seq<Label>, n: nat, ls: seq<Label>)
    requires IsRun(INITIAL, start) && IsRun(After(INITIAL, start), [BeginResize(n)] + ls) && NoCommands(ls)
    requires !After(INITIAL, start).isStop && !After(INITIAL, start).isDone
    requires After(After(INITIAL, start), [BeginResize(n)] + ls).control == Idle
    ensures var s := After(INITIAL, start);
            var old1, r := s.threads, After(s, [BeginResize(n)] + ls);
      && |r.threads| == n
      && (|old1| <= n ==>
            r.threads[..|old1|] == old1 &&
            forall i :: |old1| <= i < n ==>
              |s.workers| <= r.threads[i] < |r.workers| && !r.workers[r.threads[i]].flag)
      && (n < |old1| ==>
            r.threads == old1[..n] &&
            forall i :: n <= i < |old1| ==>
              old1[i] < |r.workers| && r.workers[old1[i]].flag && !r.workers[old1[i]].stage.Sleeping?)
  {
    var s := After(INITIAL, start);
    Reachable(start);
    assert ([BeginResize(n)] + ls)[1..] == ls;
    var b := Next(s, BeginResize(n));
    StepKeeps(s, BeginResize(n));
    RunResizes(b, ls, s.threads, |s.workers|, n);
  }

  // ---------- a worker that is told to go ----------

  /** How many more tasks a worker at this stage can take from the queue once its flag is set. */
  function Budget(g: Stage): nat {
    match g
    case Running(_) => 0
    case AfterRun(_) => 0
    case PopFailed => 0
    case SawNotDone => 0
    case Leaving(_) => 0
    case Exited => 0
    case _ => 1
  }

  /** Worker `w` takes a task from the queue in this step. */
  predicate Takes(s: State, l: Label, w: WorkerId) {
    l == Work(w) && w < |s.workers| && Pops(s.workers[w].stage) && s.q != []
  }

  ghost function TakenBy(s: State, ls: seq<Label>, w: WorkerId): nat
    requires IsRun(s, ls)
    decreases |ls|
  {
    if ls == [] then 0 else (if Takes(s, ls[0], w) then 1 else 0) + TakenBy(Next(s, ls[0]), ls[1..], w)
  }

  lemma WorkSpends(x: Worker, q: seq<Task>, isDone: bool)
    requires x.flag && !x.stage.Sleeping? && !x.stage.Exited?
    ensures Budget(NextStage(x, q, isDone)) + (if Pops(x.stage) && q != [] then 1 else 0) <= Budget(x.stage)
  {}

  /** Nobody else's step takes a flag back or gives a worker another task. */
  ghost predicate Keeps(x: Worker, y: Worker) {
    x.flag ==> y.flag && Budget(y.stage) <= Budget(x.stage)
  }

  lemma CommandKeepsBudget(s: State, w: WorkerId)
    requires CanCommand(s) && w < |s.workers|
    ensures w < |CommandStep(s).workers| && Keeps(s.workers[w], CommandStep(s).workers[w])
  {}

  lemma OtherStepKeepsBudget(s: State, l: Label, w: WorkerId)
    requires Enabled(s, l) && w < |s.workers| && !l.Command? && !(l.Work? && l.w == w)
    ensures w < |Next(s, l).workers| && Keeps(s.workers[w], Next(s, l).workers[w])
  {}

  lemma StepSpends(s: State, l: Label, w: WorkerId)
    requires Enabled(s, l) && w < |s.workers| && s.workers[w].flag
    ensures var r := Next(s, l);
      && w < |r.workers| && r.workers[w].flag
      && (if Takes(s, l, w) then 1 else 0) + Budget(r.workers[w].stage) <= Budget(s.workers[w].stage)
  {
    if l == Work(w) {
      WorkSpends(s.workers[w], s.q, s.isDone);
    } else if l.Command? {
      CommandKeepsBudget(s, w);
    } else {
      OtherStepKeepsBudget(s, l, w);
    }
  }

  /**
   * A worker whose flag is set takes at most one more task, and none if it is running one, or has run one and has
   * not yet looked at its flag.
   */
  lemma {:induction false} FlaggedTakesAtMostOne(s: State, ls: seq<Label>, w: WorkerId)
    requires IsRun(s, ls) && w < |s.workers| && s.workers[w].flag
    ensures TakenBy(s, ls, w) <= 1
    ensures s.workers[w].stage.Running? || s.workers[w].stage.AfterRun? ==> TakenBy(s, ls, w) == 0
  {
    TakenWithinBudget(s, ls, w);
  }

  lemma {:induction false} TakenWithinBudget(s: State, ls: seq<Label>, w: WorkerId)
    requires IsRun(s, ls) && w < |s.workers| && s.workers[w].flag
    ensures TakenBy(s, ls, w) <= Budget(s.workers[w].stage)
    decreases |ls|
  {
    if ls == [] {
    } else {
      StepSpends(s, ls[0], w);
      TakenWithinBudget(Next(s, ls[0]), ls[1..], w);
    }
  }
}
