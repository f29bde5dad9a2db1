/** What a worker does when nobody interferes. */
module PoolWorker {
  import opened PoolModel
  import opened PoolStop

  /** Worker `w` is at stage `g` and nobody keeps it from going on. */
  ghost predicate At(s: State, w: WorkerId, g: Stage) {
    && w < |s.workers| && s.workers[w].stage == g && !s.workers[w].flag
    && s.holder.None? && Inside(w) !in s.pending
  }

  ghost predicate Alone(ls: seq<Label>, w: WorkerId) {
    forall l <- ls :: l == Work(w)
  }

  lemma OneStep(s: State, w: WorkerId, ls: seq<Label>) returns (all: seq<Label>)
    requires CanWork(s, w) && IsRun(WorkerStep(s, w), ls) && Alone(ls, w)
    ensures IsRun(s, all) && Alone(all, w) && After(s, all) == After(WorkerStep(s, w), ls)
  {
    RunFrom(s, Work(w), ls);
    all := [Work(w)] + ls;
  }

  /** With an empty queue it waits for the pool's mutex, finds nothing and goes to sleep, or leaves a done pool. */
  lemma FindsNothing(s: State, w: WorkerId) returns (ls: seq<Label>)
    requires At(s, w, WantLock) && s.q == []
    ensures IsRun(s, ls) && Alone(ls, w)
    ensures var r := After(s, ls);
      && r.q == [] && r.started == s.started && r.done == s.done && r.holder.None?
      && w < |r.workers| && r.workers[w].stage == (if s.isDone then Exited else Sleeping)
      && r.nWaiting == s.nWaiting + (if s.isDone then 0 else 1)
  {
    var s1 := WorkerStep(s, w);
    var s2 := WorkerStep(s1, w);
    var s3 := WorkerStep(s2, w);
    ls := OneStep(s3, w, []);
    ls := OneStep(s2, w, ls);
    ls := OneStep(s1, w, ls);
    ls := OneStep(s, w, ls);
  }

  /** What a worker leaves that had the tasks `running` in hand, or none, and met the queue of `s`. */
  ghost predicate AllRun(s: State, r: State, w: WorkerId, running: seq<Task>) {
    && r.q == [] && r.started == s.started + s.q && r.done == s.done + running + s.q
    && w < |r.workers| && r.workers[w].stage == (if s.isDone then Exited else Sleeping)
  }

  /** `m` is `s` after the worker has freed `running` and started the first queued task. */
  ghost predicate TookNext(s: State, m: State, w: WorkerId, running: seq<Task>) {
    && s.q != [] && At(m, w, Running(s.q[0])) && m.q == s.q[1..]
    && m.started == s.started + [s.q[0]] && m.done == s.done + running && m.isDone == s.isDone
  }

  lemma NextThenRest(s: State, m: State, r: State, w: WorkerId, running: seq<Task>)
    requires TookNext(s, m, w, running) && AllRun(m, r, w, [s.q[0]])
    ensures AllRun(s, r, w, running)
  {
    assert s.q == [s.q[0]] + s.q[1..];
    assert m.started + m.q == s.started + s.q;
    assert m.done + [s.q[0]] + m.q == s.done + running + s.q;
  }

  lemma NothingLeft(s: State, m: State, r: State, w: WorkerId, running: seq<Task>)
    requires s.q == [] && m.started == s.started && m.done == s.done + running && m.isDone == s.isDone
    requires r.q == [] && r.started == m.started && r.done == m.done
    requires w < |r.workers| && r.workers[w].stage == if s.isDone then Exited else Sleeping
    ensures AllRun(s, r, w, running)
  {
    assert s.started + s.q == s.started && s.done + running + s.q == s.done + running;
  }

  /** The end of a task: its functor is freed, and the next task is started or the worker goes to wait. */
  lemma TaskEnds(s: State, w: WorkerId, t: Task) returns (m: State, ls: seq<Label>)
    requires At(s, w, Running(t))
    ensures IsRun(s, ls) && Alone(ls, w) && After(s, ls) == m
    ensures if s.q == [] then
              && At(m, w, WantLock) && m.q == [] && m.isDone == s.isDone
              && m.started == s.started && m.done == s.done + [t]
            else TookNext(s, m, w, [t])
  {
    var s1 := WorkerStep(s, w);
    var s2 := WorkerStep(s1, w);
    m := WorkerStep(s2, w);
    ls := OneStep(s2, w, []);
    ls := OneStep(s1, w, ls);
    ls := OneStep(s, w, ls);
  }

  lemma FrontOf(ls: seq<Label>, more: seq<Label>)
    requires ls != []
    ensures (ls + more)[0] == ls[0] && (ls + more)[1..] == ls[1..] + more
  {}

  lemma BothAlone(ls: seq<Label>, more: seq<Label>, w: WorkerId)
    requires Alone(ls, w) && Alone(more, w)
    ensures Alone(ls + more, w)
  {}

  lemma {:induction false} Joined(s: State, ls: seq<Label>, more: seq<Label>)
    requires IsRun(s, ls) && IsRun(After(s, ls), more)
    ensures IsRun(s, ls + more) && After(s, ls + more) == After(After(s, ls), more)
    decreases |ls|
  {
    if ls == [] {
      assert ls + more == more;
    } else {
      FrontOf(ls, more);
      Joined(Next(s, ls[0]), ls[1..], more);
    }
  }

  lemma RunThenRun(s: State, ls: seq<Label>, more: seq<Label>, w: WorkerId)
    requires IsRun(s, ls) && IsRun(After(s, ls), more) && Alone(ls, w) && Alone(more, w)
    ensures IsRun(s, ls + more) && After(s, ls + more) == After(After(s, ls), more) && Alone(ls + more, w)
  {
    BothAlone(ls, more, w);
    Joined(s, ls, more);
  }

  lemma {:induction false} RunsOn(s: State, w: WorkerId, t: Task) returns (ls: seq<Label>)
    requires At(s, w, Running(t))
    ensures IsRun(s, ls) && Alone(ls, w) && AllRun(s, After(s, ls), w, [t])
    decreases |s.q|
  {
    var m, first := TaskEnds(s, w, t);
    if s.q == [] {
      var rest := FindsNothing(m, w);
      NothingLeft(s, m, After(m, rest), w, [t]);
      RunThenRun(s, first, rest, w);
      ls := first + rest;
    } else {
      var rest := RunsOn(m, w, s.q[0]);
      NextThenRest(s, m, After(m, rest), w, [t]);
      RunThenRun(s, first, rest, w);
      ls := first + rest;
    }
  }

  /**
   * A new worker that is left alone runs every queued task once, in order, frees each after its run, and then sleeps,
   * or exits if the pool is done.
   */
  lemma NewWorkerRunsAll(s: State, w: WorkerId) returns (ls: seq<Label>)
    requires At(s, w, FirstPop)
    ensures IsRun(s, ls) && Alone(ls, w)
    ensures var r := After(s, ls);
      && r.q == [] && r.started == s.started + s.q && r.done == s.done + s.q
      && w < |r.workers| && r.workers[w].stage == if s.isDone then Exited else Sleeping
  {
    var m := WorkerStep(s, w);
    assert s.done + [] == s.done;
    if s.q == [] {
      ls := FindsNothing(m, w);
      NothingLeft(s, m, After(m, ls), w, []);
    } else {
      ls := RunsOn(m, w, s.q[0]);
      NextThenRest(s, m, After(m, ls), w, []);
    }
    ls := OneStep(s, w, ls);
  }

  /** Awake again, it takes the mutex, pops the first task inside the wait, and starts it outside. */
  lemma WokenTakes(s: State, w: WorkerId) returns (m: State, ls: seq<Label>)
    requires At(s, w, Woken) && s.q != []
    ensures IsRun(s, ls) && Alone(ls, w) && After(s, ls) == m && TookNext(s, m, w, [])
  {
    var s1 := WorkerStep(s, w);
    var s2 := WorkerStep(s1, w);
    m := WorkerStep(s2, w);
    assert s.done + [] == s.done;
    ls := OneStep(s2, w, []);
    ls := OneStep(s1, w, ls);
    ls := OneStep(s, w, ls);
  }

  /** A sleeping worker that is notified of a task runs it, and all that are queued behind it. */
  lemma WokenWorkerRunsAll(s: State, w: WorkerId) returns (ls: seq<Label>)
    requires At(s, w, Woken) && s.q != []
    ensures IsRun(s, ls) && Alone(ls, w)
    ensures var r := After(s, ls);
      && r.q == [] && r.started == s.started + s.q && r.done == s.done + s.q
      && w < |r.workers| && r.workers[w].stage == if s.isDone then Exited else Sleeping
  {
    var m, first := WokenTakes(s, w);
    var rest := RunsOn(m, w, s.q[0]);
    NextThenRest(s, m, After(m, rest), w, []);
    assert s.done + [] == s.done;
    RunThenRun(s, first, rest, w);
    ls := first + rest;
  }

  /** A worker that is told to go while it runs a task frees that task and exits, and leaves the queue as it is. */
  lemma DismissedWorkerExits(s: State, w: WorkerId)
    requires w < |s.workers| && s.workers[w].stage.Running? && s.workers[w].flag && Inside(w) !in s.pending
    ensures IsRun(s, [Work(w), Work(w)])
    ensures var r := After(s, [Work(w), Work(w)]);
      && r.workers == s.workers[w := Worker(Exited, true)] && r.q == s.q
      && r.done == s.done + [s.workers[w].stage.task] && r.started == s.started
  {
    var s1 := WorkerStep(s, w);
    var s2 := WorkerStep(s1, w);
    RunFrom(s1, Work(w), []);
    RunFrom(s, Work(w), [Work(w)] + []);
    assert [Work(w)] + ([Work(w)] + []) == [Work(w), Work(w)];
  }

  lemma SleepsAgain(s: State, w: WorkerId)
    requires At(s, w, Woken) && s.q == [] && !s.isDone
    ensures var back := WorkerStep(s, w);
      && CanWork(back, w) && CanWork(WorkerStep(back, w), w) && CanWork(WorkerStep(WorkerStep(back, w), w), w)
      && WorkerStep(WorkerStep(WorkerStep(back, w), w), w) == Put(s, w, Sleeping)
  {
    var s1 := WorkerStep(s, w);
    var s2 := WorkerStep(s1, w);
    var s3 := WorkerStep(s2, w);
    var s4 := WorkerStep(s3, w);
    assert s4.workers == s.workers[w := Worker(Sleeping, false)];
  }

  /** A spurious wakeup does no harm: with nothing to do the worker goes back to sleep and all is as it was. */
  lemma SpuriousIsHarmless(s: State, w: WorkerId) returns (ls: seq<Label>)
    requires At(s, w, Sleeping) && s.q == [] && !s.isDone
    ensures ls == [Spurious(w)] + ([Work(w)] + ([Work(w)] + ([Work(w)] + ([Work(w)] + []))))
    ensures IsRun(s, ls) && After(s, ls) == s
  {
    var s0 := Put(s, w, Woken);
    SleepsAgain(s0, w);
    assert s0.workers[w := s0.workers[w].(stage := Sleeping)] == s.workers;
    var s1 := WorkerStep(s0, w);
    var s2 := WorkerStep(s1, w);
    var s3 := WorkerStep(s2, w);
    RunFrom(s3, Work(w), []);
    RunFrom(s2, Work(w), [Work(w)] + []);
    RunFrom(s1, Work(w), [Work(w)] + ([Work(w)] + []));
    RunFrom(s0, Work(w), [Work(w)] + ([Work(w)] + ([Work(w)] + [])));
    ls := [Work(w)] + ([Work(w)] + ([Work(w)] + ([Work(w)] + [])));
    RunFrom(s, Spurious(w), ls);
    ls := [Spurious(w)] + ls;
  }
}
