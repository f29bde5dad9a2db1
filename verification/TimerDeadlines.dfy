/** When a timer is due: one delay after it was last posted, which a run tells without looking into the list. */
module TimerDeadlines {
  import opened StableSort
  import opened TimerModel
  import opened TimerLife
  import opened TimerHistory
  import opened TimerEffects
  import opened TimerSets
  import opened TimerService
  import TimerTiming

  /** The posting times `p` of `n` timers, after some further sets. */
  function WithSets(p: map<int, int>, n: int, sets: seq<Op>): map<int, int>
    decreases |sets|
  {
    if sets == [] then p
    else
      var before, last := sets[..|sets| - 1], sets[|sets| - 1];
      WithSets(p, n, before)[n + |sets| := if last.Set? then last.at else 0]
  }

  /**
   * The clock at the latest posting of each timer of a run: the time of its set, or of the re-arming at the end of
   * its latest firing.
   */
  ghost function Postings(ls: seq<Label>): map<int, int>
    requires IsRun(INITIAL, ls)
    decreases |ls|
  {
    if ls == [] then map[]
    else
      var before := ls[..|ls| - 1];
      var s := After(INITIAL, before);
      match ls[|ls| - 1]
      case Check(_) => Postings(before)
      case Host(op) => WithSets(Postings(before), |Sets(before)|, SetsOf([op]))
      case RunFront(_, ops, rearmAt) =>
        var p := WithSets(Postings(before), |Sets(before)|, SetsOf(ops));
        if s.queue[0].oneShot then p else p[s.queue[0].id := rearmAt]
  }

  lemma WithSetsMore(p: map<int, int>, n: int, sets: seq<Op>, set1: Op)
    requires set1.Set?
    ensures WithSets(p, n, sets + [set1]) == WithSets(p, n, sets)[n + |sets| + 1 := set1.at]
  {
    var all := sets + [set1];
    assert all[..|all| - 1] == sets && all[|all| - 1] == set1;
  }

  lemma OneSet(p: map<int, int>, n: int, op: Op)
    ensures WithSets(p, n, SetsOf([op])) == if op.Set? then p[n + 1 := op.at] else p
  {
    SetsOfMore([], op);
    assert [] + [op] == [op];
    if op.Set? { WithSetsMore(p, n, [], op); }
  }

  lemma LastStepPosts(all: seq<Label>, ls: seq<Label>, l: Label)
    requires all != [] && all[..|all| - 1] == ls && all[|all| - 1] == l && IsRun(INITIAL, all) && IsRun(INITIAL, ls)
    ensures match l
            case Check(_) => Postings(all) == Postings(ls)
            case Host(op) => Postings(all) == WithSets(Postings(ls), |Sets(ls)|, SetsOf([op]))
            case RunFront(_, ops, rearmAt) =>
              var p := WithSets(Postings(ls), |Sets(ls)|, SetsOf(ops));
              After(INITIAL, ls).queue != [] &&
              var t := After(INITIAL, ls).queue[0];
              Postings(all) == if t.oneShot then p else p[t.id := rearmAt]
  {}

  /** A set is posted at its own time, an interval again at the end of its firing, and no timer otherwise. */
  lemma PostingsMore(ls: seq<Label>, l: Label)
    requires IsRun(INITIAL, ls) && Enabled(After(INITIAL, ls), l) && IsRun(INITIAL, ls + [l])
    ensures l.Check? ==> Postings(ls + [l]) == Postings(ls)
    ensures l.Host? && l.op.Clear? ==> Postings(ls + [l]) == Postings(ls)
    ensures l.Host? && l.op.Set? ==> Postings(ls + [l]) == Postings(ls)[|Sets(ls)| + 1 := l.op.at]
    ensures l.RunFront? ==>
      var t, p := After(INITIAL, ls).queue[0], WithSets(Postings(ls), |Sets(ls)|, SetsOf(l.ops));
      Postings(ls + [l]) == if t.oneShot then p else p[t.id := l.rearmAt]
  {
    var all := ls + [l];
    assert all[..|all| - 1] == ls && all[|all| - 1] == l;
    LastStepPosts(all, ls, l);
    if l.Host? { OneSet(Postings(ls), |Sets(ls)|, l.op); }
  }

  lemma OpArms(s: State, held: set<int>, op: Op)
    requires Alive(s, held)
    ensures var r := DoOp(s, op);
      if op.Set? then r.armed == s.armed[s.lastId + 1 := op.at] && r.lastId == s.lastId + 1
      else r.armed == s.armed && r.lastId == s.lastId
  {
    match op
    case Set(fn, delay, oneShot, at) => SetIsExact(s, held, fn, delay, oneShot, at);
    case Clear(id) => ClearIsExact(s, held, id);
  }

  lemma OneMoreSet(s: State, ops: seq<Op>, op: Op)
    ensures var p, n := WithSets(s.armed, s.lastId, SetsOf(ops)), s.lastId + |SetsOf(ops)|;
      && WithSets(s.armed, s.lastId, SetsOf(ops + [op])) == (if op.Set? then p[n + 1 := op.at] else p)
      && s.lastId + |SetsOf(ops + [op])| == (if op.Set? then n + 1 else n)
  {
    SetsOfMore(ops, op);
    if op.Set? { WithSetsMore(s.armed, s.lastId, SetsOf(ops), op); } else { assert SetsOf(ops) + [] == SetsOf(ops); }
  }

  lemma {:induction false} OpsArm(s: State, held: set<int>, ops: seq<Op>)
    requires Alive(s, held)
    ensures DoOps(s, ops).armed == WithSets(s.armed, s.lastId, SetsOf(ops))
    ensures DoOps(s, ops).lastId == s.lastId + |SetsOf(ops)|
    decreases |ops|
  {
    if ops == [] {
    } else {
      var before, op := ops[..|ops| - 1], ops[|ops| - 1];
      OpsArm(s, held, before);
      OpsKeepAlive(s, held, before);
      OpArms(DoOps(s, before), held, op);
      assert ops == before + [op];
      OneMoreSet(s, before, op);
    }
  }

  lemma StepArms(s: State, l: Label)
    requires Alive(s, {}) && Enabled(s, l)
    ensures l.Check? ==> Next(s, l).armed == s.armed
    ensures l.Host? ==> Next(s, l).armed == WithSets(s.armed, s.lastId, SetsOf([l.op]))
    ensures l.RunFront? ==>
      var t, p := s.queue[0], WithSets(s.armed, s.lastId, SetsOf(l.ops));
      Next(s, l).armed == if t.oneShot then p else p[t.id := l.rearmAt]
  {
    match l
    case Host(op) =>
      OpArms(s, {}, op);
      OneSet(s.armed, s.lastId, op);
    case Check(now) => var n, kept := CheckIsExact(s, now);
    case RunFront(at, ops, rearmAt) =>
      FrontRuns(s, at, ops, rearmAt);
      OpsArm(Started(s, at), {s.queue[0].id}, ops);
      FiringIsExact(s, at, ops, rearmAt);
  }

  /** What the machine remembers of postings is what the run tells. */
  lemma {:induction false} PostingsAreExact(ls: seq<Label>)
    requires IsRun(INITIAL, ls)
    ensures After(INITIAL, ls).armed == Postings(ls)
    decreases |ls|
  {
    if ls == [] {
    } else {
      var before, l := ls[..|ls| - 1], ls[|ls| - 1];
      PostingsAreExact(before);
      SetsAreNumbered(before);
      AlwaysAlive(before);
      LastPosting(ls, After(INITIAL, before), After(INITIAL, ls));
    }
  }

  lemma LastPosting(ls: seq<Label>, s: State, r: State)
    requires ls != [] && IsRun(INITIAL, ls) && s == After(INITIAL, ls[..|ls| - 1]) && Alive(s, {})
    requires Enabled(s, ls[|ls| - 1]) && r == Next(s, ls[|ls| - 1])
    requires s.lastId == |Sets(ls[..|ls| - 1])| && s.armed == Postings(ls[..|ls| - 1])
    ensures r.armed == Postings(ls)
  {
    StepArms(s, ls[|ls| - 1]);
  }

  /**
   * In every reachable state the deadline of every waiting timer is the clock at its latest posting plus the delay
   * of its own set: neither earlier nor later.
   */
  lemma DeadlinesAreExact(ls: seq<Label>, e: Entry)
    requires IsRun(INITIAL, ls) && e in After(INITIAL, ls).list
    ensures var id := e.item.id;
      && 1 <= id <= |Sets(ls)| && Sets(ls)[id - 1].Set?
      && id in Postings(ls) && e.key == Postings(ls)[id] + Sets(ls)[id - 1].delay
      && e.item.oneShot == Sets(ls)[id - 1].oneShot
  {
    PostingsAreExact(ls);
    SetsAreNumbered(ls);
    TimersAreAsSet(ls);
    TimerTiming.RunOnTime(INITIAL, ls);
  }

  lemma KeyIsPast(start: seq<Label>, now: int, k: nat)
    requires IsRun(INITIAL, start) && k < |After(INITIAL, start).list|
    requires var id := After(INITIAL, start).list[k].item.id;
      id in Postings(start) && 1 <= id <= |Sets(start)| && Sets(start)[id - 1].Set? &&
      Postings(start)[id] + Sets(start)[id - 1].delay < now
    ensures After(INITIAL, start).list[k].key < now
  {
    DeadlinesAreExact(start, After(INITIAL, start).list[k]);
  }

  /**
   * A waiting timer is served in time: if `k` entries stand ahead of it at the first check after its latest posting
   * plus its delay, then that check and k/10 more take it out of the list, into the loop's queue unless it was
   * cancelled.
   */
  lemma DueTimerIsServed(start: seq<Label>, now: int, ls: seq<Label>, k: nat)
    requires IsRun(INITIAL, start) && After(INITIAL, start).clock <= now
    requires IsRun(CheckTimeouts(After(INITIAL, start), now), ls)
    requires (forall l <- start :: Forward(l)) && (forall l <- ls :: Forward(l)) && Checks(ls) >= k / 10
    requires k < |After(INITIAL, start).list|
    requires var id := After(INITIAL, start).list[k].item.id;
      id in Postings(start) && 1 <= id <= |Sets(start)| && Sets(start)[id - 1].Set? &&
      Postings(start)[id] + Sets(start)[id - 1].delay < now
    ensures var s := After(INITIAL, start);
      Served(After(CheckTimeouts(s, now), ls).log, |s.log|, s.list[k].item.id)
  {
    KeyIsPast(start, now, k);
    RunTold(INITIAL, start);
    RunForward(INITIAL, start);
    ServedByChecks(After(INITIAL, start), now, ls, k);
  }
}
