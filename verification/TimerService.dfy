/** How soon an overdue timer is served, and what becomes of a cancelled one. */
module TimerService {
  import opened StableSort
  import opened TimerModel
  import opened TimerLife
  import opened TimerHistory
  import opened TimerBatch

  predicate SetsForward(ops: seq<Op>) {
    forall op <- ops :: op.Set? ==> 0 <= op.delay
  }

  /** No timer is set with a negative delay. */
  predicate Forward(l: Label) {
    match l
    case Host(op) => op.Set? ==> 0 <= op.delay
    case Check(_) => true
    case RunFront(_, ops, _) => SetsForward(ops)
  }

  predicate NoNegativeDelay(s: State) {
    && (forall e <- s.list :: 0 <= e.item.delay)
    && (forall t <- s.queue :: 0 <= t.delay)
  }

  function Checks(ls: seq<Label>): nat
    decreases |ls|
  {
    if ls == [] then 0 else Checks(ls[..|ls| - 1]) + if ls[|ls| - 1].Check? then 1 else 0
  }

  // ---------- delays stay non-negative ----------

  lemma PostForward(s: State, t: Timer, at: int)
    requires Sorted(s.list) && NoNegativeDelay(s) && 0 <= t.delay
    ensures NoNegativeDelay(PostEvent(s, t, at))
  {
    var u := if t.id <= 0 then t.(id := s.lastId + 1) else t;
    ListInserted(s.list, Keyed(at + u.delay, u));
  }

  lemma MarkForward(list: seq<Entry>, n: nat)
    requires n < |list| && forall e <- list :: 0 <= e.item.delay
    ensures forall e <- MarkRemoved(list, n) :: 0 <= e.item.delay
  {
    forall e | e in MarkRemoved(list, n) ensures 0 <= e.item.delay {
      var i :| 0 <= i < |list| && MarkRemoved(list, n)[i] == e;
      assert list[i] in list;
    }
  }

  lemma OpForward(s: State, op: Op)
    requires Sorted(s.list) && NoNegativeDelay(s) && (op.Set? ==> 0 <= op.delay)
    ensures NoNegativeDelay(DoOp(s, op))
  {
    match op
    case Set(fn, delay, oneShot, at) => PostForward(s, Timer(-1, delay, oneShot, false), at);
    case Clear(c) => if Cancels(s, c) { MarkForward(s.list, Find(s.list, c)); }
  }

  lemma {:induction false} OpsForward(s: State, held: set<int>, ops: seq<Op>)
    requires Alive(s, held) && NoNegativeDelay(s) && SetsForward(ops)
    ensures NoNegativeDelay(DoOps(s, ops))
    decreases |ops|
  {
    if ops == [] {
    } else {
      OpsForward(s, held, ops[..|ops| - 1]);
      OpsKeepAlive(s, held, ops[..|ops| - 1]);
      OpForward(DoOps(s, ops[..|ops| - 1]), ops[|ops| - 1]);
    }
  }

  lemma CheckForward(s: State, now: int)
    requires NoNegativeDelay(s)
    ensures NoNegativeDelay(CheckTimeouts(s, now))
  {
    var n := BatchSize(s.list, now);
    PassesTakeBatch(s.(clock := now), now, MAX_EXPIRYS);
    PostedFrom(s.list[..n]);
    forall t <- Posted(s.list[..n]) ensures 0 <= t.delay {
      var e :| e in s.list[..n] && e.item == t;
      assert e in s.list;
    }
  }

  lemma RunNextForward(s: State, at: int, ops: seq<Op>, rearmAt: int)
    requires Alive(s, {}) && NoNegativeDelay(s) && s.queue != [] && SetsForward(ops)
    ensures NoNegativeDelay(RunNext(s, at, ops, rearmAt))
  {
    var t := s.queue[0];
    assert t in s.queue;
    FrontRuns(s, at, ops, rearmAt);
    OpsForward(Started(s, at), {t.id}, ops);
    if !t.oneShot { PostForward(DoOps(Started(s, at), ops), t, rearmAt); }
  }

  lemma StepForward(s: State, l: Label)
    requires Alive(s, {}) && NoNegativeDelay(s) && Enabled(s, l) && Forward(l)
    ensures NoNegativeDelay(Next(s, l))
  {
    match l
    case Host(op) => OpForward(s, op);
    case Check(now) => CheckForward(s, now);
    case RunFront(at, ops, rearmAt) => RunNextForward(s, at, ops, rearmAt);
  }

  lemma {:induction false} RunForward(s: State, ls: seq<Label>)
    requires Alive(s, {}) && NoNegativeDelay(s) && IsRun(s, ls) && forall l <- ls :: Forward(l)
    ensures NoNegativeDelay(After(s, ls))
    decreases |ls|
  {
    if ls == [] {
    } else {
      var before, l := ls[..|ls| - 1], ls[|ls| - 1];
      RunForward(s, before);
      RunKeepsAlive(s, before);
      assert l in ls;
      StepForward(After(s, before), l);
    }
  }

  // ---------- waiting ----------

  /** The overdue timer `id` is in the list, with at most `k` entries ahead of it. */
  ghost predicate WaitsIn(list: seq<Entry>, id: int, deadline: int, k: int) {
    exists j :: 0 <= j < |list| && j <= k && list[j].item.id == id && list[j].key == deadline
  }

  ghost predicate Waits(s: State, id: int, deadline: int, k: int) {
    deadline < s.clock && WaitsIn(s.list, id, deadline, k)
  }

  ghost predicate QueuedSince(log: seq<Note>, n: nat, id: int) {
    exists i :: n <= i < |log| && log[i] == Queued(id)
  }

  ghost predicate CollectedSince(log: seq<Note>, n: nat, id: int) {
    exists i :: n <= i < |log| && log[i] == Collected(id)
  }

  /** `id` has left the list since the log had `n` notes: for the queue, or because it was cancelled. */
  ghost predicate Served(log: seq<Note>, n: nat, id: int) {
    QueuedSince(log, n, id) || (CollectedSince(log, n, id) && id in CancelledIds(log))
  }

  lemma InsertKeepsPlace(list: seq<Entry>, x: Entry, id: int, deadline: int, k: int)
    requires Sorted(list) && deadline < x.key && WaitsIn(list, id, deadline, k)
    ensures WaitsIn(InsertStable(list, x), id, deadline, k)
  {
    var j :| 0 <= j < |list| && j <= k && list[j].item.id == id && list[j].key == deadline;
    assert j < UpperBound(list, x.key);
    assert InsertStable(list, x)[j] == list[j];
  }

  lemma MarkKeepsPlace(list: seq<Entry>, n: nat, id: int, deadline: int, k: int)
    requires n < |list| && WaitsIn(list, id, deadline, k)
    ensures WaitsIn(MarkRemoved(list, n), id, deadline, k)
  {
    var j :| 0 <= j < |list| && j <= k && list[j].item.id == id && list[j].key == deadline;
    assert MarkRemoved(list, n)[j].item.id == id;
  }

  /** A timer set now goes behind every overdue one. */
  lemma PostKeepsWaiting(s: State, t: Timer, at: int, id: int, deadline: int, k: int)
    requires Sorted(s.list) && s.clock <= at && 0 <= t.delay && Waits(s, id, deadline, k)
    ensures Waits(PostEvent(s, t, at), id, deadline, k)
  {
    var u := if t.id <= 0 then t.(id := s.lastId + 1) else t;
    AppendThenSort(s.list, Keyed(at + u.delay, u));
    InsertKeepsPlace(s.list, Keyed(at + u.delay, u), id, deadline, k);
  }

  lemma OpKeepsWaiting(s: State, op: Op, id: int, deadline: int, k: int)
    requires Sorted(s.list) && Waits(s, id, deadline, k)
    requires OpInTime(s.clock, op) && (op.Set? ==> 0 <= op.delay)
    ensures Waits(DoOp(s, op), id, deadline, k)
  {
    match op
    case Set(fn, delay, oneShot, at) => PostKeepsWaiting(s, Timer(-1, delay, oneShot, false), at, id, deadline, k);
    case Clear(c) => if Cancels(s, c) { MarkKeepsPlace(s.list, Find(s.list, c), id, deadline, k); }
  }

  lemma {:induction false} OpsKeepWaiting(s: State, held: set<int>, ops: seq<Op>, id: int, deadline: int, k: int)
    requires Alive(s, held) && Waits(s, id, deadline, k)
    requires InTime(s.clock, ops) && SetsForward(ops)
    ensures DoOps(s, ops).clock == EndOf(s.clock, ops) && Waits(DoOps(s, ops), id, deadline, k)
    decreases |ops|
  {
    if ops == [] {
    } else {
      var before, last := ops[..|ops| - 1], ops[|ops| - 1];
      OpsKeepWaiting(s, held, before, id, deadline, k);
      OpsKeepAlive(s, held, before);
      assert last in ops;
      OpKeepsWaiting(DoOps(s, before), last, id, deadline, k);
    }
  }

  lemma RunNextKeepsWaiting(s: State, at: int, ops: seq<Op>, rearmAt: int, id: int, deadline: int, k: int)
    requires Alive(s, {}) && NoNegativeDelay(s) && Waits(s, id, deadline, k)
    requires Enabled(s, RunFront(at, ops, rearmAt)) && SetsForward(ops)
    ensures Waits(RunNext(s, at, ops, rearmAt), id, deadline, k)
  {
    var t := s.queue[0];
    assert t in s.queue;
    FrontRuns(s, at, ops, rearmAt);
    OpsKeepWaiting(Started(s, at), {t.id}, ops, id, deadline, k);
    if !t.oneShot { PostKeepsWaiting(DoOps(Started(s, at), ops), t, rearmAt, id, deadline, k); }
  }

  // ---------- serving ----------

  lemma DueReaches(list: seq<Entry>, now: int, j: nat)
    requires Sorted(list) && j < |list| && list[j].key < now
    ensures j < DueRun(list, now)
  {}

  lemma BatchServes(s: State, n: nat, j: nat)
    requires Placed(s, {}) && j < n <= |s.list|
    ensures Served(TakeBatch(s, n).log, |s.log|, s.list[j].item.id)
  {
    var t, log := s.list[j].item, TakeBatch(s, n).log;
    assert s.list[j] in s.list;
    NotePlace(s.list[..n], j);
    assert log[|s.log| + j] == NotesOf(s.list[..n])[j];
    if t.removed {
      var c :| c in s.log && c.Cancelled? && c.id == t.id;
      assert c in log;
    }
  }

  lemma BatchKeepsPlace(list: seq<Entry>, n: nat, j: nat, k: int)
    requires n <= j < |list| && j <= k && (n == 10 || n == |list|)
    ensures WaitsIn(list[n..], list[j].item.id, list[j].key, k - 10)
  {
    assert list[n..][j - n] == list[j];
  }

  lemma CheckServes(s: State, now: int, id: int, deadline: int, k: int)
    requires Sorted(s.list) && Placed(s, {}) && WaitsIn(s.list, id, deadline, k) && deadline < now
    ensures Served(CheckTimeouts(s, now).log, |s.log|, id) || Waits(CheckTimeouts(s, now), id, deadline, k - 10)
  {
    CheckTakesBatch(s, now);
    var p, n := s.(clock := now), BatchSize(s.list, now);
    var j :| 0 <= j < |s.list| && j <= k && s.list[j].item.id == id && s.list[j].key == deadline;
    DueReaches(s.list, now, j);
    if j < n {
      BatchServes(p, n, j);
    } else {
      BatchKeepsPlace(s.list, n, j, k);
    }
  }

  lemma ServedGrows(log: seq<Note>, more: seq<Note>, n: nat, id: int)
    requires Served(log, n, id) && log <= more
    ensures Served(more, n, id)
  {
    forall i | 0 <= i < |log| ensures more[i] == log[i] {}
    if id in CancelledIds(log) {
      var c :| c in log && c.Cancelled? && c.id == id;
      assert c in more;
    }
  }

  lemma ServedEarlier(log: seq<Note>, m: nat, n: nat, id: int)
    requires Served(log, m, id) && n <= m
    ensures Served(log, n, id)
  {}

  ghost predicate Progresses(s: State, n: nat, id: int, deadline: int, k: int) {
    Served(s.log, n, id) || Waits(s, id, deadline, k)
  }

  lemma StepProgresses(s: State, l: Label, n: nat, id: int, deadline: int, k: int)
    requires Alive(s, {}) && Placed(s, {}) && NoNegativeDelay(s) && n <= |s.log| && Enabled(s, l) && Forward(l)
    requires Progresses(s, n, id, deadline, k)
    ensures Progresses(Next(s, l), n, id, deadline, k - if l.Check? then 10 else 0)
  {
    if Served(s.log, n, id) {
      StepLogGrows(s, l);
      ServedGrows(s.log, Next(s, l).log, n, id);
    } else {
      match l
      case Host(op) => OpKeepsWaiting(s, op, id, deadline, k);
      case Check(now) =>
        CheckServes(s, now, id, deadline, k);
        if Served(CheckTimeouts(s, now).log, |s.log|, id) { ServedEarlier(CheckTimeouts(s, now).log, |s.log|, n, id); }
      case RunFront(at, ops, rearmAt) => RunNextKeepsWaiting(s, at, ops, rearmAt, id, deadline, k);
    }
  }

  lemma {:induction false} RunProgresses(s: State, ls: seq<Label>, n: nat, id: int, deadline: int, k: int)
    requires Alive(s, {}) && Told(s, {}) && NoNegativeDelay(s) && n <= |s.log| && Progresses(s, n, id, deadline, k)
    requires IsRun(s, ls) && forall l <- ls :: Forward(l)
    ensures Progresses(After(s, ls), n, id, deadline, k - 10 * Checks(ls))
    decreases |ls|
  {
    if ls == [] {
    } else {
      var before, l := ls[..|ls| - 1], ls[|ls| - 1];
      RunProgresses(s, before, n, id, deadline, k);
      RunTold(s, before);
      RunForward(s, before);
      LogGrows(s, before);
      assert l in ls;
      StepProgresses(After(s, before), l, n, id, deadline, k - 10 * Checks(before));
    }
  }

  /** What was cancelled by note `n` can have left the list only by being collected. */
  lemma CancelledIsNotQueued(log: seq<Note>, born: map<int, Birth>, n: nat, id: int)
    requires Sound(log, born) && n <= |log| && id in CancelledIds(log[..n])
    ensures !QueuedSince(log, n, id)
  {
    var c :| c in log[..n] && c.Cancelled? && c.id == id;
    var p :| 0 <= p < n && log[p] == c;
    forall i | n <= i < |log| ensures log[i] != Queued(id) {
      if log[i].Queued? { NoFiringAfter(log, born, p, i); }
    }
  }

  lemma ServedFrom(s: State, ls: seq<Label>, k: nat)
    requires Alive(s, {}) && Told(s, {}) && NoNegativeDelay(s) && k < |s.list| && s.list[k].key < s.clock
    requires IsRun(s, ls) && (forall l <- ls :: Forward(l)) && Checks(ls) > k / 10
    ensures Served(After(s, ls).log, |s.log|, s.list[k].item.id)
  {
    var id, deadline := s.list[k].item.id, s.list[k].key;
    assert Waits(s, id, deadline, k);
    RunProgresses(s, ls, |s.log|, id, deadline, k);
  }

  lemma NotQueuedFrom(s: State, ls: seq<Label>, id: int)
    requires Alive(s, {}) && Told(s, {}) && IsRun(s, ls) && id in CancelledIds(s.log)
    ensures !QueuedSince(After(s, ls).log, |s.log|, id)
  {
    RunTold(s, ls);
    LogGrows(s, ls);
    assert After(s, ls).log[..|s.log|] == s.log;
    CancelledIsNotQueued(After(s, ls).log, After(s, ls).born, |s.log|, id);
  }

  lemma CollectedIsGone(s: State, n: nat, id: int)
    requires Told(s, {}) && CollectedSince(s.log, n, id)
    ensures id !in s.refs
  {}

  lemma ServedByChecks(s: State, now: int, ls: seq<Label>, k: nat)
    requires Alive(s, {}) && Told(s, {}) && NoNegativeDelay(s) && k < |s.list| && s.list[k].key < now
    requires s.clock <= now && IsRun(CheckTimeouts(s, now), ls)
    requires (forall l <- ls :: Forward(l)) && Checks(ls) >= k / 10
    ensures Served(After(CheckTimeouts(s, now), ls).log, |s.log|, s.list[k].item.id)
  {
    var c, id, deadline := CheckTimeouts(s, now), s.list[k].item.id, s.list[k].key;
    assert WaitsIn(s.list, id, deadline, k);
    CheckServes(s, now, id, deadline, k);
    StepTold(s, Check(now));
    StepKeepsAlive(s, Check(now));
    CheckForward(s, now);
    StepLogGrows(s, Check(now));
    RunProgresses(c, ls, |s.log|, id, deadline, k - 10);
  }

  /**
   * With no negative delays an overdue timer with `k` entries ahead of it has left the list after
   * `k / 10 + 1` calls of `checkTimeouts`, whatever else runs. One that is not cancelled has gone to the loop's
   * queue; one that was cancelled before has not, and its callback is gone.
   */
  lemma BoundedService(start: seq<Label>, ls: seq<Label>, k: nat)
    requires IsRun(INITIAL, start) && IsRun(After(INITIAL, start), ls)
    requires (forall l <- start :: Forward(l)) && forall l <- ls :: Forward(l)
    requires k < |After(INITIAL, start).list| && Checks(ls) > k / 10
    requires After(INITIAL, start).list[k].key < After(INITIAL, start).clock
    ensures var s := After(INITIAL, start);
            var r, n, t := After(s, ls), |s.log|, s.list[k].item;
      && Served(r.log, n, t.id)
      && (t.id !in CancelledIds(r.log) ==> QueuedSince(r.log, n, t.id))
      && (t.removed ==> CollectedSince(r.log, n, t.id) && !QueuedSince(r.log, n, t.id) && t.id !in r.refs)
  {
    var s := After(INITIAL, start);
    RunTold(INITIAL, start);
    RunForward(INITIAL, start);
    ServedFrom(s, ls, k);
    if s.list[k].item.removed {
      assert s.list[k] in s.list;
      NotQueuedFrom(s, ls, s.list[k].item.id);
      RunTold(s, ls);
      CollectedIsGone(After(s, ls), |s.log|, s.list[k].item.id);
    }
  }

  /**
   * In every reachable state a cancelled timer either still waits in the list, marked and with its callback, or
   * it has been collected and its callback is gone; it is never in the loop's queue.
   */
  lemma CancelledIsCollected(ls: seq<Label>, id: int)
    requires IsRun(INITIAL, ls) && id in CancelledIds(After(INITIAL, ls).log)
    ensures var s := After(INITIAL, ls);
      && (id in ListIds(s.list) <==> id in s.refs)
      && (id in ListIds(s.list) <==> id !in CollectedIds(s.log))
      && id !in QueueIds(s.queue)
      && forall e <- s.list :: e.item.id == id ==> e.item.removed
  {
    RunTold(INITIAL, ls);
  }
}
