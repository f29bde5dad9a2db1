/** In which order timers fire, how often in one pass of the loop, and what a cancel prevents. */
module TimerOrder {
  import opened StableSort
  import opened TimerModel
  import opened TimerLife
  import opened TimerHistory
  import opened TimerRank
  import TimerBatch

  /** The ids of queued timers, next to run first. */
  function QueueSeq(queue: seq<Timer>): (r: seq<int>)
    ensures |r| == |queue|
    ensures forall i :: 0 <= i < |queue| ==> r[i] == queue[i].id
  {
    seq(|queue|, i requires 0 <= i < |queue| => queue[i].id)
  }

  /** The ids of listed timers, next to expire first. */
  function ListSeq(list: seq<Entry>): (r: seq<int>)
    ensures |r| == |list|
    ensures forall i :: 0 <= i < |list| ==> r[i] == list[i].item.id
  {
    seq(|list|, i requires 0 <= i < |list| => list[i].item.id)
  }

  /** The ids of all waiting timers in the order in which they are to run. */
  function Line(s: State): seq<int> {
    QueueSeq(s.queue) + ListSeq(s.list)
  }

  ghost predicate Precedes(line: seq<int>, a: int, b: int) {
    exists i, j :: 0 <= i < j < |line| && line[i] == a && line[j] == b
  }

  /** Since the log had `n` notes `a` has fired, or it was cancelled at some time. */
  ghost predicate Settled(log: seq<Note>, n: nat, a: int) {
    || a in CancelledIds(log)
    || exists p :: n <= p < |log| && log[p].Fired? && log[p].id == a
  }

  /** Each firing of `b` since the log had `n` notes came after `a` was settled. */
  ghost predicate InOrder(log: seq<Note>, n: nat, a: int, b: int)
    decreases |log|
  {
    |log| <= n ||
    (var prior, last := log[..|log| - 1], log[|log| - 1];
     InOrder(prior, n, a, b) && (last.Fired? && last.id == b ==> Settled(prior, n, a)))
  }

  /** `a` has kept its precedence over `b` up to now and keeps it as long as it matters. */
  ghost predicate Ordered(line: seq<int>, log: seq<Note>, n: nat, a: int, b: int) {
    && InOrder(log, n, a, b)
    && (Precedes(line, a, b) || Settled(log, n, a) || b in CancelledIds(log))
  }

  // ---------- lines ----------

  lemma InsertedLine(line: seq<int>, m: nat, x: int, a: int, b: int)
    requires m <= |line| && Precedes(line, a, b)
    ensures Precedes(line[..m] + [x] + line[m..], a, b)
  {
    var i, j :| 0 <= i < j < |line| && line[i] == a && line[j] == b;
    var r := line[..m] + [x] + line[m..];
    assert r[if i < m then i else i + 1] == a && r[if j < m then j else j + 1] == b;
  }

  lemma ShortenedLine(line: seq<int>, m: nat, a: int, b: int)
    requires m < |line| && Precedes(line, a, b) && line[m] != a && line[m] != b
    ensures Precedes(line[..m] + line[m + 1..], a, b)
  {
    var i, j :| 0 <= i < j < |line| && line[i] == a && line[j] == b;
    var r := line[..m] + line[m + 1..];
    assert r[if i < m then i else i - 1] == a && r[if j < m then j else j - 1] == b;
  }

  lemma InsertedBehind(q: seq<int>, ids: seq<int>, n: nat, x: int)
    requires n <= |ids|
    ensures q + (ids[..n] + [x] + ids[n..]) == (q + ids)[..|q| + n] + [x] + (q + ids)[|q| + n..]
  {}

  lemma InsertedIds(list: seq<Entry>, x: Entry)
    requires Sorted(list)
    ensures var n := UpperBound(list, x.key);
      ListSeq(InsertStable(list, x)) == ListSeq(list)[..n] + [x.item.id] + ListSeq(list)[n..]
  {}

  lemma InsertKeepsLine(q: seq<int>, list: seq<Entry>, x: Entry, a: int, b: int)
    requires Sorted(list) && Precedes(q + ListSeq(list), a, b)
    ensures Precedes(q + ListSeq(ListSort(list + [x])), a, b)
  {
    var n := UpperBound(list, x.key);
    AppendThenSort(list, x);
    InsertedIds(list, x);
    InsertedBehind(q, ListSeq(list), n, x.item.id);
    InsertedLine(q + ListSeq(list), |q| + n, x.item.id, a, b);
  }

  lemma OpKeepsLine(s: State, op: Op, a: int, b: int)
    requires Sorted(s.list) && Precedes(Line(s), a, b)
    ensures Precedes(Line(DoOp(s, op)), a, b)
  {
    match op
    case Set(fn, delay, oneShot, at) =>
      InsertKeepsLine(QueueSeq(s.queue), s.list, Keyed(at + delay, Timer(s.lastId + 1, delay, oneShot, false)), a, b);
    case Clear(id) =>
      assert ListSeq(DoOp(s, op).list) == ListSeq(s.list);
  }

  lemma SplitLine(front: seq<int>, x: int, rest: seq<int>)
    ensures (front + [x]) + rest == front + ([x] + rest)
    ensures (front + ([x] + rest))[..|front|] == front && (front + ([x] + rest))[|front| + 1..] == rest
    ensures (front + ([x] + rest))[|front|] == x
  {}

  lemma QueueMore(queue: seq<Timer>, t: Timer)
    ensures QueueSeq(queue + [t]) == QueueSeq(queue) + [t.id]
  {}

  lemma ListFirst(list: seq<Entry>)
    requires list != []
    ensures ListSeq(list) == [list[0].item.id] + ListSeq(list[1..])
  {}

  lemma TakenLine(queue: seq<Timer>, list: seq<Entry>)
    requires list != []
    ensures var line := QueueSeq(queue) + ListSeq(list);
      && QueueSeq(queue + [list[0].item]) + ListSeq(list[1..]) == line
      && QueueSeq(queue) + ListSeq(list[1..]) == line[..|queue|] + line[|queue| + 1..]
      && line[|queue|] == list[0].item.id
  {
    QueueMore(queue, list[0].item);
    ListFirst(list);
    SplitLine(QueueSeq(queue), list[0].item.id, ListSeq(list[1..]));
  }

  lemma PassKeepsLine(s: State, now: int, a: int, b: int)
    requires Precedes(Line(s), a, b)
    requires Takes(s, now) && s.list[0].item.removed ==> s.list[0].item.id !in {a, b}
    ensures Precedes(Line(CheckPass(s, now)), a, b)
  {
    if Takes(s, now) {
      TakenLine(s.queue, s.list);
      if s.list[0].item.removed { ShortenedLine(Line(s), |s.queue|, a, b); }
    }
  }

  lemma RunLine(queue: seq<Timer>, list: seq<Entry>, a: int, b: int)
    requires queue != [] && queue[0].id !in {a, b}
    requires Precedes(QueueSeq(queue) + ListSeq(list), a, b)
    ensures Precedes(QueueSeq(queue[1..]) + ListSeq(list), a, b)
  {
    var line := QueueSeq(queue) + ListSeq(list);
    ShortenedLine(line, 0, a, b);
    assert QueueSeq(queue[1..]) + ListSeq(list) == line[..0] + line[1..];
  }

  lemma FrontIsNotBehind(s: State, a: int)
    requires NoRepeats(s.list, s.queue) && s.queue != []
    ensures !Precedes(Line(s), a, s.queue[0].id)
  {
    var b := s.queue[0].id;
    assert s.queue[0] in s.queue && b in QueueIds(s.queue);
    forall j | 0 < j < |Line(s)| ensures Line(s)[j] != b {
      if |s.queue| <= j { assert s.list[j - |s.queue|] in s.list; }
    }
  }

  // ---------- logs ----------

  lemma SettledGrows(log: seq<Note>, more: seq<Note>, n: nat, a: int)
    requires log <= more && Settled(log, n, a)
    ensures Settled(more, n, a)
  {
    if a in CancelledIds(log) {
      assert Cancelled(a) in more;
    } else {
      var p :| n <= p < |log| && log[p].Fired? && log[p].id == a;
      assert more[p] == log[p];
    }
  }

  lemma CancelledGrows(log: seq<Note>, more: seq<Note>)
    requires log <= more
    ensures CancelledIds(log) <= CancelledIds(more)
  {
    forall n | n in log ensures n in more {}
  }

  lemma {:induction false} InOrderGrows(log: seq<Note>, more: seq<Note>, n: nat, a: int, b: int)
    requires InOrder(log, n, a, b) && log <= more
    requires forall q :: |log| <= q < |more| ==> !more[q].Fired?
    ensures InOrder(more, n, a, b)
    decreases |more|
  {
    if |log| < |more| {
      assert log <= more[..|more| - 1];
      InOrderGrows(log, more[..|more| - 1], n, a, b);
    } else {
      assert log == more;
    }
  }

  lemma {:induction false} InOrderAt(log: seq<Note>, n: nat, a: int, b: int, q: nat)
    requires InOrder(log, n, a, b) && n <= q < |log| && log[q].Fired? && log[q].id == b
    ensures Settled(log[..q], n, a)
    decreases |log|
  {
    if q == |log| - 1 {
    } else {
      InOrderAt(log[..|log| - 1], n, a, b, q);
      assert log[..|log| - 1][..q] == log[..q];
    }
  }

  /** Notes that are no firing do not disturb the order. */
  lemma OrderGrows(line: seq<int>, log: seq<Note>, line': seq<int>, more: seq<Note>, n: nat, a: int, b: int)
    requires Ordered(line, log, n, a, b) && log <= more
    requires forall q :: |log| <= q < |more| ==> !more[q].Fired?
    requires Precedes(line, a, b) && {a, b} !! CancelledIds(log) ==> Precedes(line', a, b)
    ensures Ordered(line', more, n, a, b)
  {
    InOrderGrows(log, more, n, a, b);
    CancelledGrows(log, more);
    if Settled(log, n, a) { SettledGrows(log, more, n, a); }
  }

  // ---------- steps ----------

  lemma OpKeepsOrder(s: State, op: Op, n: nat, a: int, b: int)
    requires Sorted(s.list) && Ordered(Line(s), s.log, n, a, b)
    ensures Ordered(Line(DoOp(s, op)), DoOp(s, op).log, n, a, b)
  {
    if Precedes(Line(s), a, b) { OpKeepsLine(s, op, a, b); }
    OrderGrows(Line(s), s.log, Line(DoOp(s, op)), DoOp(s, op).log, n, a, b);
  }

  lemma {:induction false} OpsKeepOrder(s: State, held: set<int>, ops: seq<Op>, n: nat, a: int, b: int)
    requires Alive(s, held) && Ordered(Line(s), s.log, n, a, b)
    ensures Ordered(Line(DoOps(s, ops)), DoOps(s, ops).log, n, a, b)
    decreases |ops|
  {
    if ops == [] {
    } else {
      OpsKeepOrder(s, held, ops[..|ops| - 1], n, a, b);
      OpsKeepAlive(s, held, ops[..|ops| - 1]);
      OpKeepsOrder(DoOps(s, ops[..|ops| - 1]), ops[|ops| - 1], n, a, b);
    }
  }

  lemma PassKeepsOrder(s: State, now: int, n: nat, a: int, b: int)
    requires Placed(s, {}) && Ordered(Line(s), s.log, n, a, b)
    ensures Ordered(Line(CheckPass(s, now)), CheckPass(s, now).log, n, a, b)
  {
    if s.list != [] { assert s.list[0] in s.list; }
    if Precedes(Line(s), a, b) && {a, b} !! CancelledIds(s.log) { PassKeepsLine(s, now, a, b); }
    OrderGrows(Line(s), s.log, Line(CheckPass(s, now)), CheckPass(s, now).log, n, a, b);
  }

  lemma {:induction false} PassesKeepOrder(s: State, now: int, k: nat, n: nat, a: int, b: int)
    requires forall j: nat :: j < k ==> Placed(CheckPasses(s, now, j), {})
    requires Ordered(Line(s), s.log, n, a, b)
    ensures Ordered(Line(CheckPasses(s, now, k)), CheckPasses(s, now, k).log, n, a, b)
    decreases k
  {
    if k == 0 {
    } else {
      PassesKeepOrder(s, now, k - 1, n, a, b);
      PassKeepsOrder(CheckPasses(s, now, k - 1), now, n, a, b);
    }
  }

  lemma CheckKeepsOrder(s: State, now: int, n: nat, a: int, b: int)
    requires Alive(s, {}) && Told(s, {}) && Ordered(Line(s), s.log, n, a, b)
    ensures Ordered(Line(CheckTimeouts(s, now)), CheckTimeouts(s, now).log, n, a, b)
  {
    var p := s.(clock := now);
    forall j: nat | j < MAX_EXPIRYS ensures Placed(CheckPasses(p, now, j), {}) { PassesTold(p, now, j); }
    PassesKeepOrder(p, now, MAX_EXPIRYS, n, a, b);
  }

  /** The firing of the first event: it is not behind anything, so nothing it should wait for is pending. */
  lemma StartKeepsOrder(s: State, at: int, n: nat, a: int, b: int)
    requires NoRepeats(s.list, s.queue) && Placed(s, {}) && s.queue != [] && s.queue[0].id in s.refs
    requires n <= |s.log| && Ordered(Line(s), s.log, n, a, b)
    ensures Ordered(Line(Started(s, at)), Started(s, at).log, n, a, b)
  {
    var t, r := s.queue[0], Started(s, at);
    assert t in s.queue && t.id !in CancelledIds(s.log);
    FrontIsNotBehind(s, a);
    StartLog(s.log, r.log[|s.log|], n, a, b);
    if Precedes(Line(s), a, b) && t.id != a { RunLine(s.queue, s.list, a, b); }
  }

  lemma StartLog(log: seq<Note>, m: Note, n: nat, a: int, b: int)
    requires n <= |log| && InOrder(log, n, a, b) && m.Fired? && (m.id == b ==> Settled(log, n, a))
    ensures InOrder(log + [m], n, a, b)
    ensures Settled(log, n, a) || m.id == a ==> Settled(log + [m], n, a)
    ensures CancelledIds(log) <= CancelledIds(log + [m])
  {
    var r := log + [m];
    assert r[..|log|] == log;
    CancelledGrows(log, r);
    if m.id == a { assert r[|log|].Fired?; } else if Settled(log, n, a) { SettledGrows(log, r, n, a); }
  }

  lemma RunNextKeepsOrder(s: State, at: int, ops: seq<Op>, rearmAt: int, n: nat, a: int, b: int)
    requires Alive(s, {}) && Told(s, {}) && s.queue != []
    requires n <= |s.log| && Ordered(Line(s), s.log, n, a, b)
    ensures var r := RunNext(s, at, ops, rearmAt); Ordered(Line(r), r.log, n, a, b)
  {
    var t := s.queue[0];
    FrontRuns(s, at, ops, rearmAt);
    StartKeepsOrder(s, at, n, a, b);
    OpsKeepOrder(Started(s, at), {t.id}, ops, n, a, b);
    CallEndKeepsOrder(DoOps(Started(s, at), ops), t, rearmAt, n, a, b);
  }

  lemma CallEndKeepsOrder(s: State, t: Timer, rearmAt: int, n: nat, a: int, b: int)
    requires Sorted(s.list) && t.id > 0 && Ordered(Line(s), s.log, n, a, b)
    ensures Ordered(Line(Release(s, t)), Release(s, t).log, n, a, b)
    ensures Ordered(Line(Release(s, t.(removed := true))), Release(s, t.(removed := true)).log, n, a, b)
    ensures Ordered(Line(PostEvent(s, t, rearmAt)), PostEvent(s, t, rearmAt).log, n, a, b)
  {
    OrderGrows(Line(s), s.log, Line(s), Release(s, t).log, n, a, b);
    OrderGrows(Line(s), s.log, Line(s), Release(s, t.(removed := true)).log, n, a, b);
    if Precedes(Line(s), a, b) {
      InsertKeepsLine(QueueSeq(s.queue), s.list, Keyed(rearmAt + t.delay, t), a, b);
    }
    OrderGrows(Line(s), s.log, Line(PostEvent(s, t, rearmAt)), s.log, n, a, b);
  }

  lemma StepKeepsOrder(s: State, l: Label, n: nat, a: int, b: int)
    requires Alive(s, {}) && Told(s, {}) && Enabled(s, l)
    requires n <= |s.log| && Ordered(Line(s), s.log, n, a, b)
    ensures Ordered(Line(Next(s, l)), Next(s, l).log, n, a, b)
  {
    match l
    case Host(op) => OpKeepsOrder(s, op, n, a, b);
    case Check(now) => CheckKeepsOrder(s, now, n, a, b);
    case RunFront(at, ops, rearmAt) => RunNextKeepsOrder(s, at, ops, rearmAt, n, a, b);
  }

  lemma {:induction false} RunKeepsOrder(s: State, ls: seq<Label>, a: int, b: int)
    requires Alive(s, {}) && Told(s, {}) && IsRun(s, ls) && Precedes(Line(s), a, b)
    ensures Ordered(Line(After(s, ls)), After(s, ls).log, |s.log|, a, b)
    decreases |ls|
  {
    if ls == [] {
    } else {
      var before := ls[..|ls| - 1];
      RunKeepsOrder(s, before, a, b);
      RunTold(s, before);
      TimerBatch.LogGrows(s, before);
      StepKeepsOrder(After(s, before), ls[|ls| - 1], |s.log|, a, b);
    }
  }

  /** A firing of `b` in an ordered log comes after one of `a`, or after a cancel. */
  lemma FiresBehind(log: seq<Note>, n: nat, a: int, b: int, q: nat)
    requires InOrder(log, n, a, b) && n <= q < |log| && log[q].Fired? && log[q].id == b
    ensures (exists p :: n <= p < q && log[p].Fired? && log[p].id == a) || Cancelled(a) in log[..q]
  {
    InOrderAt(log, n, a, b, q);
    if a !in CancelledIds(log[..q]) {
      var p :| n <= p < |log[..q]| && log[..q][p].Fired? && log[..q][p].id == a;
      assert log[p].Fired?;
    }
  }

  lemma ListedPrecedes(s: State, i: nat, j: nat)
    requires i < j < |s.list|
    ensures Precedes(Line(s), s.list[i].item.id, s.list[j].item.id)
  {
    assert Line(s)[|s.queue| + i] == s.list[i].item.id && Line(s)[|s.queue| + j] == s.list[j].item.id;
  }

  lemma SoonerFiresFirst(s: State, more: seq<Label>, i: nat, j: nat, q: nat)
    requires Alive(s, {}) && Told(s, {}) && IsRun(s, more) && i < j < |s.list|
    requires |s.log| <= q < |After(s, more).log|
    requires After(s, more).log[q].Fired? && After(s, more).log[q].id == s.list[j].item.id
    ensures var log, a := After(s, more).log, s.list[i].item.id;
      (exists p :: |s.log| <= p < q && log[p].Fired? && log[p].id == a) || Cancelled(a) in log[..q]
  {
    ListedPrecedes(s, i, j);
    RunKeepsOrder(s, more, s.list[i].item.id, s.list[j].item.id);
    FiresBehind(After(s, more).log, |s.log|, s.list[i].item.id, s.list[j].item.id, q);
  }

  /**
   * Of two timers that wait in the list at the same moment, the one with the smaller deadline, or of
   * equal deadlines the one posted earlier, fires first in every continuation, unless it is cancelled.
   */
  lemma FiringOrder(start: seq<Label>, more: seq<Label>, e: Entry, f: Entry, q: nat)
    requires IsRun(INITIAL, start) && IsRun(After(INITIAL, start), more)
    requires e in After(INITIAL, start).list && f in After(INITIAL, start).list
    requires Sooner(After(INITIAL, start).rank, e, f)
    requires |After(INITIAL, start).log| <= q < |After(After(INITIAL, start), more).log|
    requires var m := After(After(INITIAL, start), more).log[q]; m.Fired? && m.id == f.item.id
    ensures var s := After(INITIAL, start);
            var log := After(s, more).log;
            (exists p :: |s.log| <= p < q && log[p].Fired? && log[p].id == e.item.id) ||
            Cancelled(e.item.id) in log[..q]
  {
    var s := After(INITIAL, start);
    var i :| 0 <= i < |s.list| && s.list[i] == e;
    var j :| 0 <= j < |s.list| && s.list[j] == f;
    RunTold(INITIAL, start);
    ListIsRanked(start, i, j);
    SoonerFiresFirst(s, more, i, j, q);
  }

  // ---------- one pass of the loop ----------

  /** The ids that fired, in order. */
  function FiredSeq(log: seq<Note>): seq<int>
    decreases |log|
  {
    if log == [] then []
    else FiredSeq(log[..|log| - 1]) + if log[|log| - 1].Fired? then [log[|log| - 1].id] else []
  }

  function FrontRunsIn(ls: seq<Label>): nat
    decreases |ls|
  {
    if ls == [] then 0 else FrontRunsIn(ls[..|ls| - 1]) + if ls[|ls| - 1].RunFront? then 1 else 0
  }

  lemma {:induction false} FiredSeqGrows(log: seq<Note>, more: seq<Note>)
    requires log <= more && forall q :: |log| <= q < |more| ==> !more[q].Fired?
    ensures FiredSeq(more) == FiredSeq(log)
    decreases |more|
  {
    if |log| < |more| {
      assert log <= more[..|more| - 1];
      FiredSeqGrows(log, more[..|more| - 1]);
    } else {
      assert log == more;
    }
  }

  lemma RunNextFires(s: State, at: int, ops: seq<Op>, rearmAt: int)
    requires Alive(s, {}) && s.queue != []
    ensures RunNext(s, at, ops, rearmAt).queue == s.queue[1..]
    ensures FiredSeq(RunNext(s, at, ops, rearmAt).log) == FiredSeq(s.log) + [s.queue[0].id]
  {
    FrontRuns(s, at, ops, rearmAt);
    OpsKeep(Started(s, at), ops);
    assert Started(s, at).log[..|s.log|] == s.log;
    FiredSeqGrows(Started(s, at).log, RunNext(s, at, ops, rearmAt).log);
  }

  /** What a step that is no call of `checkTimeouts` does to the queue and the firings. */
  ghost predicate Drains(s: State, r: State, l: Label) {
    && (l.Host? ==> r.queue == s.queue && FiredSeq(r.log) == FiredSeq(s.log))
    && (l.RunFront? ==>
          s.queue != [] && r.queue == s.queue[1..] && FiredSeq(r.log) == FiredSeq(s.log) + [s.queue[0].id])
  }

  lemma StepDrains(s: State, l: Label)
    requires Alive(s, {}) && Enabled(s, l) && !l.Check?
    ensures Drains(s, Next(s, l), l)
  {
    match l
    case Host(op) => FiredSeqGrows(s.log, DoOp(s, op).log);
    case RunFront(at, ops, rearmAt) => RunNextFires(s, at, ops, rearmAt);
  }

  lemma DrainLast(queue: seq<Timer>, fired: seq<int>, n: nat, s: State, r: State, l: Label)
    requires Drains(s, r, l) && !l.Check?
    requires n <= |queue| && s.queue == queue[n..] && FiredSeq(s.log) == fired + QueueSeq(queue)[..n]
    ensures var m := n + if l.RunFront? then 1 else 0;
      m <= |queue| && r.queue == queue[m..] && FiredSeq(r.log) == fired + QueueSeq(queue)[..m]
  {
    if l.RunFront? { assert QueueSeq(queue)[..n + 1] == QueueSeq(queue)[..n] + [queue[n].id]; }
  }

  /**
   * Between two calls of `checkTimeouts` nothing enters the loop's queue: whatever callbacks set, clear
   * or re-arm, the events that run are a prefix of the queue as it was, in that order.
   */
  lemma {:induction false} DrainIsExact(s: State, ls: seq<Label>)
    requires Alive(s, {}) && IsRun(s, ls) && forall l <- ls :: !l.Check?
    ensures FrontRunsIn(ls) <= |s.queue|
    ensures After(s, ls).queue == s.queue[FrontRunsIn(ls)..]
    ensures FiredSeq(After(s, ls).log) == FiredSeq(s.log) + QueueSeq(s.queue)[..FrontRunsIn(ls)]
    decreases |ls|
  {
    if ls == [] {
    } else {
      var before, l := ls[..|ls| - 1], ls[|ls| - 1];
      DrainIsExact(s, before);
      assert l in ls;
      RunKeepsAlive(s, before);
      StepDrains(After(s, before), l);
      DrainLast(s.queue, FiredSeq(s.log), FrontRunsIn(before), After(s, before), After(s, ls), l);
    }
  }

  lemma DistinctBehind(before: seq<int>, queue: seq<Timer>, n: nat, after: seq<int>)
    requires NoRepeats([], queue) && n <= |queue| && after == before + QueueSeq(queue)[..n]
    ensures before <= after
    ensures forall i, j :: |before| <= i < j < |after| ==> after[i] != after[j]
  {
    forall i, j | |before| <= i < j < |after| ensures after[i] != after[j] {
      assert after[i] == queue[i - |before|].id && after[j] == queue[j - |before|].id;
    }
  }

  /** In one pass of the loop each timer fires at most once, even with a zero or negative delay. */
  lemma OncePerPass(start: seq<Label>, now: int, drain: seq<Label>)
    requires IsRun(INITIAL, start) && After(INITIAL, start).clock <= now
    requires IsRun(CheckTimeouts(After(INITIAL, start), now), drain) && forall l <- drain :: !l.Check?
    ensures var before := FiredSeq(After(INITIAL, start).log);
            var after := FiredSeq(After(CheckTimeouts(After(INITIAL, start), now), drain).log);
      before <= after && forall i, j :: |before| <= i < j < |after| ==> after[i] != after[j]
  {
    var s := After(INITIAL, start);
    var c := CheckTimeouts(s, now);
    AlwaysAlive(start);
    StepKeepsAlive(s, Check(now));
    DrainIsExact(c, drain);
    CheckFiresNothing(s, now);
    DistinctBehind(FiredSeq(s.log), c.queue, FrontRunsIn(drain), FiredSeq(After(c, drain).log));
  }

  lemma CheckFiresNothing(s: State, now: int)
    ensures FiredSeq(CheckTimeouts(s, now).log) == FiredSeq(s.log)
  {
    TimerBatch.PassesTakeBatch(s.(clock := now), now, MAX_EXPIRYS);
    var n := TimerBatch.BatchSize(s.list, now);
    NotesFireNothing(s.list[..n]);
    FiredSeqGrows(s.log, CheckTimeouts(s, now).log);
  }

  lemma {:induction false} NotesFireNothing(batch: seq<Entry>)
    ensures forall m <- TimerBatch.NotesOf(batch) :: !m.Fired?
    decreases |batch|
  {
    if batch == [] {
    } else {
      NotesFireNothing(batch[..|batch| - 1]);
    }
  }

  // ---------- cancelling ----------

  lemma CancelledNeverFires(s: State, n: nat, id: int, more: seq<Label>, q: nat)
    requires Alive(s, {}) && Told(s, {}) && n < |s.log| && s.log[n] == Cancelled(id)
    requires IsRun(s, more) && n < q < |After(s, more).log| && After(s, more).log[q].Fired?
    ensures After(s, more).log[q].id != id
  {
    RunTold(s, more);
    TimerBatch.LogGrows(s, more);
    NoFiringAfter(After(s, more).log, After(s, more).born, n, q);
  }

  lemma CancelNotes(s: State, id: int)
    requires Alive(s, {}) && Told(s, {}) && Cancels(s, id)
    ensures var c := CancelEvent(s, id);
      Alive(c, {}) && Told(c, {}) && c.log == s.log + [Cancelled(id)]
  {
    CancelKeepsAlive(s, {}, id);
    CancelTold(s, {}, id);
  }

  /** A cancel succeeds exactly if a timer with that id waits in the list; not if it is queued or just running. */
  lemma CancelFindsWaiting(s: State, id: int)
    ensures Cancels(s, id) <==> id in ListIds(s.list)
  {
    FindsExactly(s.list, id);
  }

  lemma CancelSafetyFrom(s: State, id: int, more: seq<Label>, q: nat)
    requires Alive(s, {}) && Told(s, {}) && Cancels(s, id) && IsRun(CancelEvent(s, id), more)
    requires |s.log| <= q < |After(CancelEvent(s, id), more).log|
    ensures var m := After(CancelEvent(s, id), more).log[q]; !(m.Fired? && m.id == id)
  {
    var c := CancelEvent(s, id);
    CancelNotes(s, id);
    TimerBatch.LogGrows(c, more);
    if |s.log| < q && After(c, more).log[q].Fired? { CancelledNeverFires(c, |s.log|, id, more, q); }
  }

  /** Once a cancel has succeeded that timer does not fire in any continuation. */
  lemma CancelSafety(start: seq<Label>, id: int, more: seq<Label>, q: nat)
    requires IsRun(INITIAL, start) && Cancels(After(INITIAL, start), id)
    requires IsRun(CancelEvent(After(INITIAL, start), id), more)
    requires |After(INITIAL, start).log| <= q < |After(CancelEvent(After(INITIAL, start), id), more).log|
    ensures var m := After(CancelEvent(After(INITIAL, start), id), more).log[q]; !(m.Fired? && m.id == id)
  {
    RunTold(INITIAL, start);
    CancelSafetyFrom(After(INITIAL, start), id, more, q);
  }

  // ---------- an interval cannot stop itself ----------

  ghost predicate Waiting(s: State, id: int) {
    exists e <- s.list :: e.item.id == id && !e.item.removed
  }

  lemma RearmedWaits(s: State, t: Timer, at: int)
    requires Sorted(s.list) && t.id > 0 && !t.removed
    ensures Waiting(PostEvent(s, t, at), t.id)
  {
    ListInserted(s.list, Keyed(at + t.delay, t));
    assert Keyed(at + t.delay, t) in PostEvent(s, t, at).list;
  }

  /**
   * Whatever the callback of a timer does, clearing its own id included, the timer waits again
   * afterwards if and only if it is an interval.
   */
  lemma OnlyIntervalsComeBack(s: State, at: int, ops: seq<Op>, rearmAt: int)
    requires Alive(s, {}) && s.queue != []
    ensures Waiting(RunNext(s, at, ops, rearmAt), s.queue[0].id) <==> !s.queue[0].oneShot
  {
    var t := s.queue[0];
    FrontRuns(s, at, ops, rearmAt);
    var called := DoOps(Started(s, at), ops);
    if t.oneShot {
      forall e | e in called.list ensures e.item.id != t.id { assert e.item.id in ListIds(called.list); }
    } else {
      RearmedWaits(called, t, rearmAt);
    }
  }

  lemma ListOfOne(x: Entry)
    ensures ListSort([] + [x]) == [x]
  {
    assert [] + [x] == [x];
  }

  lemma OneLabel(l: Label)
    requires Enabled(INITIAL, l)
    ensures IsRun(INITIAL, [l]) && After(INITIAL, [l]) == Next(INITIAL, l)
  {
    assert [l][..0] == [];
    assert IsRun(INITIAL, []) && After(INITIAL, []) == INITIAL;
  }

  lemma OneLabelMore(ls: seq<Label>, l: Label)
    requires IsRun(INITIAL, ls) && Enabled(After(INITIAL, ls), l)
    ensures IsRun(INITIAL, ls + [l]) && After(INITIAL, ls + [l]) == Next(After(INITIAL, ls), l)
  {
    assert (ls + [l])[..|ls|] == ls;
  }

  /** An interval with a delay of ten, set at time zero, is the only timer, and the check at time eleven queues it. */
  lemma IntervalIsQueued()
    ensures var start := [Host(Set(7, 10, false, 0))] + [Check(11)];
      && IsRun(INITIAL, start)
      && After(INITIAL, start).queue == [Timer(1, 10, false, false)] && After(INITIAL, start).list == []
      && After(INITIAL, start).clock == 11
  {
    var t, set7 := Timer(1, 10, false, false), Host(Set(7, 10, false, 0));
    ListOfOne(Keyed(10, t));
    OneLabel(set7);
    var s := After(INITIAL, [set7]);
    assert s.list == [Keyed(10, t)] && s.queue == [];
    OneLabelMore([set7], Check(11));
    var p := s.(clock := 11);
    TimerBatch.PassesTakeBatch(p, 11, MAX_EXPIRYS);
    assert TimerBatch.DueRun(s.list, 11) == 1;
    assert s.list[..1] == [Keyed(10, t)] && s.list[..1][..0] == [];
    assert TimerBatch.Posted(s.list[..1]) == [] + [t];
  }

  /**
   * The concrete run: an interval is set, comes due, and its callback clears it. The clear finds nothing, and
   * afterwards the interval waits again.
   */
  lemma SelfClearFails()
    ensures var start := [Host(Set(7, 10, false, 0))] + [Check(11)];
            var last := RunFront(12, [Clear(1)], 13);
      && IsRun(INITIAL, start + [last])
      && After(INITIAL, start).queue == [Timer(1, 10, false, false)] && 1 in After(INITIAL, start).refs
      && !Cancels(Started(After(INITIAL, start), 12), 1)
      && Waiting(After(INITIAL, start + [last]), 1)
  {
    var start := [Host(Set(7, 10, false, 0))] + [Check(11)];
    var last := RunFront(12, [Clear(1)], 13);
    var s := After(INITIAL, start);
    IntervalIsQueued();
    AlwaysAlive(start);
    FrontRuns(s, 12, [Clear(1)], 13);
    ClearIsInTime(12, 1, 13);
    OneLabelMore(start, last);
    OnlyIntervalsComeBack(s, 12, [Clear(1)], 13);
  }

  lemma ClearIsInTime(at: int, id: int, rearmAt: int)
    requires at <= rearmAt
    ensures InTime(at, [Clear(id)]) && EndOf(at, [Clear(id)]) <= rearmAt
  {
    assert [Clear(id)][..0] == [];
    assert InTime(at, []) && EndOf(at, []) == at;
  }
}
