/** The timer list is always in the order of deadlines and, for equal deadlines, of postings. */
module TimerRank {
  import opened StableSort
  import opened TimerModel
  import opened TimerLife
  import opened TimerHistory
  import TimerBatch

  /** The latest posting of `a` came before that of `b`. */
  predicate PostedEarlier(rank: map<int, nat>, a: int, b: int) {
    a in rank && b in rank && rank[a] < rank[b]
  }

  /** `e` has the smaller deadline, or the same and was posted earlier. */
  predicate Sooner(rank: map<int, nat>, e: Entry, f: Entry) {
    e.key < f.key || (e.key == f.key && PostedEarlier(rank, e.item.id, f.item.id))
  }

  ghost predicate Ranked(list: seq<Entry>, rank: map<int, nat>) {
    forall i, j :: 0 <= i < j < |list| ==> Sooner(rank, list[i], list[j])
  }

  /** No listed timer has a posting number that is still to be given out. */
  ghost predicate Numbered(list: seq<Entry>, rank: map<int, nat>, posts: nat) {
    forall i :: 0 <= i < |list| ==> list[i].item.id in rank && rank[list[i].item.id] < posts
  }

  ghost predicate InRank(s: State) {
    Ranked(s.list, s.rank) && Numbered(s.list, s.rank, s.posts)
  }

  // ---------- lists ----------

  lemma OthersKeepRank(list: seq<Entry>, rank: map<int, nat>, id: int, posts: nat)
    requires Ranked(list, rank) && Numbered(list, rank, posts) && id !in ListIds(list)
    ensures Ranked(list, rank[id := posts]) && Numbered(list, rank[id := posts], posts)
  {
    var r := rank[id := posts];
    forall i | 0 <= i < |list| ensures list[i].item.id != id && list[i].item.id in r && r[list[i].item.id] < posts {
      assert list[i] in list;
    }
    forall i, j | 0 <= i < j < |list| ensures Sooner(r, list[i], list[j]) {
      assert Sooner(rank, list[i], list[j]);
    }
  }

  /** A new entry with the highest number goes where the stable sort puts it. */
  lemma InsertRanked(list: seq<Entry>, x: Entry, rank: map<int, nat>, posts: nat)
    requires Ranked(list, rank) && Numbered(list, rank, posts)
    requires x.item.id in rank && rank[x.item.id] == posts
    ensures Ranked(InsertStable(list, x), rank) && Numbered(InsertStable(list, x), rank, posts + 1)
  {
    var n, r := UpperBound(list, x.key), InsertStable(list, x);
    forall i | 0 <= i < |r| ensures r[i].item.id in rank && rank[r[i].item.id] < posts + 1 {
      assert i != n ==> r[i] == list[if i < n then i else i - 1];
    }
    forall i, j | 0 <= i < j < |r| ensures Sooner(rank, r[i], r[j]) {
      assert i != n ==> r[i] == list[if i < n then i else i - 1];
      assert j != n ==> r[j] == list[if j < n then j else j - 1];
    }
  }

  lemma MarkRanked(list: seq<Entry>, n: nat, rank: map<int, nat>, posts: nat)
    requires n < |list| && Ranked(list, rank) && Numbered(list, rank, posts)
    ensures Ranked(MarkRemoved(list, n), rank) && Numbered(MarkRemoved(list, n), rank, posts)
  {
    var r := MarkRemoved(list, n);
    forall i, j | 0 <= i < j < |r| ensures Sooner(rank, r[i], r[j]) {
      assert Sooner(rank, list[i], list[j]);
    }
  }

  lemma DropRanked(list: seq<Entry>, n: nat, rank: map<int, nat>, posts: nat)
    requires n <= |list| && Ranked(list, rank) && Numbered(list, rank, posts)
    ensures Ranked(list[n..], rank) && Numbered(list[n..], rank, posts)
  {}

  // ---------- steps ----------

  lemma PostRanked(s: State, t: Timer, at: int)
    requires Sorted(s.list) && InRank(s)
    requires (if t.id <= 0 then s.lastId + 1 else t.id) !in ListIds(s.list)
    ensures InRank(PostEvent(s, t, at))
  {
    var u := if t.id <= 0 then t.(id := s.lastId + 1) else t;
    var x, r := Keyed(at + u.delay, u), PostEvent(s, t, at);
    OthersKeepRank(s.list, s.rank, u.id, s.posts);
    InsertRanked(s.list, x, r.rank, s.posts);
    AppendThenSort(s.list, x);
  }

  lemma OpRanked(s: State, held: set<int>, op: Op)
    requires Alive(s, held) && InRank(s)
    ensures InRank(DoOp(s, op))
  {
    match op
    case Set(fn, delay, oneShot, at) =>
      assert s.lastId + 1 !in s.refs;
      PostRanked(s, Timer(-1, delay, oneShot, false), at);
    case Clear(id) =>
      if Cancels(s, id) { MarkRanked(s.list, Find(s.list, id), s.rank, s.posts); }
  }

  lemma {:induction false} OpsRanked(s: State, held: set<int>, ops: seq<Op>)
    requires Alive(s, held) && InRank(s)
    ensures InRank(DoOps(s, ops))
    decreases |ops|
  {
    if ops == [] {
    } else {
      OpsRanked(s, held, ops[..|ops| - 1]);
      OpsKeepAlive(s, held, ops[..|ops| - 1]);
      OpRanked(DoOps(s, ops[..|ops| - 1]), held, ops[|ops| - 1]);
    }
  }

  lemma CheckRanked(s: State, now: int)
    requires InRank(s)
    ensures InRank(CheckTimeouts(s, now))
  {
    var p := s.(clock := now);
    TimerBatch.PassesTakeBatch(p, now, MAX_EXPIRYS);
    DropRanked(s.list, TimerBatch.BatchSize(s.list, now), s.rank, s.posts);
  }

  lemma RunNextRanked(s: State, at: int, ops: seq<Op>, rearmAt: int)
    requires Alive(s, {}) && InRank(s) && s.queue != []
    ensures InRank(RunNext(s, at, ops, rearmAt))
  {
    var t := s.queue[0];
    FrontRuns(s, at, ops, rearmAt);
    OpsRanked(Started(s, at), {t.id}, ops);
    if !t.oneShot { PostRanked(DoOps(Started(s, at), ops), t, rearmAt); }
  }

  lemma StepRanked(s: State, l: Label)
    requires Alive(s, {}) && InRank(s) && Enabled(s, l)
    ensures InRank(Next(s, l))
  {
    match l
    case Host(op) => OpRanked(s, {}, op);
    case Check(now) => CheckRanked(s, now);
    case RunFront(at, ops, rearmAt) => RunNextRanked(s, at, ops, rearmAt);
  }

  lemma {:induction false} RunRanked(s: State, ls: seq<Label>)
    requires Alive(s, {}) && InRank(s) && IsRun(s, ls)
    ensures InRank(After(s, ls))
    decreases |ls|
  {
    if ls == [] {
    } else {
      RunRanked(s, ls[..|ls| - 1]);
      RunKeepsAlive(s, ls[..|ls| - 1]);
      StepRanked(After(s, ls[..|ls| - 1]), ls[|ls| - 1]);
    }
  }

  /**
   * In every reachable state, whatever was set, cleared, re-armed and taken: a timer stands in front of another
   * if and only if it has the smaller deadline, or the same deadline and was posted earlier.
   */
  lemma ListIsRanked(ls: seq<Label>, i: nat, j: nat)
    requires IsRun(INITIAL, ls) && i < |After(INITIAL, ls).list| && j < |After(INITIAL, ls).list|
    ensures var s := After(INITIAL, ls); i < j <==> Sooner(s.rank, s.list[i], s.list[j])
  {
    RunRanked(INITIAL, ls);
    var s := After(INITIAL, ls);
    if j < i { assert Sooner(s.rank, s.list[j], s.list[i]); }
  }
}
