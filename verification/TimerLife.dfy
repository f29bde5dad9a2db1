/** The life cycle of a timer: where it is, and that its callback is there exactly as long as it lives. */
module TimerLife {
  import opened Wrappers
  import opened StableSort
  import opened TimerModel

  function ListIds(list: seq<Entry>): set<int> {
    set e | e in list :: e.item.id
  }

  function QueueIds(queue: seq<Timer>): set<int> {
    set t | t in queue :: t.id
  }

  ghost predicate NoRepeats(list: seq<Entry>, queue: seq<Timer>) {
    && (forall i, j :: 0 <= i < j < |list| ==> list[i].item.id != list[j].item.id)
    && (forall i, j :: 0 <= i < j < |queue| ==> queue[i].id != queue[j].id)
    && ListIds(list) !! QueueIds(queue)
  }

  /**
   * `held` are the timers the loop has taken and not put back: none between two steps of a run, one
   * while a callback is executing.
   */
  ghost predicate Alive(s: State, held: set<int>) {
    && Sorted(s.list)
    && NoRepeats(s.list, s.queue)
    && ListIds(s.list) !! held && QueueIds(s.queue) !! held
    && s.refs.Keys == ListIds(s.list) + QueueIds(s.queue) + held
    && (forall id <- s.refs :: 1 <= id <= s.lastId && id in s.born && s.refs[id] == s.born[id].fn)
    && (forall t <- s.queue :: !t.removed)
    && 0 <= s.lastId
    && (forall id <- s.born :: id <= s.lastId)
  }

  // ---------- lists ----------

  lemma InsertIds(list: seq<Entry>, x: Entry)
    requires Sorted(list)
    ensures ListSort(list + [x]) == InsertStable(list, x) && Sorted(InsertStable(list, x))
    ensures ListIds(InsertStable(list, x)) == ListIds(list) + {x.item.id}
  {
    AppendThenSort(list, x);
    ListInserted(list, x);
    var r := InsertStable(list, x);
    assert x in r && forall e <- list :: e in r;
  }

  lemma InsertNoRepeats(list: seq<Entry>, queue: seq<Timer>, x: Entry)
    requires Sorted(list) && NoRepeats(list, queue)
    requires x.item.id !in ListIds(list) && x.item.id !in QueueIds(queue)
    ensures NoRepeats(InsertStable(list, x), queue)
  {
    InsertIds(list, x);
    var r, n := InsertStable(list, x), UpperBound(list, x.key);
    forall i | 0 <= i < |list| ensures list[i].item.id != x.item.id {
      assert list[i] in list;
    }
    forall i, j | 0 <= i < j < |r| ensures r[i].item.id != r[j].item.id {
      assert i != n ==> r[i] == list[if i < n then i else i - 1];
      assert j != n ==> r[j] == list[if j < n then j else j - 1];
    }
  }

  lemma MarkIds(list: seq<Entry>, n: nat)
    requires n < |list|
    ensures ListIds(MarkRemoved(list, n)) == ListIds(list)
    ensures Sorted(list) ==> Sorted(MarkRemoved(list, n))
    ensures forall queue | NoRepeats(list, queue) :: NoRepeats(MarkRemoved(list, n), queue)
  {
    var r := MarkRemoved(list, n);
    assert forall i :: 0 <= i < |list| ==> r[i].item.id == list[i].item.id && r[i].key == list[i].key;
    forall id | id in ListIds(list) ensures id in ListIds(r) {
      var i :| 0 <= i < |list| && list[i].item.id == id;
      assert r[i] in r;
    }
    forall id | id in ListIds(r) ensures id in ListIds(list) {
      var i :| 0 <= i < |r| && r[i].item.id == id;
      assert list[i] in list;
    }
  }

  lemma FindsExactly(list: seq<Entry>, id: int)
    ensures Find(list, id) < |list| <==> id in ListIds(list)
  {
    if Find(list, id) < |list| { assert list[Find(list, id)] in list; }
  }

  // ---------- operations ----------

  /** `r` is `s` with one more timer in the list, which the loop held or which is new. */
  lemma InsertKeepsAlive(s: State, r: State, held: set<int>, x: Entry)
    requires Alive(s, held) && x.item.id in held
    requires r.list == ListSort(s.list + [x]) && r.queue == s.queue && r.refs == s.refs
    requires r.lastId == s.lastId && r.born == s.born
    ensures Alive(r, held - {x.item.id})
  {
    InsertIds(s.list, x);
    InsertNoRepeats(s.list, s.queue, x);
    assert s.refs.Keys == ListIds(r.list) + QueueIds(r.queue) + (held - {x.item.id});
  }

  lemma PostKeepsAlive(s: State, held: set<int>, t: Timer, at: int)
    requires Alive(s, held) && t.id in held
    ensures Alive(PostEvent(s, t, at), held - {t.id})
  {
    assert t.id in s.refs;
    InsertKeepsAlive(s, PostEvent(s, t, at), held, Keyed(at + t.delay, t));
  }

  /** The state in which a new timer has its id and its callback but is not yet in the list. */
  lemma BirthKeepsAlive(s: State, r: State, held: set<int>, b: Birth)
    requires Alive(s, held) && r.list == s.list && r.queue == s.queue && r.lastId == s.lastId + 1
    requires r.refs == s.refs[r.lastId := b.fn] && r.born == s.born[r.lastId := b]
    ensures Alive(r, held + {r.lastId})
    ensures r.lastId !in s.refs && r.lastId !in held
  {
    assert r.lastId !in s.refs && r.lastId !in s.born;
    assert r.refs.Keys == s.refs.Keys + {r.lastId};
  }

  lemma SetKeepsAlive(s: State, held: set<int>, fn: Fn, delay: int, oneShot: bool, at: int)
    requires Alive(s, held)
    ensures Alive(SetTimer(s, fn, delay, oneShot, at), held)
    ensures s.lastId + 1 == SetTimer(s, fn, delay, oneShot, at).lastId
    ensures s.lastId + 1 !in s.refs
  {
    var id, b := s.lastId + 1, Birth(at, delay, oneShot, fn);
    var p := s.(lastId := id, refs := s.refs[id := fn], born := s.born[id := b]);
    BirthKeepsAlive(s, p, held, b);
    var x := Keyed(at + delay, Timer(id, delay, oneShot, false));
    InsertKeepsAlive(p, SetTimer(s, fn, delay, oneShot, at), held + {id}, x);
    assert held + {id} - {id} == held;
  }

  lemma CancelKeepsAlive(s: State, held: set<int>, id: int)
    requires Alive(s, held)
    ensures Alive(CancelEvent(s, id), held)
  {
    if Cancels(s, id) { MarkIds(s.list, Find(s.list, id)); }
  }

  lemma OpKeepsAlive(s: State, held: set<int>, op: Op)
    requires Alive(s, held)
    ensures Alive(DoOp(s, op), held)
  {
    match op
    case Set(fn, delay, oneShot, at) => SetKeepsAlive(s, held, fn, delay, oneShot, at);
    case Clear(id) => CancelKeepsAlive(s, held, id);
  }

  lemma {:induction false} OpsKeepAlive(s: State, held: set<int>, ops: seq<Op>)
    requires Alive(s, held)
    ensures Alive(DoOps(s, ops), held)
    decreases |ops|
  {
    if ops == [] {
    } else {
      OpsKeepAlive(s, held, ops[..|ops| - 1]);
      OpKeepsAlive(DoOps(s, ops[..|ops| - 1]), held, ops[|ops| - 1]);
    }
  }

  lemma TakenFromList(list: seq<Entry>, queue: seq<Timer>)
    requires NoRepeats(list, queue) && list != []
    ensures var t, r := list[0].item, list[1..];
      && ListIds(list) == {t.id} + ListIds(r) && t.id !in ListIds(r) && t.id !in QueueIds(queue)
      && QueueIds(queue + [t]) == QueueIds(queue) + {t.id}
      && NoRepeats(r, queue) && NoRepeats(r, queue + [t])
  {
    var t, r := list[0].item, list[1..];
    assert list == [list[0]] + r;
    assert ListIds(list) == {t.id} + ListIds(r);
    assert t.id !in ListIds(r);
    assert QueueIds(queue + [t]) == QueueIds(queue) + {t.id};
    assert forall q <- queue :: q.id in QueueIds(queue);
  }

  lemma PassKeepsAlive(s: State, now: int)
    requires Alive(s, {})
    ensures Alive(CheckPass(s, now), {})
  {
    if Takes(s, now) {
      TakenFromList(s.list, s.queue);
      var t, r := s.list[0].item, CheckPass(s, now);
      assert Sorted(r.list) && NoRepeats(r.list, r.queue);
      assert r.refs.Keys == ListIds(r.list) + QueueIds(r.queue) + {};
    }
  }

  lemma {:induction false} PassesKeepAlive(s: State, now: int, n: nat)
    requires Alive(s, {})
    ensures Alive(CheckPasses(s, now, n), {})
    decreases n
  {
    if n == 0 {
    } else {
      PassesKeepAlive(s, now, n - 1);
      PassKeepsAlive(CheckPasses(s, now, n - 1), now);
    }
  }

  /** The state in which the loop has taken its first event. */
  lemma TakeKeepsAlive(s: State)
    requires Alive(s, {}) && s.queue != []
    ensures Alive(s.(queue := s.queue[1..]), {s.queue[0].id})
  {
    var t, r := s.queue[0], s.queue[1..];
    assert s.queue == [t] + r;
    assert QueueIds(s.queue) == {t.id} + QueueIds(r);
    assert t.id !in QueueIds(r);
  }

  lemma RunNextKeepsAlive(s: State, at: int, ops: seq<Op>, rearmAt: int)
    requires Alive(s, {}) && s.queue != []
    ensures Alive(RunNext(s, at, ops, rearmAt), {})
  {
    var t := s.queue[0];
    TakeKeepsAlive(s);
    assert t in s.queue && t.id in QueueIds(s.queue) && t.id in s.refs;
    var taken := s.(queue := s.queue[1..]);
    var started := taken.(clock := at, log := taken.log + [Fired(t.id, Some(s.refs[t.id]), at)]);
    OpsKeepAlive(started, {t.id}, ops);
    if !t.oneShot {
      PostKeepsAlive(DoOps(started, ops), {t.id}, t, rearmAt);
      assert {t.id} - {t.id} == {};
    }
  }

  lemma StepKeepsAlive(s: State, l: Label)
    requires Alive(s, {}) && Enabled(s, l)
    ensures Alive(Next(s, l), {})
  {
    match l
    case Host(op) => OpKeepsAlive(s, {}, op);
    case Check(now) => PassesKeepAlive(s.(clock := now), now, MAX_EXPIRYS);
    case RunFront(at, ops, rearmAt) => RunNextKeepsAlive(s, at, ops, rearmAt);
  }

  lemma {:induction false} RunKeepsAlive(s: State, ls: seq<Label>)
    requires Alive(s, {}) && IsRun(s, ls)
    ensures Alive(After(s, ls), {})
    decreases |ls|
  {
    if ls == [] {
    } else {
      RunKeepsAlive(s, ls[..|ls| - 1]);
      StepKeepsAlive(After(s, ls[..|ls| - 1]), ls[|ls| - 1]);
    }
  }

  /**
   * In every state of every run each live timer is in exactly one of the list and the queue, and the
   * callback table has exactly the ids of the live timers, each with the function it was set with.
   */
  lemma AlwaysAlive(ls: seq<Label>)
    requires IsRun(INITIAL, ls)
    ensures Alive(After(INITIAL, ls), {})
  {
    RunKeepsAlive(INITIAL, ls);
  }
}
