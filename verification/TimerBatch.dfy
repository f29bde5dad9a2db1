/** What one call of `checkTimeouts` does as a whole, and how soon it serves a timer. */
module TimerBatch {
  import opened Wrappers
  import opened StableSort
  import opened TimerModel
  import opened TimerLife
  import EventLoops

  predicate Due(e: Entry, now: int) {
    e.item.removed || e.key < now
  }

  /** The length of the longest prefix of due entries. */
  function DueRun(list: seq<Entry>, now: int): (n: nat)
    ensures n <= |list|
    ensures forall i :: 0 <= i < n ==> Due(list[i], now)
    ensures n < |list| ==> !Due(list[n], now)
  {
    if list == [] || !Due(list[0], now) then 0 else 1 + DueRun(list[1..], now)
  }

  function Least(a: nat, b: nat): nat {
    if a < b then a else b
  }

  function BatchSize(list: seq<Entry>, now: int): (n: nat)
    ensures n <= |list|
  {
    Least(MAX_EXPIRYS, DueRun(list, now))
  }

  /** The timers of a batch that go to the event loop, in list order. */
  function Posted(batch: seq<Entry>): seq<Timer>
    decreases |batch|
  {
    if batch == [] then []
    else
      var last := batch[|batch| - 1].item;
      Posted(batch[..|batch| - 1]) + if last.removed then [] else [last]
  }

  /** The timers of a batch whose callbacks are dropped. */
  function DroppedIds(batch: seq<Entry>): set<int> {
    set e | e in batch && e.item.removed :: e.item.id
  }

  function NotesOf(batch: seq<Entry>): seq<Note>
    decreases |batch|
  {
    if batch == [] then []
    else
      var last := batch[|batch| - 1].item;
      NotesOf(batch[..|batch| - 1]) + [if last.removed then Collected(last.id) else Queued(last.id)]
  }

  /** The state after the first `n` entries have been taken out of the list together. */
  function TakeBatch(s: State, n: nat): State
    requires n <= |s.list|
  {
    s.(list := s.list[n..],
       queue := s.queue + Posted(s.list[..n]),
       refs := s.refs - DroppedIds(s.list[..n]),
       log := s.log + NotesOf(s.list[..n]))
  }

  lemma DropOne(list: seq<Entry>, n: nat, refs: map<int, Fn>)
    requires n < |list|
    ensures var a, b := list[..n], list[..n + 1];
      && b[..n] == a && b[n] == list[n]
      && (list[n].item.removed ==> refs - DroppedIds(b) == (refs - DroppedIds(a)) - {list[n].item.id})
      && (!list[n].item.removed ==> DroppedIds(b) == DroppedIds(a))
  {
    var a, b := list[..n], list[..n + 1];
    assert forall e :: e in b <==> e in a || e == list[n];
    if list[n].item.removed {
      assert DroppedIds(b) == DroppedIds(a) + {list[n].item.id};
    } else {
      assert DroppedIds(b) == DroppedIds(a);
    }
  }

  lemma OneMore(s: State, n: nat, now: int)
    requires n < |s.list| && Due(s.list[n], now)
    ensures CheckPass(TakeBatch(s, n), now) == TakeBatch(s, n + 1)
  {
    DropOne(s.list, n, s.refs);
    assert s.list[n..][1..] == s.list[n + 1..];
    if s.list[n].item.removed {
      assert Posted(s.list[..n + 1]) == Posted(s.list[..n]);
    } else {
      assert Posted(s.list[..n + 1]) == Posted(s.list[..n]) + [s.list[n].item];
    }
  }

  lemma NoneTaken(s: State)
    ensures TakeBatch(s, 0) == s
  {
    assert s.list[..0] == [] && s.list[0..] == s.list && DroppedIds(s.list[..0]) == {};
    assert s.refs - {} == s.refs;
  }

  /** A turn of the loop takes one more entry, or finds that the front is not due. */
  lemma PassAfterBatch(s: State, now: int, n: nat)
    requires n <= DueRun(s.list, now)
    ensures CheckPass(TakeBatch(s, n), now) == TakeBatch(s, if n < DueRun(s.list, now) then n + 1 else n)
  {
    if n < DueRun(s.list, now) {
      OneMore(s, n, now);
    } else {
      assert n < |s.list| ==> s.list[n..][0] == s.list[n];
    }
  }

  /** The same for a turn that starts from `p`, which is `s` after `n` entries have been taken. */
  lemma PassFrom(s: State, now: int, n: nat, p: State)
    requires n <= DueRun(s.list, now) && p == TakeBatch(s, n)
    ensures CheckPass(p, now) == TakeBatch(s, Least(n + 1, DueRun(s.list, now)))
  {
    PassAfterBatch(s, now, n);
  }

  lemma {:induction false} PassesTakeBatch(s: State, now: int, n: nat)
    ensures CheckPasses(s, now, n) == TakeBatch(s, Least(n, DueRun(s.list, now)))
    decreases n
  {
    if n == 0 {
      NoneTaken(s);
    } else {
      PassesTakeBatch(s, now, n - 1);
      PassFrom(s, now, Least(n - 1, DueRun(s.list, now)), CheckPasses(s, now, n - 1));
    }
  }

  lemma FrontIsEarliest(list: seq<Entry>)
    requires Sorted(list)
    ensures list != [] ==> (forall e <- list :: list[0].key <= e.key) && list[0] in list
  {}

  /**
   * One call takes exactly the first `min(10, m)` entries, where `m` is the longest prefix of removed
   * or expired ones: the removed ones lose their callbacks, the others go to the loop in list order.
   * It reports the earliest of the deadlines that are left.
   */
  lemma CheckTakesBatch(s: State, now: int)
    requires Sorted(s.list)
    ensures var n := BatchSize(s.list, now);
            CheckTimeouts(s, now) == TakeBatch(s.(clock := now), n)
    ensures var r := CheckTimeouts(s, now);
            match NextDeadline(r)
            case None => r.list == []
            case Some(d) => (forall e <- r.list :: d <= e.key) && (exists e <- r.list :: e.key == d)
  {
    PassesTakeBatch(s.(clock := now), now, MAX_EXPIRYS);
    FrontIsEarliest(s.list[BatchSize(s.list, now)..]);
  }

  /** If the cap of ten leaves a due timer behind, the loop's wait deadline is in the past. */
  lemma NoSleepWhileDue(s: State, now: int, deadline: int, limit: int, wanted: seq<Option<int>>, e: Entry)
    requires Sorted(s.list)
    requires e in CheckTimeouts(s, now).list && e.key < now
    requires NextDeadline(CheckTimeouts(s, now)) in wanted
    requires EventLoops.IsEarliest(deadline, limit, wanted)
    ensures deadline < now
  {
    CheckTakesBatch(s, now);
  }

  // ---------- the log ----------

  lemma {:induction false} OpsLogGrows(s: State, ops: seq<Op>)
    ensures s.log <= DoOps(s, ops).log
    decreases |ops|
  {
    if ops == [] {
    } else {
      OpsLogGrows(s, ops[..|ops| - 1]);
    }
  }

  lemma StepLogGrows(s: State, l: Label)
    requires Enabled(s, l)
    ensures s.log <= Next(s, l).log
  {
    match l
    case Host(op) =>
    case Check(now) => PassesTakeBatch(s.(clock := now), now, MAX_EXPIRYS);
    case RunFront(at, ops, rearmAt) =>
      var t, p := s.queue[0], s.(queue := s.queue[1..]);
      var fn := if t.id in p.refs then Some(p.refs[t.id]) else None;
      OpsLogGrows(p.(clock := at, log := p.log + [Fired(t.id, fn, at)]), ops);
  }

  /** The log only grows. */
  lemma {:induction false} LogGrows(s: State, ls: seq<Label>)
    requires IsRun(s, ls)
    ensures s.log <= After(s, ls).log
    decreases |ls|
  {
    if ls == [] {
    } else {
      LogGrows(s, ls[..|ls| - 1]);
      StepLogGrows(After(s, ls[..|ls| - 1]), ls[|ls| - 1]);
    }
  }

  lemma {:induction false} PostedFrom(batch: seq<Entry>)
    ensures forall t <- Posted(batch) :: exists e <- batch :: e.item == t
    decreases |batch|
  {
    if batch == [] {
    } else {
      PostedFrom(batch[..|batch| - 1]);
      forall t <- Posted(batch) ensures exists e <- batch :: e.item == t {
        if t in Posted(batch[..|batch| - 1]) {
          var e :| e in batch[..|batch| - 1] && e.item == t;
          assert e in batch;
        } else {
          assert batch[|batch| - 1] in batch;
        }
      }
    }
  }

  lemma {:induction false} NoteCount(batch: seq<Entry>)
    ensures |NotesOf(batch)| == |batch|
    decreases |batch|
  {
    if batch == [] {
    } else {
      NoteCount(batch[..|batch| - 1]);
    }
  }

  lemma {:induction false} NotePlace(batch: seq<Entry>, j: nat)
    requires j < |batch|
    ensures |NotesOf(batch)| == |batch|
    ensures var t := batch[j].item; NotesOf(batch)[j] == if t.removed then Collected(t.id) else Queued(t.id)
    decreases |batch|
  {
    if j == |batch| - 1 {
      NoteCount(batch[..|batch| - 1]);
    } else {
      NotePlace(batch[..|batch| - 1], j);
    }
  }
}
