/** What each step does to the timers, in terms of its own arguments. */
module TimerEffects {
  import opened Wrappers
  import opened StableSort
  import opened TimerModel
  import opened TimerLife
  import opened TimerHistory
  import opened TimerBatch

  lemma OneWithId(list: seq<Entry>, x: Entry, r: seq<Entry>)
    requires r == InsertStable(list, x) && x.item.id !in ListIds(list)
    ensures forall e <- r :: e.item.id == x.item.id <==> e == x
    ensures x in r && forall e <- list :: e in r
  {
    var n := UpperBound(list, x.key);
    assert list == list[..n] + list[n..];
    forall e | e in list ensures e.item.id != x.item.id { assert e.item.id in ListIds(list); }
    forall e | e in r ensures e == x || e in list {}
  }

  lemma SetFields(s: State, fn: Fn, delay: int, oneShot: bool, at: int)
    requires Sorted(s.list) && 0 <= s.lastId
    ensures var r, id := DoOp(s, Set(fn, delay, oneShot, at)), s.lastId + 1;
      && r.lastId == id && r.clock == at
      && r.list == InsertStable(s.list, Keyed(at + delay, Timer(id, delay, oneShot, false)))
      && r.refs == s.refs[id := fn] && r.born == s.born[id := Birth(at, delay, oneShot, fn)]
      && r.armed == s.armed[id := at] && r.queue == s.queue && r.log == s.log
  {
    AppendThenSort(s.list, Keyed(at + delay, Timer(s.lastId + 1, delay, oneShot, false)));
  }

  /**
   * A set takes the next id and makes a timer of just its kind: due at the clock plus its delay, behind the timers
   * that are due no later, with its own function under its id. Nothing else changes.
   */
  lemma SetIsExact(s: State, held: set<int>, fn: Fn, delay: int, oneShot: bool, at: int)
    requires Alive(s, held)
    ensures var r, id := DoOp(s, Set(fn, delay, oneShot, at)), s.lastId + 1;
            var x := Keyed(at + delay, Timer(id, delay, oneShot, false));
      && r.lastId == id && r.clock == at
      && r.list == InsertStable(s.list, x) && (forall e <- r.list :: e.item.id == id <==> e == x)
      && id !in s.refs && r.refs == s.refs[id := fn]
      && r.born == s.born[id := Birth(at, delay, oneShot, fn)]
      && r.armed == s.armed[id := at]
      && r.queue == s.queue && r.log == s.log
  {
    var r, id := DoOp(s, Set(fn, delay, oneShot, at)), s.lastId + 1;
    var x := Keyed(at + delay, Timer(id, delay, oneShot, false));
    SetFields(s, fn, delay, oneShot, at);
    OneWithId(s.list, x, r.list);
  }

  /** A clear marks the listed timer with its id, if there is one, and changes nothing else. */
  lemma ClearIsExact(s: State, held: set<int>, id: int)
    requires Alive(s, held)
    ensures var r := DoOp(s, Clear(id));
      && (id !in ListIds(s.list) ==> r == s)
      && (id in ListIds(s.list) ==> r.log == s.log + [Cancelled(id)])
      && |r.list| == |s.list|
      && (forall i :: 0 <= i < |s.list| ==>
            var t := s.list[i].item;
            r.list[i] == Keyed(s.list[i].key, Timer(t.id, t.delay, t.oneShot, t.removed || t.id == id)))
      && r.queue == s.queue && r.refs == s.refs && r.lastId == s.lastId && r.clock == s.clock
      && r.born == s.born && r.armed == s.armed
  {
    FindsExactly(s.list, id);
    var r := DoOp(s, Clear(id));
    forall i | 0 <= i < |s.list| && s.list[i].item.id == id ensures i == Find(s.list, id) {
      assert s.list[i] in s.list;
    }
  }

  /** A script is its operations one after the other. */
  lemma ScriptIsExact(s: State, ops: seq<Op>, op: Op)
    ensures DoOps(s, []) == s
    ensures DoOps(s, ops + [op]) == DoOp(DoOps(s, ops), op)
  {
    assert (ops + [op])[..|ops|] == ops;
  }

  // ---------- the check ----------

  /** `kept` are the places of the entries of `batch` that are not removed, from front to back. */
  ghost predicate KeptPlaces(batch: seq<Entry>, kept: seq<nat>) {
    && (forall k, l :: 0 <= k < l < |kept| ==> kept[k] < kept[l])
    && (forall k :: 0 <= k < |kept| ==> kept[k] < |batch| && !batch[kept[k]].item.removed)
    && (forall i: nat :: i < |batch| && !batch[i].item.removed ==> i in kept)
  }

  /** `posted` are the timers at the places `kept`. */
  ghost predicate TakenFrom(batch: seq<Entry>, kept: seq<nat>, posted: seq<Timer>) {
    |posted| == |kept| && forall k :: 0 <= k < |kept| && kept[k] < |batch| ==> posted[k] == batch[kept[k]].item
  }

  lemma {:induction false} PostedPlaces(batch: seq<Entry>) returns (kept: seq<nat>)
    ensures KeptPlaces(batch, kept) && TakenFrom(batch, kept, Posted(batch))
    decreases |batch|
  {
    if batch == [] {
      kept := [];
    } else {
      var n := |batch| - 1;
      kept := PostedPlaces(batch[..n]);
      if batch[n].item.removed {
        KeptSame(batch, n, kept);
      } else {
        KeptMore(batch, n, kept);
        kept := kept + [n];
      }
    }
  }

  lemma KeptSame(batch: seq<Entry>, n: nat, kept: seq<nat>)
    requires n + 1 == |batch| && KeptPlaces(batch[..n], kept) && batch[n].item.removed
    ensures KeptPlaces(batch, kept)
  {
    forall i: nat | i < |batch| && !batch[i].item.removed ensures i in kept { assert batch[..n][i] == batch[i]; }
  }

  lemma KeptMore(batch: seq<Entry>, n: nat, kept: seq<nat>)
    requires n + 1 == |batch| && KeptPlaces(batch[..n], kept) && !batch[n].item.removed
    ensures KeptPlaces(batch, kept + [n])
  {
    forall i: nat | i < |batch| && !batch[i].item.removed ensures i in kept + [n] {
      if i < n { assert batch[..n][i] == batch[i] && i in kept; }
    }
  }

  /** The first `n` entries are due, and the next one is not unless `n` is the cap of ten. */
  predicate DueAndCapped(list: seq<Entry>, now: int, n: nat) {
    && n <= |list| && n <= 10
    && (forall i :: 0 <= i < n ==> list[i].item.removed || list[i].key < now)
    && (n < 10 && n < |list| ==> !list[n].item.removed && now <= list[n].key)
  }

  /** Those of the first `n` callbacks whose timers are removed are gone, all others are as before. */
  ghost predicate Dropped(list: seq<Entry>, n: nat, refs: map<int, Fn>, after: map<int, Fn>)
    requires n <= |list|
  {
    && (forall id <- after :: id in refs && after[id] == refs[id])
    && (forall id <- refs :: id !in after <==> exists i :: 0 <= i < n && list[i].item.id == id && list[i].item.removed)
  }

  lemma BatchDrops(list: seq<Entry>, n: nat, refs: map<int, Fn>)
    requires n <= |list|
    ensures Dropped(list, n, refs, refs - DroppedIds(list[..n]))
  {
    forall id ensures id in DroppedIds(list[..n]) <==>
        exists i :: 0 <= i < n && list[i].item.id == id && list[i].item.removed
    {
      if i :| 0 <= i < n && list[i].item.id == id && list[i].item.removed { assert list[..n][i] in list[..n]; }
    }
  }

  /**
   * One call of `checkTimeouts` takes the first `n` entries, which are removed or overdue; there are no more of them
   * in front, or `n` is ten. Those not removed go to the loop in order, the callbacks of the others are dropped.
   */
  lemma CheckIsExact(s: State, now: int) returns (n: nat, kept: seq<nat>)
    ensures DueAndCapped(s.list, now, n) && KeptPlaces(s.list[..n], kept)
    ensures var r := CheckTimeouts(s, now);
      && r.list == s.list[n..] && r.clock == now
      && s.queue <= r.queue && TakenFrom(s.list[..n], kept, r.queue[|s.queue|..])
      && Dropped(s.list, n, s.refs, r.refs)
      && r.lastId == s.lastId && r.born == s.born && r.armed == s.armed
  {
    n := BatchSize(s.list, now);
    kept := PostedPlaces(s.list[..n]);
    PassesTakeBatch(s.(clock := now), now, MAX_EXPIRYS);
    BatchDrops(s.list, n, s.refs);
    var r := CheckTimeouts(s, now);
    assert r.queue[|s.queue|..] == Posted(s.list[..n]);
  }

  // ---------- a firing ----------

  /** The callback of a one-shot is dropped. */
  lemma DropIsExact(c: State, t: Timer)
    ensures Release(c, t.(removed := true)) == c.(refs := c.refs - {t.id}, log := c.log + [Collected(t.id)])
  {}

  /** An interval is due again one delay after the clock of the re-arming, behind the timers due no later. */
  lemma RearmIsExact(c: State, t: Timer, at: int)
    requires Sorted(c.list) && t.id > 0
    ensures var r := PostEvent(c, t, at);
      && r.list == InsertStable(c.list, Keyed(at + t.delay, t))
      && r.clock == at && r.armed == c.armed[t.id := at]
      && r.refs == c.refs && r.log == c.log && r.queue == c.queue && r.lastId == c.lastId && r.born == c.born
  {
    AppendThenSort(c.list, Keyed(at + t.delay, t));
  }

  /** What a firing begins with: the front timer leaves the queue and the function under its id is called. */
  lemma CallIsExact(s: State, at: int)
    requires Alive(s, {}) && s.queue != []
    ensures var t := s.queue[0];
      && t.id in s.refs && !t.removed && t.id > 0
      && Started(s, at) == s.(queue := s.queue[1..], clock := at, log := s.log + [Fired(t.id, Some(s.refs[t.id]), at)])
  {
    FrontRuns(s, at, [], at);
  }

  /**
   * What a firing of `t` ends with, if its callback ended in `c`: a one-shot loses its callback; an interval is due
   * again one delay after the clock at the end of the call.
   */
  ghost predicate Ended(t: Timer, c: State, r: State, rearmAt: int) {
    && (t.oneShot ==> r == c.(refs := c.refs - {t.id}, log := c.log + [Collected(t.id)]))
    && (!t.oneShot ==>
          && r.list == InsertStable(c.list, Keyed(rearmAt + t.delay, t))
          && r.clock == rearmAt && r.armed == c.armed[t.id := rearmAt]
          && r.refs == c.refs && r.log == c.log && r.queue == c.queue
          && r.lastId == c.lastId && r.born == c.born)
  }

  lemma EndIsExact(t: Timer, c: State, r: State, rearmAt: int)
    requires Sorted(c.list) && t.id > 0
    requires r == if t.oneShot then Release(c, t.(removed := true)) else PostEvent(c, t, rearmAt)
    ensures Ended(t, c, r, rearmAt)
  {
    if t.oneShot { DropIsExact(c, t); } else { RearmIsExact(c, t, rearmAt); }
  }

  /** A firing: the front timer is called, and ended whatever its callback did. */
  lemma FiringIsExact(s: State, at: int, ops: seq<Op>, rearmAt: int)
    requires Alive(s, {}) && s.queue != []
    ensures s.queue[0].id in s.refs
    ensures DoOps(Started(s, at), ops).queue == s.queue[1..]
    ensures Ended(s.queue[0], DoOps(Started(s, at), ops), RunNext(s, at, ops, rearmAt), rearmAt)
  {
    FrontRuns(s, at, ops, rearmAt);
    OpsKeep(Started(s, at), ops);
    EndIsExact(s.queue[0], DoOps(Started(s, at), ops), RunNext(s, at, ops, rearmAt), rearmAt);
  }
}
