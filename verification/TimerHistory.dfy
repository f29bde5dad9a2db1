/** What the log of a run says about firing, cancelling and dropping a callback. */
module TimerHistory {
  import opened Wrappers
  import opened StableSort
  import opened TimerModel
  import opened TimerLife

  function FiredIds(log: seq<Note>): set<int> {
    set n | n in log && n.Fired? :: n.id
  }

  function CancelledIds(log: seq<Note>): set<int> {
    set n | n in log && n.Cancelled? :: n.id
  }

  function CollectedIds(log: seq<Note>): set<int> {
    set n | n in log && n.Collected? :: n.id
  }

  /**
   * May `n` come after `prior`? A firing finds the function its timer was set with and, like the queueing
   * before it, follows no cancelling and no dropping of it; a drop happens once, after the timer was
   * cancelled or, as a one-shot, has fired; and a one-shot fires once.
   */
  ghost predicate Follows(prior: seq<Note>, n: Note, born: map<int, Birth>) {
    && n.id in born
    && (n.Fired? || n.Queued? ==> n.id !in CancelledIds(prior) && n.id !in CollectedIds(prior))
    && (n.Fired? ==> n.fn == Some(born[n.id].fn) && (born[n.id].oneShot ==> n.id !in FiredIds(prior)))
    && (n.Collected? ==>
          n.id !in CollectedIds(prior) &&
          (n.id in CancelledIds(prior) || (born[n.id].oneShot && n.id in FiredIds(prior))))
  }

  ghost predicate Sound(log: seq<Note>, born: map<int, Birth>)
    decreases |log|
  {
    log == [] || (Sound(log[..|log| - 1], born) && Follows(log[..|log| - 1], log[|log| - 1], born))
  }

  ghost predicate Agrees(t: Timer, born: map<int, Birth>) {
    t.id in born && t.delay == born[t.id].delay && t.oneShot == born[t.id].oneShot
  }

  /** Where the timers are agrees with what was logged about them. */
  ghost predicate Placed(s: State, held: set<int>) {
    && (forall e <- s.list :: Agrees(e.item, s.born) && (e.item.removed <==> e.item.id in CancelledIds(s.log)))
    && (forall t <- s.queue :: Agrees(t, s.born) && t.id !in CancelledIds(s.log))
    && held !! CancelledIds(s.log)
  }

  ghost predicate Told(s: State, held: set<int>) {
    && Sound(s.log, s.born)
    && Placed(s, held)
    && (forall id :: id in s.born <==> 1 <= id <= s.lastId)
    && s.refs.Keys == s.born.Keys - CollectedIds(s.log)
    && (forall id <- FiredIds(s.log) :: id in s.born && (s.born[id].oneShot ==> id in held || id !in s.refs))
    && (forall id <- CancelledIds(s.log) :: id in s.born)
  }

  // ---------- logs ----------

  lemma Appended(log: seq<Note>, n: Note)
    ensures FiredIds(log + [n]) == FiredIds(log) + if n.Fired? then {n.id} else {}
    ensures CancelledIds(log + [n]) == CancelledIds(log) + if n.Cancelled? then {n.id} else {}
    ensures CollectedIds(log + [n]) == CollectedIds(log) + if n.Collected? then {n.id} else {}
    ensures forall born :: Sound(log, born) && Follows(log, n, born) ==> Sound(log + [n], born)
  {
    assert (log + [n])[..|log|] == log;
    assert forall m :: m in log + [n] <==> m in log || m == n;
  }

  lemma {:induction false} SoundGrows(log: seq<Note>, born: map<int, Birth>, more: map<int, Birth>)
    requires Sound(log, born)
    requires forall id <- born :: id in more && more[id] == born[id]
    ensures Sound(log, more)
    decreases |log|
  {
    if log == [] {
    } else {
      SoundGrows(log[..|log| - 1], born, more);
    }
  }

  /** The same in terms of positions: a cancelled or dropped timer is not queued and does not fire any more. */
  lemma {:induction false} NoFiringAfter(log: seq<Note>, born: map<int, Birth>, p: nat, q: nat)
    requires Sound(log, born) && p < q < |log|
    requires log[q].Fired? || log[q].Queued?
    ensures log[p] != Cancelled(log[q].id) && log[p] != Collected(log[q].id)
    ensures log[q].Fired? ==> log[q].id in born && log[q].fn == Some(born[log[q].id].fn)
    decreases |log|
  {
    if q < |log| - 1 {
      NoFiringAfter(log[..|log| - 1], born, p, q);
    } else {
      assert log[p] in log[..q];
    }
  }

  // ---------- operations ----------

  lemma SetTold(s: State, held: set<int>, fn: Fn, delay: int, oneShot: bool, at: int)
    requires Sorted(s.list) && 0 <= s.lastId && Told(s, held)
    ensures Told(SetTimer(s, fn, delay, oneShot, at), held)
  {
    var r := SetTimer(s, fn, delay, oneShot, at);
    NoNews(s);
    SoundGrows(s.log, s.born, r.born);
    SetPlaced(s, held, fn, delay, oneShot, at);
    assert r.refs.Keys == s.refs.Keys + {s.lastId + 1};
    assert r.born.Keys == s.born.Keys + {s.lastId + 1};
  }

  lemma InsertPlaced(list: seq<Entry>, x: Entry, born: map<int, Birth>, cancelled: set<int>)
    requires Sorted(list) && forall e <- list :: Agrees(e.item, born) && (e.item.removed <==> e.item.id in cancelled)
    requires Agrees(x.item, born) && (x.item.removed <==> x.item.id in cancelled)
    ensures forall e <- ListSort(list + [x]) :: Agrees(e.item, born) && (e.item.removed <==> e.item.id in cancelled)
  {
    ListInserted(list, x);
  }

  lemma BirthPlaced(s: State, held: set<int>, id: int, b: Birth)
    requires Placed(s, held) && id !in s.born
    ensures Placed(s.(born := s.born[id := b]), held)
  {}

  lemma SetPlaced(s: State, held: set<int>, fn: Fn, delay: int, oneShot: bool, at: int)
    requires Sorted(s.list) && Placed(s, held)
    requires s.lastId + 1 !in CancelledIds(s.log) && s.lastId + 1 !in s.born
    ensures Placed(SetTimer(s, fn, delay, oneShot, at), held)
  {
    var id, b := s.lastId + 1, Birth(at, delay, oneShot, fn);
    BirthPlaced(s, held, id, b);
    var x := Keyed(at + delay, Timer(id, delay, oneShot, false));
    InsertPlaced(s.list, x, s.born[id := b], CancelledIds(s.log));
  }

  /** Nothing was ever said about an id that was not given out. */
  lemma NoNews(s: State)
    requires Sound(s.log, s.born)
    ensures forall n <- s.log :: n.id in s.born
    ensures CollectedIds(s.log) <= s.born.Keys
  {
    forall n | n in s.log ensures n.id in s.born { NoteBorn(s.log, s.born, n); }
  }

  lemma {:induction false} NoteBorn(log: seq<Note>, born: map<int, Birth>, n: Note)
    requires Sound(log, born) && n in log
    ensures n.id in born
    decreases |log|
  {
    if n == log[|log| - 1] {
    } else {
      NoteBorn(log[..|log| - 1], born, n);
    }
  }

  lemma CancelTold(s: State, held: set<int>, id: int)
    requires Alive(s, held) && Told(s, held)
    ensures Told(CancelEvent(s, id), held)
  {
    if Cancels(s, id) {
      assert s.list[Find(s.list, id)] in s.list && id in ListIds(s.list);
      Appended(s.log, Cancelled(id));
      CancelPlaced(s, held, id);
    }
  }

  lemma CancelPlaced(s: State, held: set<int>, id: int)
    requires NoRepeats(s.list, s.queue) && Placed(s, held) && Cancels(s, id) && id !in held
    ensures Placed(CancelEvent(s, id), held)
  {
    var n, r := Find(s.list, id), CancelEvent(s, id);
    Appended(s.log, Cancelled(id));
    assert s.list[n] in s.list && id in ListIds(s.list);
    forall e | e in r.list
      ensures Agrees(e.item, s.born) && (e.item.removed <==> e.item.id in CancelledIds(r.log))
    {
      var i :| 0 <= i < |r.list| && r.list[i] == e;
      assert s.list[i] in s.list;
    }
    forall t <- s.queue ensures t.id != id { assert t.id in QueueIds(s.queue); }
  }

  lemma OpTold(s: State, held: set<int>, op: Op)
    requires Alive(s, held) && Told(s, held)
    ensures Told(DoOp(s, op), held)
  {
    match op
    case Set(fn, delay, oneShot, at) => SetTold(s, held, fn, delay, oneShot, at);
    case Clear(id) => CancelTold(s, held, id);
  }

  lemma {:induction false} OpsTold(s: State, held: set<int>, ops: seq<Op>)
    requires Alive(s, held) && Told(s, held)
    ensures Told(DoOps(s, ops), held)
    decreases |ops|
  {
    if ops == [] {
    } else {
      OpsTold(s, held, ops[..|ops| - 1]);
      OpsKeepAlive(s, held, ops[..|ops| - 1]);
      OpTold(DoOps(s, ops[..|ops| - 1]), held, ops[|ops| - 1]);
    }
  }

  /** Dropping the callback of a timer that is in neither list nor queue, for one of the two reasons. */
  lemma ReleaseTold(s: State, held: set<int>, t: Timer)
    requires Told(s, held) && t.removed && t.id in s.refs
    requires t.id in CancelledIds(s.log) || (s.born[t.id].oneShot && t.id in FiredIds(s.log))
    ensures Told(Release(s, t), held - {t.id})
  {
    Appended(s.log, Collected(t.id));
    assert Placed(Release(s, t), held - {t.id});
  }

  lemma PassTold(s: State, now: int)
    requires Alive(s, {}) && Told(s, {})
    ensures Told(CheckPass(s, now), {})
  {
    if Takes(s, now) {
      var t, r := s.list[0].item, s.list[1..];
      assert s.list == [s.list[0]] + r && s.list[0] in s.list && t.id in ListIds(s.list);
      var p := s.(list := r);
      assert Placed(p, {});
      if t.removed {
        ReleaseTold(p, {}, t);
        assert {} - {t.id} == {};
      } else {
        Appended(s.log, Queued(t.id));
        assert Placed(CheckPass(s, now), {});
      }
    }
  }

  lemma PassToldTo(s: State, r: State, now: int)
    requires Alive(s, {}) && Told(s, {}) && r == CheckPass(s, now)
    ensures Alive(r, {}) && Told(r, {})
  {
    PassKeepsAlive(s, now);
    PassTold(s, now);
  }

  lemma {:induction false} PassesToldTo(s: State, now: int, n: nat, r: State)
    requires Alive(s, {}) && Told(s, {}) && r == CheckPasses(s, now, n)
    ensures Alive(r, {}) && Told(r, {})
    decreases n
  {
    if n == 0 {
    } else {
      var p := CheckPasses(s, now, n - 1);
      PassesToldTo(s, now, n - 1, p);
      PassToldTo(p, r, now);
    }
  }

  lemma PassesTold(s: State, now: int, n: nat)
    requires Alive(s, {}) && Told(s, {})
    ensures Told(CheckPasses(s, now, n), {})
  {
    PassesToldTo(s, now, n, CheckPasses(s, now, n));
  }

  /** The state in which the callback of the first event is about to run. */
  function Started(s: State, at: int): State
    requires s.queue != [] && s.queue[0].id in s.refs
  {
    var t := s.queue[0];
    s.(queue := s.queue[1..], clock := at, log := s.log + [Fired(t.id, Some(s.refs[t.id]), at)])
  }

  /** Between two steps the first event of the queue is always one whose callback will run. */
  lemma FrontRuns(s: State, at: int, ops: seq<Op>, rearmAt: int)
    requires Alive(s, {}) && s.queue != []
    ensures s.queue[0].id in s.refs && !s.queue[0].removed && s.queue[0].id > 0
    ensures Alive(Started(s, at), {s.queue[0].id})
    ensures Alive(DoOps(Started(s, at), ops), {s.queue[0].id})
    ensures RunNext(s, at, ops, rearmAt) ==
      if s.queue[0].oneShot then Release(DoOps(Started(s, at), ops), s.queue[0].(removed := true))
      else PostEvent(DoOps(Started(s, at), ops), s.queue[0], rearmAt)
  {
    var t := s.queue[0];
    assert t in s.queue && t.id in QueueIds(s.queue);
    TakeKeepsAlive(s);
    OpsKeepAlive(Started(s, at), {t.id}, ops);
  }

  lemma StartTold(s: State, at: int)
    requires Alive(s, {}) && Told(s, {}) && s.queue != []
    requires s.queue[0].id in s.refs
    ensures Told(Started(s, at), {s.queue[0].id})
    ensures s.queue[0].id in FiredIds(Started(s, at).log)
  {
    var t, r := s.queue[0], Started(s, at);
    assert t in s.queue && Agrees(t, s.born);
    Appended(s.log, Fired(t.id, Some(s.refs[t.id]), at));
    assert Placed(r, {t.id});
  }

  /** What operations leave alone. */
  lemma {:induction false} OpsKeep(s: State, ops: seq<Op>)
    ensures s.log <= DoOps(s, ops).log && DoOps(s, ops).queue == s.queue
    ensures s.lastId <= DoOps(s, ops).lastId
    ensures forall id :: id in s.refs && id <= s.lastId ==> id in DoOps(s, ops).refs
    ensures forall id :: id in s.born && id <= s.lastId ==>
      id in DoOps(s, ops).born && DoOps(s, ops).born[id] == s.born[id]
    ensures forall i :: |s.log| <= i < |DoOps(s, ops).log| ==> DoOps(s, ops).log[i].Cancelled?
    decreases |ops|
  {
    if ops == [] {
    } else {
      OpsKeep(s, ops[..|ops| - 1]);
    }
  }

  lemma RunNextTold(s: State, at: int, ops: seq<Op>, rearmAt: int)
    requires Alive(s, {}) && Told(s, {}) && s.queue != []
    ensures Told(RunNext(s, at, ops, rearmAt), {})
  {
    var t := s.queue[0];
    assert t in s.queue && Agrees(t, s.born);
    FrontRuns(s, at, ops, rearmAt);
    StartTold(s, at);
    var started := Started(s, at);
    OpsTold(started, {t.id}, ops);
    OpsKeep(started, ops);
    CallEnds(DoOps(started, ops), t, rearmAt);
  }

  /** The end of a call: a one-shot is dropped, an interval goes back to the list. */
  lemma CallEnds(s: State, t: Timer, rearmAt: int)
    requires Alive(s, {t.id}) && Told(s, {t.id}) && Agrees(t, s.born) && !t.removed && t.id > 0
    requires t.id in FiredIds(s.log)
    ensures t.oneShot ==> Told(Release(s, t.(removed := true)), {})
    ensures !t.oneShot ==> Told(PostEvent(s, t, rearmAt), {})
  {
    if t.oneShot {
      ReleaseTold(s, {t.id}, t.(removed := true));
      assert {t.id} - {t.id} == {};
    } else {
      ListInserted(s.list, Keyed(rearmAt + t.delay, t));
      assert Placed(PostEvent(s, t, rearmAt), {});
    }
  }

  lemma StepTold(s: State, l: Label)
    requires Alive(s, {}) && Told(s, {}) && Enabled(s, l)
    ensures Told(Next(s, l), {})
  {
    match l
    case Host(op) => OpTold(s, {}, op);
    case Check(now) => PassesTold(s.(clock := now), now, MAX_EXPIRYS);
    case RunFront(at, ops, rearmAt) => RunNextTold(s, at, ops, rearmAt);
  }

  lemma {:induction false} RunTold(s: State, ls: seq<Label>)
    requires Alive(s, {}) && Told(s, {}) && IsRun(s, ls)
    ensures Alive(After(s, ls), {}) && Told(After(s, ls), {})
    decreases |ls|
  {
    if ls == [] {
    } else {
      RunTold(s, ls[..|ls| - 1]);
      StepTold(After(s, ls[..|ls| - 1]), ls[|ls| - 1]);
      StepKeepsAlive(After(s, ls[..|ls| - 1]), ls[|ls| - 1]);
    }
  }

  /**
   * The history of every run: each note may follow those before it, and a timer's callback is gone
   * exactly when it was dropped, which for a one-shot is the case as soon as it has fired.
   */
  lemma EveryHistoryIsSound(ls: seq<Label>)
    requires IsRun(INITIAL, ls)
    ensures var s := After(INITIAL, ls);
      && Sound(s.log, s.born)
      && s.refs.Keys == s.born.Keys - CollectedIds(s.log)
      && (forall id <- FiredIds(s.log) ::
            id in s.born && (s.born[id].oneShot ==> id in CollectedIds(s.log)))
  {
    RunTold(INITIAL, ls);
  }
}
