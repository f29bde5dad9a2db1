/** What the timers of a run have to do with the calls of `setTimeout` and `setInterval` in it. */
module TimerSets {
  import opened Wrappers
  import opened StableSort
  import opened TimerModel
  import opened TimerLife
  import opened TimerHistory
  import opened TimerEffects
  import opened TimerTiming

  /** The sets among the operations of a script. */
  function SetsOf(ops: seq<Op>): seq<Op>
    decreases |ops|
  {
    if ops == [] then [] else SetsOf(ops[..|ops| - 1]) + if ops[|ops| - 1].Set? then [ops[|ops| - 1]] else []
  }

  /** All sets of a run in the order in which they are made, by the embedding program or inside callbacks. */
  function Sets(ls: seq<Label>): seq<Op>
    decreases |ls|
  {
    if ls == [] then []
    else
      Sets(ls[..|ls| - 1]) +
      match ls[|ls| - 1]
      case Host(op) => SetsOf([op])
      case Check(_) => []
      case RunFront(_, ops, _) => SetsOf(ops)
  }

  lemma SetsOfMore(ops: seq<Op>, op: Op)
    ensures SetsOf([]) == []
    ensures SetsOf(ops + [op]) == SetsOf(ops) + if op.Set? then [op] else []
  {
    assert (ops + [op])[..|ops|] == ops;
  }

  /** Nothing but a set is one, and no set is left out. */
  lemma SetsMore(ls: seq<Label>, l: Label)
    ensures Sets([]) == []
    ensures l.Check? ==> Sets(ls + [l]) == Sets(ls)
    ensures l.Host? ==> Sets(ls + [l]) == Sets(ls) + if l.op.Set? then [l.op] else []
    ensures l.RunFront? ==> Sets(ls + [l]) == Sets(ls) + SetsOf(l.ops)
  {
    assert (ls + [l])[..|ls|] == ls;
    if l.Host? {
      SetsOfMore([], l.op);
      assert [] + [l.op] == [l.op];
    }
  }

  /** The k-th set got the id k, and the histories remember its arguments. */
  ghost predicate Numbered(s: State, sets: seq<Op>) {
    && s.lastId == |sets|
    && (forall id :: id in s.born <==> 1 <= id <= |sets|)
    && (forall k :: 0 <= k < |sets| && sets[k].Set? ==>
          k + 1 in s.born && s.born[k + 1] == Birth(sets[k].at, sets[k].delay, sets[k].oneShot, sets[k].fn))
    && (forall k :: 0 <= k < |sets| ==> sets[k].Set?)
  }

  lemma SameNumbers(s: State, r: State, sets: seq<Op>)
    requires Numbered(s, sets) && r.lastId == s.lastId && r.born == s.born
    ensures Numbered(r, sets)
  {}

  lemma BirthNumbers(s: State, r: State, sets: seq<Op>, op: Op)
    requires Numbered(s, sets) && op.Set? && r.lastId == s.lastId + 1
    requires r.born == s.born[s.lastId + 1 := Birth(op.at, op.delay, op.oneShot, op.fn)]
    ensures Numbered(r, sets + [op])
  {
    forall k | 0 <= k < |sets + [op]|
      ensures var x := (sets + [op])[k];
              x.Set? && k + 1 in r.born && r.born[k + 1] == Birth(x.at, x.delay, x.oneShot, x.fn)
    {
      if k < |sets| { assert (sets + [op])[k] == sets[k] && sets[k].Set?; }
    }
  }

  lemma OpNumbers(s: State, held: set<int>, op: Op, sets: seq<Op>)
    requires Alive(s, held) && Numbered(s, sets)
    ensures Numbered(DoOp(s, op), sets + if op.Set? then [op] else [])
  {
    match op
    case Set(fn, delay, oneShot, at) =>
      SetIsExact(s, held, fn, delay, oneShot, at);
      BirthNumbers(s, DoOp(s, op), sets, op);
    case Clear(id) =>
      ClearIsExact(s, held, id);
      SameNumbers(s, DoOp(s, op), sets);
      assert sets + [] == sets;
  }

  lemma {:induction false} OpsNumber(s: State, held: set<int>, ops: seq<Op>, sets: seq<Op>)
    requires Alive(s, held) && Numbered(s, sets)
    ensures Numbered(DoOps(s, ops), sets + SetsOf(ops))
    decreases |ops|
  {
    if ops == [] {
      assert sets + [] == sets;
    } else {
      var before, op := ops[..|ops| - 1], ops[|ops| - 1];
      OpsNumber(s, held, before, sets);
      OpsKeepAlive(s, held, before);
      OpNumbers(DoOps(s, before), held, op, sets + SetsOf(before));
      assert ops == before + [op];
      SetsOfMore(before, op);
      assert sets + SetsOf(before) + (if op.Set? then [op] else []) == sets + SetsOf(ops);
    }
  }

  lemma StepNumbers(s: State, l: Label, sets: seq<Op>, more: seq<Op>)
    requires Alive(s, {}) && Enabled(s, l) && Numbered(s, sets)
    requires more == match l case Host(op) => SetsOf([op]) case Check(_) => [] case RunFront(_, ops, _) => SetsOf(ops)
    ensures Numbered(Next(s, l), sets + more)
  {
    match l
    case Host(op) =>
      SetsOfMore([], op);
      assert [] + [op] == [op];
      OpNumbers(s, {}, op, sets);
    case Check(now) =>
      var n, kept := CheckIsExact(s, now);
      SameNumbers(s, CheckTimeouts(s, now), sets);
      assert sets + [] == sets;
    case RunFront(at, ops, rearmAt) =>
      FrontRuns(s, at, ops, rearmAt);
      FiringIsExact(s, at, ops, rearmAt);
      SameNumbers(s, Started(s, at), sets);
      OpsNumber(Started(s, at), {s.queue[0].id}, ops, sets);
      SameNumbers(DoOps(Started(s, at), ops), RunNext(s, at, ops, rearmAt), sets + SetsOf(ops));
  }

  /** In every run the k-th set gets the id k, with its own arguments, wherever it is made. */
  lemma {:induction false} SetsAreNumbered(ls: seq<Label>)
    requires IsRun(INITIAL, ls)
    ensures Numbered(After(INITIAL, ls), Sets(ls))
    decreases |ls|
  {
    if ls == [] {
    } else {
      var before := ls[..|ls| - 1];
      SetsAreNumbered(before);
      AlwaysAlive(before);
      StepNumbers(After(INITIAL, before), ls[|ls| - 1], Sets(before), Sets(ls)[|Sets(before)|..]);
    }
  }

  /**
   * Every timer there is, waiting or queued, has the delay and the kind of its own set, and the function under its
   * id is that of its own set.
   */
  lemma TimersAreAsSet(ls: seq<Label>)
    requires IsRun(INITIAL, ls)
    ensures var s, sets := After(INITIAL, ls), Sets(ls);
      && (forall e <- s.list :: 1 <= e.item.id <= |sets| && sets[e.item.id - 1].Set? &&
            e.item.delay == sets[e.item.id - 1].delay && e.item.oneShot == sets[e.item.id - 1].oneShot)
      && (forall t <- s.queue :: 1 <= t.id <= |sets| && sets[t.id - 1].Set? &&
            t.delay == sets[t.id - 1].delay && t.oneShot == sets[t.id - 1].oneShot)
      && (forall id <- s.refs :: 1 <= id <= |sets| && sets[id - 1].Set? && s.refs[id] == sets[id - 1].fn)
  {
    SetsAreNumbered(ls);
    RunTold(INITIAL, ls);
    var s, sets := After(INITIAL, ls), Sets(ls);
    forall id | id in s.born ensures 1 <= id <= |sets| && sets[id - 1].Set? &&
      s.born[id] == Birth(sets[id - 1].at, sets[id - 1].delay, sets[id - 1].oneShot, sets[id - 1].fn)
    {
      var k := id - 1;
      assert sets[k].Set?;
    }
  }

  lemma {:induction false} OneShotCalls(log: seq<Note>, born: map<int, Birth>, id: int)
    requires Sound(log, born) && id in born && born[id].oneShot
    ensures Calls(log, id) <= 1
    ensures id !in FiredIds(log) ==> Calls(log, id) == 0
    decreases |log|
  {
    if log == [] {
    } else {
      var prior, last := log[..|log| - 1], log[|log| - 1];
      OneShotCalls(prior, born, id);
      assert log == prior + [last];
      Appended(prior, last);
    }
  }

  /** The birth of the k-th timer of a run is its set. */
  lemma BirthIsSet(ls: seq<Label>, k: nat)
    requires IsRun(INITIAL, ls) && k < |Sets(ls)| && Sets(ls)[k].Set?
    ensures var s, x := After(INITIAL, ls), Sets(ls)[k];
      Sound(s.log, s.born) && k + 1 in s.born && s.born[k + 1] == Birth(x.at, x.delay, x.oneShot, x.fn)
  {
    SetsAreNumbered(ls);
    RunTold(INITIAL, ls);
  }

  /**
   * The promise of the k-th set of a run: every firing of its timer calls its own function, and the n-th of them
   * comes later than the set plus n delays.
   */
  lemma SetKeepsItsPromise(ls: seq<Label>, k: nat, q: nat)
    requires IsRun(INITIAL, ls) && k < |Sets(ls)| && Sets(ls)[k].Set?
    requires q < |After(INITIAL, ls).log|
    requires After(INITIAL, ls).log[q].Fired? && After(INITIAL, ls).log[q].id == k + 1
    ensures var log, x := After(INITIAL, ls).log, Sets(ls)[k];
      log[q].fn == Some(x.fn) && x.at + Calls(log[..q + 1], k + 1) * x.delay < log[q].at
  {
    BirthIsSet(ls, k);
    EveryCallIsLate(ls, q);
    FiredFunction(After(INITIAL, ls).log, After(INITIAL, ls).born, q);
  }

  predicate FiresAt(log: seq<Note>, q: nat, id: int) {
    q < |log| && log[q].Fired? && log[q].id == id
  }

  lemma {:induction false} OneFiring(log: seq<Note>, id: int, q: nat)
    requires FiresAt(log, q, id)
    ensures Calls(log, id) >= 1
    decreases |log|
  {
    if q < |log| - 1 { OneFiring(log[..|log| - 1], id, q); }
  }

  lemma {:induction false} TwoFirings(log: seq<Note>, id: int, p: nat, q: nat)
    requires p < q && FiresAt(log, p, id) && FiresAt(log, q, id)
    ensures Calls(log, id) >= 2
    decreases |log|
  {
    var prior := log[..|log| - 1];
    if q < |log| - 1 {
      TwoFirings(prior, id, p, q);
    } else {
      OneFiring(prior, id, p);
    }
  }

  /** A timer set by `setTimeout` fires at most once: once it has been called in a run, it is not called again. */
  lemma OneShotFiresOnce(ls: seq<Label>, k: nat, p: nat, q: nat)
    requires IsRun(INITIAL, ls) && k < |Sets(ls)| && Sets(ls)[k].Set? && Sets(ls)[k].oneShot
    requires p < q < |After(INITIAL, ls).log|
    requires After(INITIAL, ls).log[p].Fired? && After(INITIAL, ls).log[p].id == k + 1
    ensures !(After(INITIAL, ls).log[q].Fired? && After(INITIAL, ls).log[q].id == k + 1)
  {
    var log := After(INITIAL, ls).log;
    BirthIsSet(ls, k);
    OneShotCalls(log, After(INITIAL, ls).born, k + 1);
    if log[q].Fired? && log[q].id == k + 1 { TwoFirings(log, k + 1, p, q); }
  }

  lemma {:induction false} FiredFunction(log: seq<Note>, born: map<int, Birth>, q: nat)
    requires Sound(log, born) && q < |log| && log[q].Fired?
    ensures log[q].id in born && log[q].fn == Some(born[log[q].id].fn)
    decreases |log|
  {
    if q == |log| - 1 {
    } else {
      FiredFunction(log[..|log| - 1], born, q);
    }
  }
}
