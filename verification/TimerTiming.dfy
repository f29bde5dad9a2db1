/** How early a callback may run: never before its delay, and the k-th call not before k delays. */
module TimerTiming {
  import opened StableSort
  import opened TimerModel
  import opened TimerLife
  import opened TimerHistory

  /** How many times `id` has fired. */
  function Calls(log: seq<Note>, id: int): nat
    decreases |log|
  {
    if log == [] then 0
    else
      var last := log[|log| - 1];
      Calls(log[..|log| - 1], id) + if last.Fired? && last.id == id then 1 else 0
  }

  /** The time after which the `n`-th call of a timer may come. */
  function Earliest(b: Birth, n: int): int {
    b.at + n * b.delay
  }

  /** The time after which the next call of `id` may come. */
  function Floor(s: State, id: int): int {
    if id in s.born then Earliest(s.born[id], Calls(s.log, id) + 1) else 0
  }

  /** The k-th firing of every timer comes strictly later than its creation plus k delays. */
  ghost predicate Late(log: seq<Note>, born: map<int, Birth>)
    decreases |log|
  {
    log == [] ||
    (var last := log[|log| - 1];
     Late(log[..|log| - 1], born) &&
     (last.Fired? ==> last.id in born && Earliest(born[last.id], Calls(log, last.id)) < last.at))
  }

  ghost predicate ListOnTime(s: State) {
    forall e <- s.list ::
      e.item.id in s.armed && e.key == s.armed[e.item.id] + e.item.delay && Floor(s, e.item.id) <= e.key
  }

  ghost predicate QueueOnTime(s: State) {
    forall t <- s.queue ::
      t.id in s.armed && s.armed[t.id] + t.delay < s.clock && Floor(s, t.id) < s.clock
  }

  ghost predicate OnTime(s: State) {
    Late(s.log, s.born) && ListOnTime(s) && QueueOnTime(s)
  }

  // ---------- logs ----------

  lemma {:induction false} CallsGrow(log: seq<Note>, more: seq<Note>, id: int)
    requires log <= more && forall q :: |log| <= q < |more| ==> more[q].Fired? ==> more[q].id != id
    ensures Calls(more, id) == Calls(log, id)
    decreases |more|
  {
    if |log| < |more| {
      assert log <= more[..|more| - 1];
      CallsGrow(log, more[..|more| - 1], id);
    } else {
      assert log == more;
    }
  }

  lemma {:induction false} NoCalls(log: seq<Note>, id: int)
    requires forall n <- log :: n.id != id
    ensures Calls(log, id) == 0
    decreases |log|
  {
    if log == [] {
    } else {
      assert log[|log| - 1] in log;
      NoCalls(log[..|log| - 1], id);
    }
  }

  lemma {:induction false} LateGrows(log: seq<Note>, more: seq<Note>, born: map<int, Birth>, after: map<int, Birth>)
    requires Late(log, born) && log <= more && forall q :: |log| <= q < |more| ==> !more[q].Fired?
    requires forall id <- born :: id in after && after[id] == born[id]
    ensures Late(more, after)
    decreases |more|
  {
    if |log| < |more| {
      assert log <= more[..|more| - 1];
      LateGrows(log, more[..|more| - 1], born, after);
    } else if log != [] {
      assert log == more;
      LateGrows(log[..|log| - 1], more[..|more| - 1], born, after);
    }
  }

  /** Notes that are no firing change no floor and keep a log late. */
  lemma QuietNotes(s: State, r: State)
    requires Late(s.log, s.born) && r.born == s.born
    requires s.log <= r.log && forall q :: |s.log| <= q < |r.log| ==> !r.log[q].Fired?
    ensures Late(r.log, r.born)
    ensures forall id :: Floor(r, id) == Floor(s, id)
  {
    LateGrows(s.log, r.log, s.born, r.born);
    forall id ensures Floor(r, id) == Floor(s, id) { CallsGrow(s.log, r.log, id); }
  }

  lemma FloorKept(s: State, r: State, id: int)
    requires s.log <= r.log && forall q :: |s.log| <= q < |r.log| ==> !r.log[q].Fired?
    requires id in s.born && id in r.born && r.born[id] == s.born[id]
    ensures Floor(r, id) == Floor(s, id)
  {
    CallsGrow(s.log, r.log, id);
  }

  // ---------- steps ----------

  /** A timer posted at `at` is on time, and the others stay so. */
  lemma PostOnTime(s: State, t: Timer, at: int)
    requires Sorted(s.list) && OnTime(s) && s.clock <= at && t.id > 0
    requires t.id !in ListIds(s.list) && t.id !in QueueIds(s.queue)
    requires Floor(s, t.id) <= at + t.delay
    ensures OnTime(PostEvent(s, t, at))
  {
    var r := PostEvent(s, t, at);
    ListInserted(s.list, Keyed(at + t.delay, t));
    assert forall id :: Floor(r, id) == Floor(s, id);
    forall e | e in s.list ensures e.item.id != t.id { assert e.item.id in ListIds(s.list); }
    forall u | u in s.queue ensures u.id != t.id { assert u.id in QueueIds(s.queue); }
  }

  /** Giving birth to an id that nothing mentions yet. */
  lemma BirthOnTime(s: State, id: int, b: Birth, fn: Fn)
    requires OnTime(s) && id !in s.born
    requires id !in ListIds(s.list) && id !in QueueIds(s.queue)
    requires forall n <- s.log :: n.id != id
    ensures OnTime(s.(lastId := id, born := s.born[id := b], refs := s.refs[id := fn]))
    ensures Floor(s.(lastId := id, born := s.born[id := b], refs := s.refs[id := fn]), id) == Earliest(b, 1)
  {
    var r := s.(lastId := id, born := s.born[id := b], refs := s.refs[id := fn]);
    LateGrows(s.log, s.log, s.born, r.born);
    NoCalls(s.log, id);
    forall e | e in s.list ensures e.item.id != id { assert e.item.id in ListIds(s.list); }
    forall u | u in s.queue ensures u.id != id { assert u.id in QueueIds(s.queue); }
    assert forall i :: i != id ==> Floor(r, i) == Floor(s, i);
  }

  lemma SetOnTime(s: State, held: set<int>, fn: Fn, delay: int, oneShot: bool, at: int)
    requires Alive(s, held) && Told(s, held) && OnTime(s) && s.clock <= at
    ensures OnTime(SetTimer(s, fn, delay, oneShot, at))
  {
    var id, b := s.lastId + 1, Birth(at, delay, oneShot, fn);
    NoNews(s);
    BirthOnTime(s, id, b, fn);
    var p := s.(lastId := id, born := s.born[id := b], refs := s.refs[id := fn]);
    PostOnTime(p, Timer(id, delay, oneShot, false), at);
    assert SetTimer(s, fn, delay, oneShot, at) == PostEvent(p, Timer(id, delay, oneShot, false), at);
  }

  lemma CancelOnTime(s: State, id: int)
    requires OnTime(s)
    ensures OnTime(CancelEvent(s, id))
  {
    if Cancels(s, id) {
      var r := CancelEvent(s, id);
      QuietNotes(s, r);
      assert ListOnTime(r) by { MarkedOnTime(s, r, Find(s.list, id)); }
      assert QueueOnTime(r);
    }
  }

  lemma MarkedOnTime(s: State, r: State, n: nat)
    requires ListOnTime(s) && n < |s.list| && r.list == MarkRemoved(s.list, n) && r.armed == s.armed
    requires forall id :: Floor(r, id) == Floor(s, id)
    ensures ListOnTime(r)
  {
    forall e | e in r.list
      ensures e.item.id in r.armed && e.key == r.armed[e.item.id] + e.item.delay && Floor(r, e.item.id) <= e.key
    {
      var i :| 0 <= i < |r.list| && r.list[i] == e;
      assert s.list[i] in s.list;
    }
  }

  lemma {:induction false} OpsOnTime(s: State, held: set<int>, ops: seq<Op>)
    requires Alive(s, held) && Told(s, held) && OnTime(s) && InTime(s.clock, ops)
    ensures OnTime(DoOps(s, ops)) && DoOps(s, ops).clock == EndOf(s.clock, ops) >= s.clock
    decreases |ops|
  {
    if ops == [] {
    } else {
      var before, last := ops[..|ops| - 1], ops[|ops| - 1];
      OpsOnTime(s, held, before);
      OpsKeepAlive(s, held, before);
      OpsTold(s, held, before);
      match last
      case Set(fn, delay, oneShot, at) => SetOnTime(DoOps(s, before), held, fn, delay, oneShot, at);
      case Clear(id) => CancelOnTime(DoOps(s, before), id);
    }
  }

  /** What a turn of the loop in `checkTimeouts` changes when it takes an entry. */
  lemma PassEffects(s: State, now: int)
    requires Takes(s, now)
    ensures var r, t := CheckPass(s, now), s.list[0].item;
      && r.list == s.list[1..] && (r.queue == s.queue || r.queue == s.queue + [t])
      && (r.queue != s.queue ==> s.list[0].key < now)
      && r.log == s.log + [if t.removed then Collected(t.id) else Queued(t.id)]
      && r.armed == s.armed && r.born == s.born && r.clock == s.clock
  {}

  lemma TailOnTime(s: State, r: State)
    requires ListOnTime(s) && s.list != [] && r.list == s.list[1..] && r.armed == s.armed
    requires forall id :: Floor(r, id) == Floor(s, id)
    ensures ListOnTime(r)
  {
    forall e | e in r.list
      ensures e.item.id in r.armed && e.key == r.armed[e.item.id] + e.item.delay && Floor(r, e.item.id) <= e.key
    {
      assert e in s.list;
    }
  }

  lemma QueuedOnTime(s: State, r: State, e: Entry)
    requires ListOnTime(s) && QueueOnTime(s) && e in s.list && e.key < s.clock
    requires r.queue == s.queue + [e.item] && r.armed == s.armed && r.clock == s.clock
    requires forall id :: Floor(r, id) == Floor(s, id)
    ensures QueueOnTime(r)
  {
    forall t | t in r.queue ensures t.id in r.armed && r.armed[t.id] + t.delay < r.clock && Floor(r, t.id) < r.clock {
      assert t in s.queue || t == e.item;
    }
  }

  lemma PassOnTime(s: State)
    requires OnTime(s)
    ensures OnTime(CheckPass(s, s.clock))
  {
    if Takes(s, s.clock) {
      PassEffects(s, s.clock);
      TakenOnTime(s, CheckPass(s, s.clock));
    }
  }

  lemma TakenOnTime(s: State, r: State)
    requires OnTime(s) && s.list != [] && r.list == s.list[1..]
    requires r.armed == s.armed && r.born == s.born && r.clock == s.clock
    requires |r.log| == |s.log| + 1 && s.log <= r.log && !r.log[|s.log|].Fired?
    requires r.queue == s.queue || (r.queue == s.queue + [s.list[0].item] && s.list[0].key < s.clock)
    ensures OnTime(r)
  {
    QuietNotes(s, r);
    TailOnTime(s, r);
    if r.queue != s.queue { QueuedOnTime(s, r, s.list[0]); }
  }

  lemma {:induction false} PassesOnTime(s: State, n: nat)
    requires OnTime(s)
    ensures OnTime(CheckPasses(s, s.clock, n)) && CheckPasses(s, s.clock, n).clock == s.clock
    decreases n
  {
    if n == 0 {
    } else {
      PassesOnTime(s, n - 1);
      PassOnTime(CheckPasses(s, s.clock, n - 1));
    }
  }

  lemma StartCalls(log: seq<Note>, m: Note, i: int)
    ensures Calls(log + [m], i) == Calls(log, i) + if m.Fired? && m.id == i then 1 else 0
  {
    assert (log + [m])[..|log|] == log;
  }

  lemma StartFloors(s: State, at: int)
    requires s.queue != [] && s.queue[0].id in s.refs && s.queue[0].id in s.born && Late(s.log, s.born)
    requires Floor(s, s.queue[0].id) < at
    ensures var t, r := s.queue[0], Started(s, at);
      && Late(r.log, r.born)
      && Floor(r, t.id) == Floor(s, t.id) + s.born[t.id].delay
      && forall i :: i != t.id ==> Floor(r, i) == Floor(s, i)
  {
    var t, r := s.queue[0], Started(s, at);
    assert r.log[..|s.log|] == s.log;
    forall i ensures Calls(r.log, i) == Calls(s.log, i) + if i == t.id then 1 else 0 {
      StartCalls(s.log, r.log[|s.log|], i);
    }
    NextEarliest(s.born[t.id], Calls(r.log, t.id));
  }

  /** A firing raises the floor of its timer by one delay, and comes after the old floor. */
  lemma StartOnTime(s: State, at: int)
    requires Alive(s, {}) && Told(s, {}) && OnTime(s) && s.queue != [] && s.clock <= at
    requires s.queue[0].id in s.refs
    ensures OnTime(Started(s, at))
    ensures Floor(Started(s, at), s.queue[0].id) < at + s.queue[0].delay
  {
    var t, r := s.queue[0], Started(s, at);
    assert t in s.queue && Agrees(t, s.born);
    StartFloors(s, at);
    TakeKeepsAlive(s);
    assert ListOnTime(r) by {
      forall e | e in s.list ensures e.item.id != t.id { assert e.item.id in ListIds(s.list); }
    }
    assert QueueOnTime(r) by {
      forall u | u in r.queue ensures u.id != t.id { assert u.id in QueueIds(r.queue); }
    }
  }

  lemma NextEarliest(b: Birth, n: int)
    ensures Earliest(b, n + 1) == Earliest(b, n) + b.delay
  {}

  lemma RunNextOnTime(s: State, at: int, ops: seq<Op>, rearmAt: int)
    requires Alive(s, {}) && Told(s, {}) && OnTime(s) && Enabled(s, RunFront(at, ops, rearmAt))
    ensures OnTime(RunNext(s, at, ops, rearmAt))
  {
    var t := s.queue[0];
    assert t in s.queue && Agrees(t, s.born);
    FrontRuns(s, at, ops, rearmAt);
    StartTold(s, at);
    StartOnTime(s, at);
    var started := Started(s, at);
    OpsOnTime(started, {t.id}, ops);
    OpsKeep(started, ops);
    FloorKept(started, DoOps(started, ops), t.id);
    CallEndOnTime(DoOps(started, ops), t, rearmAt);
  }

  lemma CallEndOnTime(s: State, t: Timer, rearmAt: int)
    requires Alive(s, {t.id}) && OnTime(s) && s.clock <= rearmAt && t.id > 0
    requires Floor(s, t.id) <= rearmAt + t.delay
    ensures OnTime(PostEvent(s, t, rearmAt))
    ensures OnTime(Release(s, t.(removed := true)))
  {
    PostOnTime(s, t, rearmAt);
    var r := Release(s, t.(removed := true));
    QuietNotes(s, r);
  }

  lemma StepOnTime(s: State, l: Label)
    requires Alive(s, {}) && Told(s, {}) && OnTime(s) && Enabled(s, l)
    ensures OnTime(Next(s, l))
  {
    match l
    case Host(Set(fn, delay, oneShot, at)) => SetOnTime(s, {}, fn, delay, oneShot, at);
    case Host(Clear(id)) => CancelOnTime(s, id);
    case Check(now) =>
      assert OnTime(s.(clock := now)) by {
        forall i ensures Floor(s.(clock := now), i) == Floor(s, i) {}
      }
      PassesOnTime(s.(clock := now), MAX_EXPIRYS);
    case RunFront(at, ops, rearmAt) => RunNextOnTime(s, at, ops, rearmAt);
  }

  lemma {:induction false} RunOnTime(s: State, ls: seq<Label>)
    requires Alive(s, {}) && Told(s, {}) && OnTime(s) && IsRun(s, ls)
    ensures OnTime(After(s, ls))
    decreases |ls|
  {
    if ls == [] {
    } else {
      RunOnTime(s, ls[..|ls| - 1]);
      RunTold(s, ls[..|ls| - 1]);
      StepOnTime(After(s, ls[..|ls| - 1]), ls[|ls| - 1]);
    }
  }

  lemma {:induction false} LateAt(log: seq<Note>, born: map<int, Birth>, q: nat)
    requires Late(log, born) && q < |log| && log[q].Fired?
    ensures log[q].id in born
    ensures Earliest(born[log[q].id], Calls(log[..q + 1], log[q].id)) < log[q].at
    decreases |log|
  {
    if q < |log| - 1 {
      LateAt(log[..|log| - 1], born, q);
      assert log[..|log| - 1][..q + 1] == log[..q + 1];
    } else {
      assert log[..q + 1] == log;
    }
  }

  /** In every run the k-th call of a timer comes strictly later than its creation plus k delays. */
  lemma EveryCallIsLate(ls: seq<Label>, q: nat)
    requires IsRun(INITIAL, ls)
    requires q < |After(INITIAL, ls).log| && After(INITIAL, ls).log[q].Fired?
    ensures var s := After(INITIAL, ls);
            var id, k := s.log[q].id, Calls(s.log[..q + 1], s.log[q].id);
            id in s.born && s.born[id].at + k * s.born[id].delay < s.log[q].at
  {
    RunOnTime(INITIAL, ls);
    LateAt(After(INITIAL, ls).log, After(INITIAL, ls).born, q);
  }

  /** In every run a callback starts strictly more than its delay after the timer was last posted. */
  lemma WaitsFullDelay(ls: seq<Label>, at: int, ops: seq<Op>, rearmAt: int)
    requires IsRun(INITIAL, ls) && Enabled(After(INITIAL, ls), RunFront(at, ops, rearmAt))
    ensures var s := After(INITIAL, ls);
            s.queue[0].id in s.armed && s.armed[s.queue[0].id] + s.queue[0].delay < at
  {
    RunOnTime(INITIAL, ls);
    assert After(INITIAL, ls).queue[0] in After(INITIAL, ls).queue;
  }
}
