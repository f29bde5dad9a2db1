/**
 * The timer objects in the source's own form: timeout events that are updated in place, the handler
 * with its sorted list, and the loop pass that runs them. Every method is tied to the machine of
 * module TimerModel, and the handler carries the run of that machine it has been through.
 */
module SetTimeout {
  import opened Wrappers
  import opened StableSort
  import opened EventLoops
  import opened TimerModel
  import opened TimerLife
  import opened TimerHistory

  /** A clock that never goes back; how far it moves between two readings is not known. */
  class SteadyClock {
    var reading: int

    /** All readings so far. */
    ghost var readings: seq<int>

    constructor ()
      ensures reading == 0 && readings == []
    {
      reading, readings := 0, [];
    }

    method Now() returns (t: int)
      modifies this
      ensures old(reading) <= t == reading && readings == old(readings) + [t]
    {
      t :| reading <= t;
      reading, readings := t, readings + [t];
    }
  }

  class TimeoutEvent {
    const delay: int
    const oneShot: bool
    var id: int
    var removed: bool

    ghost function View(): Timer
      reads this
    {
      Timer(id, delay, oneShot, removed)
    }

    constructor (delay: int, oneShot: bool)
      ensures View() == Timer(-1, delay, oneShot, false)
    {
      this.delay, this.oneShot := delay, oneShot;
      id, removed := -1, false;
    }
  }

  lemma {:induction false} SameUpperBound<S, T>(a: seq<Keyed<S>>, b: seq<Keyed<T>>, k: int)
    requires |a| == |b| && forall i :: 0 <= i < |a| ==> a[i].key == b[i].key
    ensures UpperBound(a, k) == UpperBound(b, k)
  {
    if a == [] {
    } else {
      SameUpperBound(a[1..], b[1..], k);
    }
  }

  /** `r` is `a` with `x` at place `n`. */
  ghost predicate Inserted<T>(a: seq<T>, n: nat, x: T, r: seq<T>) {
    && n <= |a| && |r| == |a| + 1 && r[n] == x
    && (forall i :: 0 <= i < n ==> r[i] == a[i])
    && (forall i :: n < i < |r| ==> r[i] == a[i - 1])
  }

  lemma InsertedByParts<T>(a: seq<T>, n: nat, x: T)
    requires n <= |a|
    ensures Inserted(a, n, x, a[..n] + [x] + a[n..])
  {}

  lemma SortInserts<T>(a: seq<Keyed<T>>, x: Keyed<T>)
    requires Sorted(a)
    ensures Inserted(a, UpperBound(a, x.key), x, ListSort(a + [x]))
  {
    AppendThenSort(a, x);
    InsertedByParts(a, UpperBound(a, x.key), x);
  }

  /** Two lists with the same keys take a new element of the same key at the same place. */
  lemma SamePlace<S, T>(a: seq<Keyed<S>>, x: Keyed<S>, b: seq<Keyed<T>>, y: Keyed<T>)
    requires |a| == |b| && forall i :: 0 <= i < |a| ==> a[i].key == b[i].key
    requires Sorted(a) && x.key == y.key
    ensures Sorted(b)
    ensures Inserted(a, UpperBound(a, x.key), x, ListSort(a + [x]))
    ensures Inserted(b, UpperBound(a, x.key), y, ListSort(b + [y]))
  {
    SameUpperBound(a, b, x.key);
    SortInserts(a, x);
    SortInserts(b, y);
  }

  /** `r` has the elements of `es` and `x`. */
  ghost predicate Joins<T>(es: seq<T>, x: T, r: seq<T>) {
    |r| == |es| + 1 && x in r && (forall e <- es :: e in r) && forall e <- r :: e in es || e == x
  }

  /** The timer list with one more element, sorted again; `list` is what the machine knows of it. */
  method AppendAndSort(es: seq<Keyed<TimeoutEvent>>, x: Keyed<TimeoutEvent>, ghost list: seq<Entry>)
    returns (r: seq<Keyed<TimeoutEvent>>, ghost after: seq<Entry>)
    requires Sorted(list) && |list| == |es|
    requires forall i :: 0 <= i < |es| ==> list[i] == Keyed(es[i].key, es[i].item.View())
    ensures Joins(es, x, r)
    ensures after == ListSort(list + [Keyed(x.key, x.item.View())]) && |after| == |r|
    ensures forall i :: 0 <= i < |r| ==> after[i] == Keyed(r[i].key, r[i].item.View())
  {
    assert Sorted(es) by {
      forall i, j | 0 <= i < j < |es| ensures es[i].key <= es[j].key { assert list[i].key <= list[j].key; }
    }
    SamePlace(es, x, list, Keyed(x.key, x.item.View()));
    ListInserted(es, x);
    SortInserts(es, x);
    r := ListSort(es + [x]);
    after := ListSort(list + [Keyed(x.key, x.item.View())]);
  }

  /** An argument of a call from a script, as far as the timer functions look at it. */
  datatype JsArg = FunctionArg(fn: Fn) | NumberArg(n: int) | OtherArg

  /** What a script may call; it may go on after a call that threw. */
  datatype Call =
    | SetTimeoutCall(args: seq<JsArg>)
    | SetIntervalCall(args: seq<JsArg>)
    | ClearTimeoutCall(args: seq<JsArg>)
    | ClearIntervalCall(args: seq<JsArg>)

  predicate SetArgsOk(args: seq<JsArg>) {
    2 <= |args| && args[0].FunctionArg? && args[1].NumberArg?
  }

  /** The operation that a call amounts to; none if it throws. */
  function OpOf(c: Call, at: int): Option<Op> {
    match c
    case SetTimeoutCall(args) => if SetArgsOk(args) then Some(Set(args[0].fn, args[1].n, true, at)) else None
    case SetIntervalCall(args) => if SetArgsOk(args) then Some(Set(args[0].fn, args[1].n, false, at)) else None
    case _ => if c.args != [] && c.args[0].NumberArg? then Some(Clear(c.args[0].n)) else None
  }

  /** A set needs a function and a number, a clear a number; only a set by `setTimeout` is a one-shot. */
  lemma CallsMean(args: seq<JsArg>, at: int)
    ensures var fine := 2 <= |args| && args[0].FunctionArg? && args[1].NumberArg?;
      && OpOf(SetTimeoutCall(args), at) == (if fine then Some(Set(args[0].fn, args[1].n, true, at)) else None)
      && OpOf(SetIntervalCall(args), at) == (if fine then Some(Set(args[0].fn, args[1].n, false, at)) else None)
    ensures forall c <- [ClearTimeoutCall(args), ClearIntervalCall(args)] ::
      OpOf(c, at) == if 1 <= |args| && args[0].NumberArg? then Some(Clear(args[0].n)) else None
  {}

  function AsOps(op: Option<Op>): seq<Op> {
    if op.Some? then [op.value] else []
  }

  /** The operations of a script whose calls are made at the times `ats`. */
  function OpsAt(script: seq<Call>, ats: seq<int>): seq<Op>
    requires |ats| == |script|
  {
    if script == [] then []
    else OpsAt(script[..|script| - 1], ats[..|ats| - 1]) + AsOps(OpOf(script[|script| - 1], ats[|ats| - 1]))
  }

  /** `ops` is what the calls of `script` do, one after the other, at some times. */
  ghost predicate Carried(script: seq<Call>, ops: seq<Op>) {
    exists ats: seq<int> :: |ats| == |script| && ops == OpsAt(script, ats)
  }

  lemma PrefixMore<T>(s: seq<T>, i: nat)
    requires i < |s|
    ensures s[..i + 1] == s[..i] + [s[i]]
  {}

  lemma NothingCarried()
    ensures Carried([], [])
  {
    var none: seq<int> := [];
    assert |none| == 0 && OpsAt([], none) == [];
  }

  lemma CarriedMore(script: seq<Call>, ops: seq<Op>, call: Call, at: int)
    requires Carried(script, ops)
    ensures Carried(script + [call], ops + AsOps(OpOf(call, at)))
  {
    var ats: seq<int> :| |ats| == |script| && ops == OpsAt(script, ats);
    var all, more := script + [call], ats + [at];
    assert all[..|all| - 1] == script && more[..|more| - 1] == ats;
    assert OpsAt(all, more) == ops + AsOps(OpOf(call, at));
  }

  /** What a script's function does when it is called as the n-th callback of all. */
  type Program = (Fn, nat) -> seq<Call>

  /** How many timers fire in a run. */
  function Firings(ls: seq<Label>): nat
    decreases |ls|
  {
    if ls == [] then 0 else Firings(ls[..|ls| - 1]) + if ls[|ls| - 1].RunFront? then 1 else 0
  }

  /** In every firing of the run the function found under the timer's id was called and did what it does. */
  ghost predicate Faithful(program: Program, ls: seq<Label>)
    decreases |ls|
  {
    ls == [] ||
    (var before, l := ls[..|ls| - 1], ls[|ls| - 1];
     Faithful(program, before) && IsRun(INITIAL, before) &&
     (l.RunFront? ==>
        var s := After(INITIAL, before);
        s.queue != [] && s.queue[0].id in s.refs &&
        Carried(program(s.refs[s.queue[0].id], Firings(before)), l.ops)))
  }

  function DoIf(s: State, op: Option<Op>): State {
    if op.Some? then DoOp(s, op.value) else s
  }

  /** The runners of the loop: the timer check, and others of which nothing is known. */
  datatype Runner = TimerCheck | OtherRunner(tag: nat)

  /** The runners of a loop in the order of its list. */
  function Runners(rs: seq<Keyed<Runner>>): (r: seq<Runner>)
    ensures |r| == |rs| && forall i :: 0 <= i < |rs| ==> r[i] == rs[i].item
  {
    seq(|rs|, i requires 0 <= i < |rs| => rs[i].item)
  }

  function Times<T>(n: nat, xs: seq<T>): seq<T> {
    if n == 0 then [] else Times(n - 1, xs) + xs
  }

  lemma TimesMore<T>(before: seq<T>, n: nat, xs: seq<T>, after: seq<T>)
    requires after == before + Times(n, xs) + xs
    ensures after == before + Times(n + 1, xs)
    ensures Times(0, xs) == []
  {}

  /** The part of a run that one pass of the loop makes. */
  datatype Pass = Pass(checks: seq<Label>, firings: seq<Label>)

  /** Checks of the timers, at least one if the timer check is `registered`, then firings. */
  ghost predicate IsPass(p: Pass, registered: bool) {
    && (forall l <- p.checks :: l.Check?) && (registered ==> p.checks != [])
    && (forall l <- p.firings :: l.RunFront?)
  }

  function Joined(passes: seq<Pass>): seq<Label> {
    if passes == [] then []
    else
      var last := passes[|passes| - 1];
      Joined(passes[..|passes| - 1]) + (last.checks + last.firings)
  }

  lemma JoinedMore(before: seq<Label>, passes: seq<Pass>, p: Pass, after: seq<Label>)
    requires after == before + Joined(passes) + (p.checks + p.firings)
    ensures after == before + Joined(passes + [p])
    ensures Joined([]) == []
  {
    assert (passes + [p])[..|passes|] == passes;
    assert Joined(passes + [p]) == Joined(passes) + (p.checks + p.firings);
  }

  /** The run went from `before` to `after` and the calls of runners from `called` to `calls` in these passes. */
  ghost predicate Passed(before: seq<Label>, passes: seq<Pass>, after: seq<Label>,
                         called: seq<Runner>, runners: seq<Runner>, calls: seq<Runner>) {
    && after == before + Joined(passes) && calls == called + Times(|passes|, runners)
    && forall p <- passes :: IsPass(p, TimerCheck in runners)
  }

  lemma PassedMore(before: seq<Label>, passes: seq<Pass>, after: seq<Label>,
                   called: seq<Runner>, runners: seq<Runner>, calls: seq<Runner>, p: Pass)
    requires Passed(before, passes, after, called, runners, calls) && IsPass(p, TimerCheck in runners)
    ensures Passed(before, passes + [p], after + (p.checks + p.firings), called, runners, calls + runners)
  {
    JoinedMore(before, passes, p, after + (p.checks + p.firings));
    TimesMore(called, |passes|, runners, calls + runners);
  }

  lemma CutPass(t: seq<Label>, from: nat, middle: nat, registered: bool)
    requires from <= middle <= |t| && (registered ==> from < middle)
    requires (forall i :: from <= i < middle ==> t[i].Check?) && forall i :: middle <= i < |t| ==> t[i].RunFront?
    ensures t == t[..from] + (t[from..middle] + t[middle..])
    ensures IsPass(Pass(t[from..middle], t[middle..]), registered)
  {}

  /** `timeout` is not after any deadline in the list. */
  ghost predicate NotAfter(timeout: int, list: seq<Entry>) {
    forall e <- list :: timeout <= e.key
  }

  lemma NextIsFirst(ls: seq<Label>)
    requires IsRun(INITIAL, ls)
    ensures var s := After(INITIAL, ls);
      forall e <- s.list :: NextDeadline(s).Some? && NextDeadline(s).value <= e.key
  {
    AlwaysAlive(ls);
  }

  lemma FrontIsAlive(ls: seq<Label>, s: State)
    requires IsRun(INITIAL, ls) && After(INITIAL, ls) == s && s.queue != []
    ensures Alive(s.(queue := s.queue[1..]), {s.queue[0].id})
    ensures s.queue[0].id in s.refs && s.queue[0].id > 0 && !s.queue[0].removed
  {
    AlwaysAlive(ls);
    TakeKeepsAlive(s);
    FrontRuns(s, s.clock, [], s.clock);
  }

  /** The state after an event has been inserted. */
  ghost function Listed(s: State, u: Timer, at: int): State {
    s.(clock := at, armed := s.armed[u.id := at], list := ListSort(s.list + [Keyed(at + u.delay, u)]),
       rank := s.rank[u.id := s.posts], posts := s.posts + 1)
  }

  lemma PostInTwoSteps(s: State, t: Timer, at: int)
    ensures var isNew := t.id <= 0;
            var u, last := if isNew then t.(id := s.lastId + 1) else t, if isNew then s.lastId + 1 else s.lastId;
            TimerModel.PostEvent(s, t, at) == Listed(s.(lastId := last), u, at)
  {}

  lemma OnePassMore(start: State, now: int, n: nat, s: State, r: State)
    requires s == CheckPasses(start, now, n) && r == CheckPass(s, now)
    ensures r == CheckPasses(start, now, n + 1)
    ensures r.clock == s.clock
  {}

  /** A timer that the loop has taken, applied and released. */
  ghost function Served(s: State, t: Timer, at: int, ops: seq<Op>, rearmAt: int): State {
    var (p, u) := TimerModel.Apply(s, t, at, ops, rearmAt);
    TimerModel.Release(p, u)
  }

  lemma ServedIsNext(s: State, at: int, ops: seq<Op>, rearmAt: int)
    requires s.queue != [] && s.clock <= at && InTime(at, ops) && EndOf(at, ops) <= rearmAt
    ensures Enabled(s, RunFront(at, ops, rearmAt))
    ensures Next(s, RunFront(at, ops, rearmAt)) == Served(s.(queue := s.queue[1..]), s.queue[0], at, ops, rearmAt)
  {}

  class SetTimeoutHandler {
    const loop: EventLoop<TimeoutEvent, Runner>
    const clock: SteadyClock
    const program: Program
    var events: seq<Keyed<TimeoutEvent>>
    var id: int
    var refs: map<int, Fn>

    /** How many callbacks were called. */
    var runs: nat

    /** What this object is in the machine, histories included. */
    ghost var state: State

    /** Every timeout event this handler ever had to do with. */
    ghost var timers: set<TimeoutEvent>

    /** The run of the machine this object has been through. */
    ghost var trace: seq<Label>

    /** The runners that were called, in order. */
    ghost var calls: seq<Runner>

    /** What they returned. */
    ghost var answers: seq<Option<int>>

    ghost predicate MirrorsList()
      reads this, timers
    {
      && (forall e <- events :: e.item in timers)
      && |state.list| == |events|
      && (forall i :: 0 <= i < |events| ==> state.list[i] == Keyed(events[i].key, events[i].item.View()))
    }

    ghost predicate MirrorsQueue()
      reads this, loop, timers
    {
      && (forall t <- loop.events :: t in timers)
      && |state.queue| == |loop.events|
      && (forall i :: 0 <= i < |loop.events| ==> state.queue[i] == loop.events[i].View())
    }

    ghost predicate Mirrors()
      reads this, loop, timers
    {
      MirrorsList() && MirrorsQueue() && state.refs == refs && state.lastId == id
    }

    /** What holds whenever no callback is being executed. */
    ghost predicate Valid()
      reads this, loop, clock, timers
    {
      && loop.Valid() && Mirrors() && state.clock <= clock.reading
      && IsRun(INITIAL, trace) && After(INITIAL, trace) == state
      && Faithful(program, trace) && runs == Firings(trace)
    }

    constructor (loop: EventLoop<TimeoutEvent, Runner>, clock: SteadyClock, program: Program)
      requires loop.Valid() && loop.events == [] && 0 <= clock.reading
      ensures this.loop == loop && this.clock == clock && this.program == program
      ensures state == INITIAL && trace == [] && Valid()
    {
      this.loop, this.clock, this.program := loop, clock, program;
      events, id, refs, runs := [], 0, map[], 0;
      state, timers, trace, calls, answers := INITIAL, {}, [], [], [];
    }

    /** A new event gets the next id, one that is posted again keeps its own. */
    method GiveId(event: TimeoutEvent)
      requires Mirrors() && event !in loop.events && forall e <- events :: e.item != event
      modifies this`id, this`state, event`id
      ensures Mirrors()
      ensures event.id == if old(event.id) <= 0 then old(id) + 1 else old(event.id)
      ensures id == if old(event.id) <= 0 then old(id) + 1 else old(id)
      ensures state == old(state).(lastId := id) && event.removed == old(event.removed)
    {
      if event.id <= 0 {
        id := id + 1;
        event.id := id;
      }
      state := state.(lastId := id);
    }

    method PostEvent(event: TimeoutEvent) returns (newId: int)
      requires Mirrors() && Sorted(state.list) && state.clock <= clock.reading
      requires event !in loop.events && forall e <- events :: e.item != event
      modifies this`events, this`id, this`state, this`timers, event`id, clock, loop`wakeups
      ensures old(clock.readings) <= clock.readings
      ensures Mirrors()
      ensures old(clock.reading) <= state.clock == clock.reading
      ensures state == TimerModel.PostEvent(old(state), old(event.View()), state.clock)
      ensures newId == event.id == if old(event.id) <= 0 then old(id) + 1 else old(event.id)
      ensures timers == old(timers) + {event} && loop.wakeups == old(loop.wakeups) + 1
      ensures Joins(old(events), Keyed(clock.reading + event.delay, event), events)
      ensures event.removed == old(event.removed)
    {
      ghost var s, t := state, event.View();
      GiveId(event);
      newId := event.id;
      var now := clock.Now();
      Insert(event, now);
      PostInTwoSteps(s, t, now);
      loop.NotifyChanged();
    }

    /** The event takes its place in the list, behind those with its deadline. */
    method Insert(event: TimeoutEvent, now: int)
      requires Mirrors() && Sorted(state.list)
      modifies this`events, this`state, this`timers
      ensures Mirrors()
      ensures state == Listed(old(state), event.View(), now)
      ensures timers == old(timers) + {event}
      ensures Joins(old(events), Keyed(now + event.delay, event), events)
    {
      var sorted, after := AppendAndSort(events, Keyed(now + event.delay, event), state.list);
      events, timers := sorted, timers + {event};
      state := state.(clock := now, list := after, armed := state.armed[event.id := now],
                      rank := state.rank[event.id := state.posts], posts := state.posts + 1);
      assert MirrorsQueue() && MirrorsList();
    }

    /** No timer object is in two places. */
    lemma DistinctObjects()
      requires Mirrors() && NoRepeats(state.list, state.queue)
      ensures forall i, j :: 0 <= i < j < |events| ==> events[i].item != events[j].item
      ensures forall i, j :: 0 <= i < |events| && 0 <= j < |loop.events| ==> events[i].item != loop.events[j]
      ensures forall i, j :: 0 <= i < j < |loop.events| ==> loop.events[i] != loop.events[j]
    {
      forall i, j | 0 <= i < |events| && 0 <= j < |loop.events| ensures events[i].item != loop.events[j] {
        assert state.list[i].item.id in ListIds(state.list) && state.queue[j].id in QueueIds(state.queue);
      }
      forall i, j | 0 <= i < j < |events| ensures events[i].item != events[j].item {
        assert state.list[i].item.id != state.list[j].item.id;
      }
      forall i, j | 0 <= i < j < |loop.events| ensures loop.events[i] != loop.events[j] {
        assert state.queue[i].id != state.queue[j].id;
      }
    }

    method CancelEvent(id: int) returns (cancelled: bool)
      requires Mirrors() && NoRepeats(state.list, state.queue)
      modifies timers`removed, this`state
      ensures Mirrors()
      ensures state == TimerModel.CancelEvent(old(state), id)
      ensures cancelled <==> exists e <- events :: e.item.id == id
      ensures cancelled <==> id in ListIds(old(state).list)
      ensures forall e <- events :: e.item.removed == (old(e.item.removed) || e.item.id == id)
      ensures forall t <- timers :: (forall e <- events :: e.item != t) ==> t.removed == old(t.removed)
    {
      DistinctObjects();
      FindsExactly(state.list, id);
      var i := 0;
      while i < |events|
        invariant 0 <= i <= |events|
        invariant forall j :: 0 <= j < i ==> state.list[j].item.id != id
      {
        if events[i].item.id == id {
          assert Find(state.list, id) == i;
          events[i].item.removed := true;
          state := TimerModel.CancelEvent(state, id);
          return true;
        }
        i := i + 1;
      }
      assert Find(state.list, id) == |state.list|;
      return false;
    }

    /** The callback of a removed event is forgotten. */
    method Release(event: TimeoutEvent)
      requires Mirrors()
      modifies this`refs, this`state
      ensures Mirrors()
      ensures state == TimerModel.Release(old(state), event.View())
      ensures refs == if event.removed then old(refs) - {event.id} else old(refs)
    {
      state := TimerModel.Release(state, event.View());
      if event.removed {
        refs := refs - {event.id};
      }
    }

    method CheckTimeouts() returns (next: Option<int>)
      requires loop.Valid() && Mirrors()
      modifies this`events, this`refs, this`state, loop`events, loop`posted, loop`wakeups, clock
      ensures old(clock.readings) <= clock.readings
      ensures loop.Valid() && Mirrors()
      ensures old(clock.reading) <= state.clock == clock.reading
      ensures state == TimerModel.CheckTimeouts(old(state), state.clock)
      ensures next == NextDeadline(state)
    {
      var now := clock.Now();
      state := state.(clock := now);
      CheckSome(now);
      next := if events != [] then Some(events[0].key) else None;
    }

    /** The loop of `checkTimeouts`. */
    method CheckSome(now: int)
      requires loop.Valid() && Mirrors()
      modifies this`events, this`refs, this`state, loop`events, loop`posted, loop`wakeups
      ensures loop.Valid() && Mirrors()
      ensures state == CheckPasses(old(state), now, MAX_EXPIRYS) && state.clock == old(state.clock)
    {
      ghost var start := state;
      var sanity := MAX_EXPIRYS;
      ghost var done: nat := 0;
      while sanity > 0
        invariant 0 <= sanity && done + sanity == MAX_EXPIRYS
        invariant loop.Valid() && Mirrors() && state.clock == start.clock
        invariant state == CheckPasses(start, now, done)
      {
        ghost var before := state;
        sanity := sanity - 1;
        CheckOne(now);
        OnePassMore(start, now, done, before, state);
        done := done + 1;
      }
    }

    /** One turn of the loop in `checkTimeouts`. */
    method CheckOne(now: int)
      requires loop.Valid() && Mirrors()
      modifies this`events, this`refs, this`state, loop`events, loop`posted, loop`wakeups
      ensures loop.Valid() && Mirrors()
      ensures state == CheckPass(old(state), now)
    {
      if events != [] && (events[0].item.removed || events[0].key < now) {
        var event := events[0].item;
        ghost var s := state;
        events := events[1..];
        state := s.(list := s.list[1..]);
        if !event.removed {
          loop.PostEvent(event);
          state := CheckPass(s, now);
        } else {
          Release(event);
        }
      }
    }

    /** `new DefaultTimeoutEvent` posted: a timer of its own kind under the next id. */
    method PostNew(delay: int, oneShot: bool) returns (event: TimeoutEvent)
      requires Mirrors() && Sorted(state.list) && state.clock <= clock.reading && 0 <= id
      modifies this`events, this`id, this`state, this`timers, clock, loop`wakeups
      ensures old(clock.readings) <= clock.readings
      ensures Mirrors() && fresh(event) && timers == old(timers) + {event}
      ensures id == old(id) + 1 && event.View() == Timer(id, delay, oneShot, false)
      ensures Joins(old(events), Keyed(clock.reading + delay, event), events)
      ensures old(clock.reading) <= state.clock == clock.reading && loop.wakeups == old(loop.wakeups) + 1
      ensures state == TimerModel.PostEvent(old(state), Timer(-1, delay, oneShot, false), state.clock)
    {
      event := new TimeoutEvent(delay, oneShot);
      var n := PostEvent(event);
    }

    /** Called from a script; `None` is an error thrown back at it, after which nothing has changed. */
    method SetTimeoutBase(args: seq<JsArg>, oneShot: bool) returns (newId: Option<int>)
      requires Mirrors() && Sorted(state.list) && state.clock <= clock.reading && 0 <= id
      modifies this`events, this`id, this`state, this`timers, this`refs, clock, loop`wakeups
      ensures old(clock.readings) <= clock.readings
      ensures Mirrors() && old(timers) <= timers && fresh(timers - old(timers))
      ensures newId.Some? <==> SetArgsOk(args)
      ensures newId.None? ==> state == old(state) && clock.reading == old(clock.reading) && events == old(events)
      ensures newId.None? ==> refs == old(refs) && id == old(id)
      ensures newId.Some? ==>
        && newId.value == id == old(id) + 1 && refs == old(refs)[id := args[0].fn]
        && exists e <- events ::
             && fresh(e.item) && e.item.View() == Timer(id, args[1].n, oneShot, false)
             && e.key == clock.reading + args[1].n && Joins(old(events), e, events)
      ensures newId.Some? ==>
        && old(clock.reading) <= state.clock == clock.reading
        && state == SetTimer(old(state), args[0].fn, args[1].n, oneShot, state.clock)
        && loop.wakeups == old(loop.wakeups) + 1
        && forall e <- events :: e in old(events) || fresh(e.item)
    {
      if |args| < 2 { return None; }
      if !args[0].FunctionArg? { return None; }
      if !args[1].NumberArg? { return None; }
      ghost var s := state;
      var event := PostNew(args[1].n, oneShot);
      refs := refs[event.id := args[0].fn];
      assert Keyed(clock.reading + args[1].n, event) in events;
      state := SetTimer(s, args[0].fn, args[1].n, oneShot, state.clock);
      newId := Some(event.id);
    }

    /** `Some` tells the script whether a waiting timer was cancelled. */
    method ClearTimeoutBase(args: seq<JsArg>) returns (cancelled: Option<bool>)
      requires Mirrors() && NoRepeats(state.list, state.queue)
      modifies timers`removed, this`state
      ensures Mirrors()
      ensures cancelled.Some? <==> args != [] && args[0].NumberArg?
      ensures cancelled.None? ==> state == old(state)
      ensures cancelled.Some? ==>
        state == TimerModel.CancelEvent(old(state), args[0].n) &&
        (cancelled.value <==> args[0].n in ListIds(old(state).list))
      ensures forall t <- timers :: (forall e <- events :: e.item != t) ==> t.removed == old(t.removed)
    {
      if args == [] || !args[0].NumberArg? { return None; }
      var r := CancelEvent(args[0].n);
      cancelled := Some(r);
    }

    /** One call of a script, while the timers `held` are being executed. */
    method Execute(call: Call, ghost held: set<int>) returns (ghost op: Option<Op>)
      requires Mirrors() && Alive(state, held) && state.clock <= clock.reading
      modifies this`events, this`id, this`state, this`timers, this`refs, timers`removed, clock, loop`wakeups
      ensures old(clock.readings) <= clock.readings
      ensures Mirrors() && Alive(state, held) && state.clock <= clock.reading
      ensures old(timers) <= timers && fresh(timers - old(timers))
      ensures old(clock.reading) <= clock.reading && old(state.clock) <= state.clock
      ensures op == OpOf(call, state.clock) && state == DoIf(old(state), op)
      ensures forall t <- old(timers) :: t.id in held ==> t.removed == old(t.removed)
    {
      ghost var s := state;
      forall i | 0 <= i < |events| ensures events[i].item.id !in held {
        assert state.list[i].item.id in ListIds(state.list);
      }
      match call {
        case SetTimeoutCall(args) =>
          var r := SetTimeoutBase(args, true);
        case SetIntervalCall(args) =>
          var r := SetTimeoutBase(args, false);
        case ClearTimeoutCall(args) =>
          var r := ClearTimeoutBase(args);
        case ClearIntervalCall(args) =>
          var r := ClearTimeoutBase(args);
      }
      op := OpOf(call, state.clock);
      if op.Some? { OpKeepsAlive(s, held, op.value); }
    }

    /** What a script that began in `s` has done so far: `script` are its calls and `ops` their operations. */
    ghost predicate Scripted(s: State, script: seq<Call>, ops: seq<Op>)
      reads this
    {
      && state == DoOps(s, ops) && InTime(s.clock, ops) && EndOf(s.clock, ops) == state.clock
      && Carried(script, ops)
    }

    /** One more call of the script of the timer `running`. */
    method CallNext(call: Call, ghost running: TimeoutEvent, ghost s: State, ghost script: seq<Call>,
                    ghost ops: seq<Op>)
      returns (ghost more: seq<Op>)
      requires Mirrors() && Alive(state, {running.id}) && state.clock <= clock.reading
      requires running in timers && Scripted(s, script, ops)
      modifies this`events, this`id, this`state, this`timers, this`refs, timers`removed, clock, loop`wakeups
      ensures old(clock.readings) <= clock.readings
      ensures Mirrors() && Alive(state, {running.id}) && state.clock <= clock.reading
      ensures old(timers) <= timers && fresh(timers - old(timers))
      ensures running.View() == old(running.View()) && Scripted(s, script + [call], more)
    {
      ghost var op := Execute(call, {running.id});
      CallMore(s, ops, op, state.clock);
      CarriedMore(script, ops, call, state.clock);
      more := ops + AsOps(op);
    }

    /** A callback. What it threw, if anything, is the loop's business. */
    method RunCallback(script: seq<Call>, ghost running: TimeoutEvent) returns (ghost ops: seq<Op>)
      requires Mirrors() && Alive(state, {running.id}) && state.clock <= clock.reading
      requires running in timers
      modifies this`events, this`id, this`state, this`timers, this`refs, timers`removed, clock, loop`wakeups
      ensures old(clock.readings) <= clock.readings
      ensures Mirrors() && Alive(state, {running.id}) && state.clock <= clock.reading
      ensures old(timers) <= timers && fresh(timers - old(timers))
      ensures running.View() == old(running.View()) && Scripted(old(state), script, ops)
    {
      ghost var s := state;
      ops := [];
      NothingCarried();
      assert script[..0] == [];
      var i := 0;
      while i < |script|
        invariant 0 <= i <= |script|
        invariant Mirrors() && Alive(state, {running.id}) && state.clock <= clock.reading
        invariant old(timers) <= timers && fresh(timers - old(timers))
        invariant running.View() == old(running.View()) && Scripted(s, script[..i], ops)
        invariant old(clock.readings) <= clock.readings
      {
        ops := CallNext(script[i], running, s, script[..i], ops);
        PrefixMore(script, i);
        i := i + 1;
      }
      assert script[..i] == script;
    }

    /** Calls the callback, then drops a one-shot or arms an interval again. */
    method Apply(event: TimeoutEvent) returns (ghost at: int, ghost ops: seq<Op>, ghost rearmAt: int)
      requires Mirrors() && Alive(state, {event.id}) && state.clock <= clock.reading
      requires event in timers
      modifies this`events, this`id, this`state, this`timers, this`refs, this`runs
      modifies timers`id, timers`removed, clock, loop`wakeups
      ensures old(clock.readings) <= clock.readings
      ensures Mirrors() && state.clock <= clock.reading
      ensures old(timers) <= timers && fresh(timers - old(timers))
      ensures (state, event.View()) == TimerModel.Apply(old(state), old(event.View()), at, ops, rearmAt)
      ensures old(event.id) in old(refs)
      ensures !old(event.removed) && old(event.id) > 0 ==>
        runs == old(runs) + 1 && Carried(program(old(refs)[old(event.id)], old(runs)), ops)
      ensures old(state.clock) <= at && InTime(at, ops) && EndOf(at, ops) <= rearmAt
    {
      at, ops := clock.reading, [];
      rearmAt := at;
      if !event.removed && event.id > 0 {
        ghost var s, t := state, event.View();
        assert event.id in refs;
        state := s.(clock := at, log := s.log + [Fired(t.id, Some(s.refs[t.id]), at)]);
        var script := program(refs[event.id], runs);
        runs := runs + 1;
        ops := RunCallback(script, event);
        Rearm(event);
        rearmAt := state.clock;
      }
    }

    /** After the call: a one-shot is marked for removal, an interval posted again. */
    method Rearm(event: TimeoutEvent)
      requires Mirrors() && Alive(state, {event.id}) && state.clock <= clock.reading
      requires event in timers && event.id > 0 && !event.removed
      modifies this`events, this`id, this`state, this`timers, event`id, event`removed, clock, loop`wakeups
      ensures old(clock.readings) <= clock.readings
      ensures Mirrors() && old(state.clock) <= state.clock <= clock.reading && timers == old(timers)
      ensures event.oneShot ==> state == old(state) && event.View() == old(event.View()).(removed := true)
      ensures !event.oneShot ==>
        state == TimerModel.PostEvent(old(state), event.View(), state.clock) && event.View() == old(event.View())
    {
      NotPlaced(event);
      if event.oneShot {
        event.removed := true;
      } else if !event.removed {
        var n := PostEvent(event);
      }
    }

    /** A timer that is being executed is in neither list. */
    lemma NotPlaced(event: TimeoutEvent)
      requires Mirrors() && Alive(state, {event.id})
      ensures event !in loop.events && forall e <- events :: e.item != event
    {
      forall i | 0 <= i < |events| ensures events[i].item != event {
        assert state.list[i].item.id in ListIds(state.list);
      }
      forall i | 0 <= i < |loop.events| ensures loop.events[i] != event {
        assert state.queue[i].id in QueueIds(state.queue);
      }
    }

    /** The run goes on by one step; in a firing the function under the timer's id was called. */
    ghost method Extend(l: Label)
      requires IsRun(INITIAL, trace) && Enabled(After(INITIAL, trace), l)
      requires state == Next(After(INITIAL, trace), l)
      requires Faithful(program, trace)
      requires l.RunFront? ==>
        var s := After(INITIAL, trace);
        s.queue != [] && s.queue[0].id in s.refs &&
        Carried(program(s.refs[s.queue[0].id], Firings(trace)), l.ops)
      modifies this`trace
      ensures trace == old(trace) + [l]
      ensures IsRun(INITIAL, trace) && After(INITIAL, trace) == state
      ensures Faithful(program, trace) && Firings(trace) == Firings(old(trace)) + if l.RunFront? then 1 else 0
    {
      assert (trace + [l])[..|trace|] == trace;
      trace := trace + [l];
    }

    /** The run goes on by the step that took, applied and released the first timer of the queue. */
    ghost method ExtendRun(s: State, at: int, ops: seq<Op>, rearmAt: int)
      requires IsRun(INITIAL, trace) && After(INITIAL, trace) == s && Faithful(program, trace)
      requires s.queue != [] && s.clock <= at && InTime(at, ops) && EndOf(at, ops) <= rearmAt
      requires s.queue[0].id in s.refs && Carried(program(s.refs[s.queue[0].id], Firings(trace)), ops)
      requires state == Served(s.(queue := s.queue[1..]), s.queue[0], at, ops, rearmAt)
      modifies this`trace
      ensures trace == old(trace) + [RunFront(at, ops, rearmAt)]
      ensures IsRun(INITIAL, trace) && After(INITIAL, trace) == state
      ensures Faithful(program, trace) && Firings(trace) == Firings(old(trace)) + 1
    {
      ServedIsNext(s, at, ops, rearmAt);
      Extend(RunFront(at, ops, rearmAt));
    }

    /** A call made by the program that embeds the loop, outside any timer callback. */
    method HostCall(call: Call)
      requires Valid()
      modifies this`events, this`id, this`state, this`timers, this`refs, this`trace, timers`removed, clock, loop`wakeups
      ensures Valid() && old(timers) <= timers && fresh(timers - old(timers))
      ensures trace == old(trace) + if OpOf(call, state.clock).None? then [] else [Host(OpOf(call, state.clock).value)]
    {
      ghost var s := state;
      AlwaysAlive(trace);
      ghost var op := Execute(call, {});
      if op.Some? { Extend(Host(op.value)); }
    }

    /** The timer check as a runner of the loop. */
    method Looped() returns (next: Option<int>)
      requires Valid()
      modifies this`events, this`refs, this`state, this`trace, loop`events, loop`posted, loop`wakeups, clock
      ensures old(clock.readings) <= clock.readings
      ensures Valid() && trace == old(trace) + [Check(state.clock)]
      ensures next == NextDeadline(state)
      ensures old(clock.reading) <= clock.reading
    {
      next := CheckTimeouts();
      Extend(Check(state.clock));
    }

    /** What the loop does with an event; what the callback threw has been swallowed by `processException`. */
    method ApplyAndRelease(event: TimeoutEvent) returns (ghost at: int, ghost ops: seq<Op>, ghost rearmAt: int)
      requires Mirrors() && Alive(state, {event.id}) && state.clock <= clock.reading
      requires event in timers
      modifies this`events, this`id, this`state, this`timers, this`refs, this`runs
      modifies timers`id, timers`removed, clock, loop`wakeups
      ensures old(clock.readings) <= clock.readings
      ensures Mirrors() && state.clock <= clock.reading
      ensures old(timers) <= timers && fresh(timers - old(timers))
      ensures state == Served(old(state), old(event.View()), at, ops, rearmAt)
      ensures old(event.id) in old(refs)
      ensures !old(event.removed) && old(event.id) > 0 ==>
        runs == old(runs) + 1 && Carried(program(old(refs)[old(event.id)], old(runs)), ops)
      ensures old(state.clock) <= at && InTime(at, ops) && EndOf(at, ops) <= rearmAt
    {
      at, ops, rearmAt := Apply(event);
      Release(event);
    }

    /** One retrieval of the drain phase. */
    method TakeEvent() returns (event: Option<TimeoutEvent>)
      requires loop.Valid() && Mirrors()
      modifies this`state, loop`events, loop`taken
      ensures loop.Valid() && Mirrors()
      ensures event.None? <==> old(loop.events) == []
      ensures event.None? ==> state == old(state) && loop.events == []
      ensures event.Some? ==>
        && loop.events == old(loop.events)[1..] && event.value in timers
        && old(state).queue != [] && event.value.View() == old(state).queue[0]
        && state == old(state).(queue := old(state).queue[1..])
    {
      event := loop.TakeFront();
      if event.Some? {
        state := state.(queue := state.queue[1..]);
        assert MirrorsList();
      }
    }

    /** The loop takes its first event, if there is one, applies it and releases it. */
    method RunFirst() returns (ran: bool, ghost l: Label)
      requires Valid()
      modifies this`events, this`id, this`state, this`timers, this`refs, this`runs, this`trace
      modifies timers`id, timers`removed, clock, loop`events, loop`taken, loop`wakeups
      ensures old(clock.readings) <= clock.readings
      ensures Valid() && old(timers) <= timers && fresh(timers - old(timers))
      ensures ran <==> old(loop.events) != []
      ensures !ran ==> trace == old(trace) && loop.events == []
      ensures ran ==> trace == old(trace) + [l] && l.RunFront? && loop.events == old(loop.events)[1..]
    {
      ghost var s := state;
      l := Check(0);
      var event := TakeEvent();
      ran := event.Some?;
      if ran {
        FrontIsAlive(trace, s);
        ghost var at, ops, rearmAt := ApplyAndRelease(event.value);
        l := RunFront(at, ops, rearmAt);
        ExtendRun(s, at, ops, rearmAt);
      }
    }

    /** From `from` on the run consists of timer checks only. */
    ghost predicate ChecksFrom(from: nat)
      reads this
    {
      from <= |trace| && forall i :: from <= i < |trace| ==> trace[i].Check?
    }

    /** One runner; the timer check asks to be called again by the deadline of every waiting timer. */
    method CallRunner(runner: Runner) returns (wanted: Option<int>)
      requires Valid()
      modifies this`events, this`refs, this`state, this`trace, this`calls, this`answers
      modifies loop`events, loop`posted, loop`wakeups, clock
      ensures old(clock.readings) <= clock.readings
      ensures Valid() && old(trace) <= trace && ChecksFrom(|old(trace)|)
      ensures calls == old(calls) + [runner] && answers == old(answers) + [wanted]
      ensures runner.TimerCheck? ==>
        |old(trace)| < |trace| && wanted == NextDeadline(state) &&
        forall e <- state.list :: wanted.Some? && wanted.value <= e.key
      ensures !runner.TimerCheck? ==> trace == old(trace) && state == old(state)
    {
      match runner {
        case TimerCheck =>
          wanted := Looped();
          NextIsFirst(trace);
        case OtherRunner(tag) =>
          wanted := *;
      }
      calls, answers := calls + [runner], answers + [wanted];
    }

    /** If the timer check is among the runners called since, `timeout` is not after any deadline in the list. */
    ghost predicate Heeded(called: seq<Runner>, from: nat, timeout: int)
      reads this
    {
      TimerCheck in called ==> from < |trace| && NotAfter(timeout, state.list)
    }

    /** The turn of one runner: its wish may bring the time to wake up forward. */
    method RunnerTurn(runner: Runner, timeout: int, ghost limit: int, ghost wanted: seq<Option<int>>,
                      ghost called: seq<Runner>, ghost from: nat)
      returns (sooner: int, ghost wish: Option<int>)
      requires Valid() && ChecksFrom(from)
      requires IsEarliest(timeout, limit, wanted) && Heeded(called, from, timeout)
      modifies this`events, this`refs, this`state, this`trace, this`calls, this`answers
      modifies loop`events, loop`posted, loop`wakeups, clock
      ensures old(clock.readings) <= clock.readings
      ensures Valid() && old(trace) <= trace && ChecksFrom(from)
      ensures calls == old(calls) + [runner] && answers == old(answers) + [wish]
      ensures IsEarliest(sooner, limit, wanted + [wish]) && Heeded(called + [runner], from, sooner)
    {
      var newTimeout := CallRunner(runner);
      wish := newTimeout;
      EarliestOfMore(timeout, limit, wanted, newTimeout);
      sooner := if newTimeout.Some? && newTimeout.value < timeout then newTimeout.value else timeout;
    }

    /** The first half of a pass: every runner once, in priority order; then the time to wake up again. */
    method RunnerPhase() returns (timeout: int, ghost base: int, ghost wanted: seq<Option<int>>)
      requires Valid()
      modifies this`events, this`refs, this`state, this`trace, this`calls, this`answers
      modifies loop`events, loop`posted, loop`wakeups, clock
      ensures Valid() && old(trace) <= trace && ChecksFrom(|old(trace)|)
      ensures calls == old(calls) + Runners(loop.loopRunners)
      ensures answers == old(answers) + wanted && |wanted| == |loop.loopRunners|
      ensures |old(clock.readings)| < |clock.readings| && base == clock.readings[|old(clock.readings)|]
      ensures timeout <= base + 2000 && forall w <- wanted :: w.Some? ==> timeout <= w.value
      ensures timeout == base + 2000 || Some(timeout) in wanted
      ensures Heeded(Runners(loop.loopRunners), |old(trace)|, timeout)
    {
      var now := clock.Now();
      base, wanted := now, [];
      timeout := now + DEFAULT_WAIT;
      var i := 0;
      ghost var from, runners := |trace|, Runners(loop.loopRunners);
      while i < |loop.loopRunners|
        invariant 0 <= i <= |loop.loopRunners| && |wanted| == i
        invariant Valid() && old(trace) <= trace && ChecksFrom(from)
        invariant calls == old(calls) + runners[..i] && answers == old(answers) + wanted
        invariant old(clock.readings) + [now] <= clock.readings
        invariant IsEarliest(timeout, now + DEFAULT_WAIT, wanted) && Heeded(runners[..i], from, timeout)
      {
        var runner := loop.loopRunners[i].item;
        ghost var wish;
        PrefixMore(runners, i);
        timeout, wish := RunnerTurn(runner, timeout, now + DEFAULT_WAIT, wanted, runners[..i], from);
        wanted := wanted + [wish];
        i := i + 1;
      }
      assert runners[..i] == runners;
    }

    /** Takes, applies and releases until the queue is empty; nothing a callback does puts an event into it. */
    method Drain()
      requires Valid()
      modifies this`events, this`id, this`state, this`timers, this`refs, this`runs, this`trace
      modifies timers`id, timers`removed, clock, loop`events, loop`taken, loop`wakeups
      ensures old(clock.readings) <= clock.readings
      ensures Valid() && old(timers) <= timers && fresh(timers - old(timers))
      ensures loop.events == []
      ensures old(trace) <= trace && forall i :: |old(trace)| <= i < |trace| ==> trace[i].RunFront?
    {
      while true
        invariant Valid() && old(timers) <= timers && fresh(timers - old(timers))
        invariant old(trace) <= trace && forall i :: |old(trace)| <= i < |trace| ==> trace[i].RunFront?
        invariant old(clock.readings) <= clock.readings
        decreases |loop.events|
      {
        var ran, l := RunFirst();
        if !ran { break; }
      }
    }

    /**
     * One pass of the loop: the runners, then the queue until it is empty. `middle` is the length of the run when
     * the wait deadline was fixed, which is before the queue was drained.
     */
    method RunPass() returns (timeout: int, ghost base: int, ghost wanted: seq<Option<int>>, ghost middle: nat)
      requires Valid()
      modifies this`events, this`id, this`state, this`timers, this`refs, this`runs, this`trace, this`calls, this`answers
      modifies timers`id, timers`removed, clock, loop`events, loop`taken, loop`posted, loop`wakeups
      ensures Valid() && old(timers) <= timers && fresh(timers - old(timers))
      ensures loop.events == [] && calls == old(calls) + Runners(loop.loopRunners)
      ensures old(trace) <= trace && |old(trace)| <= middle <= |trace|
      ensures forall i :: |old(trace)| <= i < middle ==> trace[i].Check?
      ensures forall i :: middle <= i < |trace| ==> trace[i].RunFront?
      ensures answers == old(answers) + wanted && |wanted| == |loop.loopRunners|
      ensures |old(clock.readings)| < |clock.readings| && base == clock.readings[|old(clock.readings)|]
      ensures timeout <= base + 2000 && forall w <- wanted :: w.Some? ==> timeout <= w.value
      ensures timeout == base + 2000 || Some(timeout) in wanted
      ensures IsRun(INITIAL, trace[..middle])
      ensures TimerCheck in Runners(loop.loopRunners) ==>
        |old(trace)| < middle && NotAfter(timeout, After(INITIAL, trace[..middle]).list)
    {
      timeout, base, wanted := RunnerPhase();
      middle := |trace|;
      ghost var checked := trace;
      Drain();
      assert trace[..middle] == checked;
    }

    /** A pass, and the part of the run that it makes. */
    method NextPass() returns (ghost p: Pass)
      requires Valid()
      modifies this`events, this`id, this`state, this`timers, this`refs, this`runs, this`trace, this`calls, this`answers
      modifies timers`id, timers`removed, clock, loop`events, loop`taken, loop`posted, loop`wakeups
      ensures Valid() && old(timers) <= timers && fresh(timers - old(timers))
      ensures loop.events == [] && calls == old(calls) + Runners(loop.loopRunners)
      ensures trace == old(trace) + (p.checks + p.firings) && IsPass(p, TimerCheck in Runners(loop.loopRunners))
    {
      ghost var from := |trace|;
      var timeout, base, wanted, middle := RunPass();
      p := Pass(trace[from..middle], trace[middle..]);
      CutPass(trace, from, middle, TimerCheck in Runners(loop.loopRunners));
    }

    /** One more pass. */
    method AnotherPass(ghost before: seq<Label>, ghost called: seq<Runner>, ghost passes: seq<Pass>)
      returns (ghost p: Pass)
      requires Valid() && Passed(before, passes, trace, called, Runners(loop.loopRunners), calls)
      modifies this`events, this`id, this`state, this`timers, this`refs, this`runs, this`trace, this`calls, this`answers
      modifies timers`id, timers`removed, clock, loop`events, loop`taken, loop`posted, loop`wakeups
      ensures Valid() && old(timers) <= timers && fresh(timers - old(timers))
      ensures loop.events == []
      ensures Passed(before, passes + [p], trace, called, Runners(loop.loopRunners), calls)
    {
      ghost var from, calledSoFar := trace, calls;
      p := NextPass();
      PassedMore(before, passes, from, called, Runners(loop.loopRunners), calledSoFar, p);
    }

    /**
     * The first `limit` passes of the loop, or as many as there are before someone terminates it, but at least one.
     * The queue is empty as the loop is left, so clearing it loses nothing.
     */
    method Run(limit: nat) returns (n: nat, ghost passes: seq<Pass>)
      requires Valid() && limit > 0
      modifies this`events, this`id, this`state, this`timers, this`refs, this`runs, this`trace, this`calls, this`answers
      modifies timers`id, timers`removed, clock
      modifies loop`events, loop`taken, loop`posted, loop`wakeups, loop`terminated
      ensures Valid() && loop.events == []
      ensures 1 <= n <= limit && (n == limit || loop.terminated)
      ensures calls == old(calls) + Times(n, Runners(loop.loopRunners))
      ensures |passes| == n && trace == old(trace) + Joined(passes)
      ensures forall p <- passes :: IsPass(p, TimerCheck in Runners(loop.loopRunners))
    {
      loop.terminated := false;
      n, passes := 0, [];
      while !loop.terminated && n < limit
        invariant Valid() && old(timers) <= timers && fresh(timers - old(timers))
        invariant n == |passes| <= limit && (n == 0 ==> !loop.terminated) && (n > 0 ==> loop.events == [])
        invariant Passed(old(trace), passes, trace, old(calls), Runners(loop.loopRunners), calls)
        decreases limit - n
      {
        ghost var p := AnotherPass(old(trace), old(calls), passes);
        n, passes := n + 1, passes + [p];
        // another thread may have called `terminate` in the meantime
        loop.terminated := *;
      }
      loop.Close();
    }
  }

  lemma DoOpsMore(s: State, ops: seq<Op>, op: Op)
    ensures DoOps(s, ops + [op]) == DoOp(DoOps(s, ops), op)
  {
    assert (ops + [op])[..|ops|] == ops;
  }

  lemma InTimeMore(clock: int, ops: seq<Op>, op: Op)
    requires InTime(clock, ops) && OpInTime(EndOf(clock, ops), op)
    ensures InTime(clock, ops + [op])
    ensures EndOf(clock, ops + [op]) == if op.Set? then op.at else EndOf(clock, ops)
  {
    assert (ops + [op])[..|ops|] == ops;
  }

  /** One more call at the end of a script. */
  lemma CallMore(s: State, ops: seq<Op>, op: Option<Op>, at: int)
    requires InTime(s.clock, ops) && EndOf(s.clock, ops) <= at
    requires op.Some? && op.value.Set? ==> op.value.at == at
    ensures var all := ops + AsOps(op);
      && DoOps(s, all) == DoIf(DoOps(s, ops), op)
      && InTime(s.clock, all)
      && EndOf(s.clock, all) == if op.Some? && op.value.Set? then at else EndOf(s.clock, ops)
  {
    if op.Some? {
      DoOpsMore(s, ops, op.value);
      InTimeMore(s.clock, ops, op.value);
    } else {
      assert ops + [] == ops;
    }
  }
}
