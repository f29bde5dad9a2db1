/**
 * Timers as a state machine over values: the sorted timer list, the queue of the event loop, the
 * table of callbacks indexed by timer id, and a clock that only moves forward.
 */
module TimerModel {
  import opened Wrappers
  import opened StableSort

  /** A JavaScript function, known by its identity only. */
  type Fn = nat

  datatype Timer = Timer(id: int, delay: int, oneShot: bool, removed: bool)

  /** A waiting timer, keyed by its deadline. */
  type Entry = Keyed<Timer>

  /** What an observer of a run can tell. */
  datatype Note =
    | Queued(id: int)
    | Fired(id: int, fn: Option<Fn>, at: int)
    | Cancelled(id: int)
    | Collected(id: int)

  datatype Birth = Birth(at: int, delay: int, oneShot: bool, fn: Fn)

  /**
   * The rest are histories, on which nothing the code does depends: `log`, `born`, when each timer was last
   * posted (`armed`), the number of that posting (`rank`) and how many postings there were (`posts`).
   */
  datatype State = State(
    clock: int,
    list: seq<Entry>,
    queue: seq<Timer>,
    refs: map<int, Fn>,
    lastId: int,
    log: seq<Note>,
    born: map<int, Birth>,
    armed: map<int, int>,
    rank: map<int, nat>,
    posts: nat)

  /** What a script may do to timers; `at` is the clock reading a set makes. */
  datatype Op =
    | Set(fn: Fn, delay: int, oneShot: bool, at: int)
    | Clear(id: int)

  datatype Label =
    | Host(op: Op)
    | Check(now: int)
    | RunFront(at: int, ops: seq<Op>, rearmAt: int)

  const MAX_EXPIRYS := 10

  const INITIAL := State(0, [], [], map[], 0, [], map[], map[], map[], 0)

  // ---------- operations ----------

  function PostEvent(s: State, t: Timer, at: int): State {
    var u := if t.id <= 0 then t.(id := s.lastId + 1) else t;
    s.(clock := at,
       lastId := if t.id <= 0 then s.lastId + 1 else s.lastId,
       list := ListSort(s.list + [Keyed(at + u.delay, u)]),
       armed := s.armed[u.id := at],
       rank := s.rank[u.id := s.posts],
       posts := s.posts + 1)
  }

  function SetTimer(s: State, fn: Fn, delay: int, oneShot: bool, at: int): State {
    var p := PostEvent(s, Timer(-1, delay, oneShot, false), at);
    p.(refs := p.refs[p.lastId := fn], born := p.born[p.lastId := Birth(at, delay, oneShot, fn)])
  }

  /** The place of the first waiting timer with this id, or the length of the list. */
  function Find(list: seq<Entry>, id: int): (n: nat)
    ensures n <= |list|
    ensures forall i :: 0 <= i < n ==> list[i].item.id != id
    ensures n < |list| ==> list[n].item.id == id
  {
    if list == [] || list[0].item.id == id then 0 else 1 + Find(list[1..], id)
  }

  function MarkRemoved(list: seq<Entry>, n: nat): seq<Entry>
    requires n < |list|
  {
    list[n := Keyed(list[n].key, list[n].item.(removed := true))]
  }

  predicate Cancels(s: State, id: int) {
    Find(s.list, id) < |s.list|
  }

  function CancelEvent(s: State, id: int): State {
    if Cancels(s, id) then
      s.(list := MarkRemoved(s.list, Find(s.list, id)), log := s.log + [Cancelled(id)])
    else s
  }

  function DoOp(s: State, op: Op): State {
    match op
    case Set(fn, delay, oneShot, at) => SetTimer(s, fn, delay, oneShot, at)
    case Clear(id) => CancelEvent(s, id)
  }

  function DoOps(s: State, ops: seq<Op>): State
    decreases |ops|
  {
    if ops == [] then s else DoOp(DoOps(s, ops[..|ops| - 1]), ops[|ops| - 1])
  }

  /** Forgets the callback of a removed timer; for any other timer nothing happens. */
  function Release(s: State, t: Timer): State {
    if t.removed then s.(refs := s.refs - {t.id}, log := s.log + [Collected(t.id)]) else s
  }

  predicate Takes(s: State, now: int) {
    s.list != [] && (s.list[0].item.removed || s.list[0].key < now)
  }

  /** One turn of the loop in `checkTimeouts`. */
  function CheckPass(s: State, now: int): State {
    if !Takes(s, now) then s
    else
      var t := s.list[0].item;
      var p := s.(list := s.list[1..]);
      if t.removed then Release(p, t) else p.(queue := p.queue + [t], log := p.log + [Queued(t.id)])
  }

  function CheckPasses(s: State, now: int, n: nat): State
    decreases n, |s.list|
  {
    if n == 0 then s else CheckPass(CheckPasses(s, now, n - 1), now)
  }

  function CheckTimeouts(s: State, now: int): State {
    CheckPasses(s.(clock := now), now, MAX_EXPIRYS)
  }

  /** The deadline `checkTimeouts` reports to the loop. */
  function NextDeadline(s: State): Option<int> {
    if s.list == [] then None else Some(s.list[0].key)
  }

  /** Calls the callback and, for an interval, arms the timer again; the timer as it is afterwards. */
  function Apply(s: State, t: Timer, at: int, ops: seq<Op>, rearmAt: int): (State, Timer) {
    if t.removed || t.id <= 0 then (s, t)
    else
      var fn := if t.id in s.refs then Some(s.refs[t.id]) else None;
      var called := DoOps(s.(clock := at, log := s.log + [Fired(t.id, fn, at)]), ops);
      if t.oneShot then (called, t.(removed := true)) else (PostEvent(called, t, rearmAt), t)
  }

  /** The loop takes its first event, applies it and releases it. */
  function RunNext(s: State, at: int, ops: seq<Op>, rearmAt: int): State
    requires s.queue != []
  {
    var (p, t) := Apply(s.(queue := s.queue[1..]), s.queue[0], at, ops, rearmAt);
    Release(p, t)
  }

  // ---------- runs ----------

  /** The clock after `ops`, started at `clock`. */
  function EndOf(clock: int, ops: seq<Op>): int
    decreases |ops|
  {
    if ops == [] then clock
    else
      var last := ops[|ops| - 1];
      if last.Set? then last.at else EndOf(clock, ops[..|ops| - 1])
  }

  predicate OpInTime(clock: int, op: Op) {
    op.Set? ==> clock <= op.at
  }

  /** The clock never moves backwards while `ops` run. */
  predicate InTime(clock: int, ops: seq<Op>)
    decreases |ops|
  {
    ops == [] ||
    (InTime(clock, ops[..|ops| - 1]) &&
     OpInTime(EndOf(clock, ops[..|ops| - 1]), ops[|ops| - 1]))
  }

  predicate Enabled(s: State, l: Label) {
    match l
    case Host(op) => OpInTime(s.clock, op)
    case Check(now) => s.clock <= now
    case RunFront(at, ops, rearmAt) =>
      s.queue != [] && s.clock <= at && InTime(at, ops) && EndOf(at, ops) <= rearmAt
  }

  function Next(s: State, l: Label): State
    requires Enabled(s, l)
  {
    match l
    case Host(op) => DoOp(s, op)
    case Check(now) => CheckTimeouts(s, now)
    case RunFront(at, ops, rearmAt) => RunNext(s, at, ops, rearmAt)
  }

  predicate IsRun(s: State, ls: seq<Label>)
    decreases |ls|, 0
  {
    ls == [] || (IsRun(s, ls[..|ls| - 1]) && Enabled(After(s, ls[..|ls| - 1]), ls[|ls| - 1]))
  }

  /** The state at the end of a run. */
  function After(s: State, ls: seq<Label>): State
    requires IsRun(s, ls)
    decreases |ls|, 1
  {
    if ls == [] then s else Next(After(s, ls[..|ls| - 1]), ls[|ls| - 1])
  }
}
