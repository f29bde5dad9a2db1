/** What the steps of a worker and its caller put into the two loops, said with the messages and errors themselves. */
module WorkerEffects {
  import opened Wrappers
  import opened WorkerMessages

  // ---------- one step ----------

  /** What a step changes in the worker's loop. */
  lemma WorkerLoopIsExact(s: State, l: Label)
    requires Enabled(s, l)
    ensures var c, r := s.toWorker, Next(s, l).toWorker;
      match l
      case CallerPosts(m) =>
        r.taken == c.taken && r.dropped == c.dropped && r.queue == c.queue + if s.hasLoop then [ToWorker(m)] else []
      case ForeignToWorker(id) => r.taken == c.taken && r.dropped == c.dropped && r.queue == c.queue + [ForeignIn(id)]
      case WorkerTakes =>
        r.taken == c.taken + [c.queue[0]] && r.dropped == c.dropped && [c.queue[0]] + r.queue == c.queue
      case WorkerExits => r.taken == c.taken && r.dropped == c.dropped + c.queue && r.queue == []
      case _ => r == c
  {}

  /** What a step changes in the caller's loop. */
  lemma CallerLoopIsExact(s: State, l: Label)
    requires Enabled(s, l)
    ensures var c, r := s.toCaller, Next(s, l).toCaller;
      match l
      case CallerTakes =>
        r.taken == c.taken + [c.queue[0]] && r.dropped == c.dropped && [c.queue[0]] + r.queue == c.queue
      case CallerExits => r.taken == c.taken && r.dropped == c.dropped + c.queue && r.queue == []
      case _ => r.taken == c.taken && r.dropped == c.dropped
    ensures var c, r := s.toCaller.queue, Next(s, l).toCaller.queue;
      match l
      case CallerTakes => true
      case CallerExits => true
      case Init(Some(e)) => r == c + [Error(e)]
      case Applied(Some(e)) => r == c + [Error(e)]
      case Released(Some(e)) => r == c + [Error(e)]
      case LoadPosts(m) => r == c + [ToCaller(m)]
      case WorkerPosts(m) => r == c + [ToCaller(m)]
      case ForeignToCaller(id) => r == c + [ForeignOut(id)]
      case _ => r == c
  {}

  /** A message sent while the worker has a loop comes behind all that was sent before, wherever that is by then. */
  lemma SentIsNext(before: seq<Label>, m: Text, ls: seq<Label>)
    requires IsRun(INITIAL, before) && After(INITIAL, before).hasLoop
    requires IsRun(Next(After(INITIAL, before), CallerPosts(m)), ls)
    ensures var c := After(INITIAL, before).toWorker;
            var r := After(Next(After(INITIAL, before), CallerPosts(m)), ls).toWorker;
      c.taken + c.dropped + c.queue + [ToWorker(m)] <= r.taken + r.dropped + r.queue
  {
    var s := After(INITIAL, before);
    var t := Next(s, CallerPosts(m));
    RunDrops(INITIAL, before);
    WorkerLoopIsExact(s, CallerPosts(m));
    RunKeepsIn(t, ls, t.toWorker.All());
  }

  // ---------- one handling ----------

  predicate IsWorkers(l: Label) {
    !l.CallerPosts? && !l.ForeignToWorker? && !l.ForeignToCaller? && !l.CallerTakes? && !l.CallerExits?
  }

  /** The steps of the worker's own thread, in order. */
  function WorkerSteps(ls: seq<Label>): seq<Label> {
    if ls == [] then []
    else if IsWorkers(ls[0]) then [ls[0]] + WorkerSteps(ls[1..])
    else WorkerSteps(ls[1..])
  }

  function Posting(ms: seq<Text>): (r: seq<Label>)
    ensures |r| == |ms| && forall i :: 0 <= i < |ms| ==> r[i] == WorkerPosts(ms[i])
  {
    seq(|ms|, i requires 0 <= i < |ms| => WorkerPosts(ms[i]))
  }

  lemma OnlyForeign(l: Label)
    ensures |PostsOut(l)| <= 1 && (!IsWorkers(l) && !l.ForeignToCaller? ==> PostsOut(l) == [])
    ensures PostsOut(l) != [] ==> (PostsOut(l)[0].ForeignOut? <==> l.ForeignToCaller?)
  {}

  lemma SpokenBy(l: Label)
    ensures FromWorker(PostsOut(l)) == if IsWorkers(l) then PostsOut(l) else []
  {
    OnlyForeign(l);
    var out := PostsOut(l);
    FromWorkerShort(out);
    if out == [] {
    } else if l.ForeignToCaller? {
      assert FromWorker(out) == [];
    } else {
      assert FromWorker(out) == out && IsWorkers(l);
    }
  }

  lemma PostedFirst(l: Label, rest: seq<Label>)
    ensures PostedOut([l] + rest) == PostsOut(l) + PostedOut(rest)
  {
    assert ([l] + rest)[1..] == rest;
  }

  lemma {:induction false} OnlyTheWorkerSpeaks(ls: seq<Label>)
    ensures FromWorker(PostedOut(ls)) == PostedOut(WorkerSteps(ls))
  {
    if ls == [] {
    } else {
      OnlyTheWorkerSpeaks(ls[1..]);
      FromWorkerOfConcat(PostsOut(ls[0]), PostedOut(ls[1..]));
      SpokenBy(ls[0]);
      PostedFirst(ls[0], WorkerSteps(ls[1..]));
    }
  }

  lemma PostingFirst(ms: seq<Text>, end: seq<Label>)
    requires ms != []
    ensures Posting(ms) + end == [WorkerPosts(ms[0])] + (Posting(ms[1..]) + end)
    ensures Messages(ms) == [ToCaller(ms[0])] + Messages(ms[1..])
  {}

  lemma {:induction false} PostedByHandling(ms: seq<Text>, end: seq<Label>)
    ensures PostedOut(Posting(ms) + end) == Messages(ms) + PostedOut(end)
  {
    if ms == [] {
      assert Posting(ms) + end == end;
    } else {
      PostedByHandling(ms[1..], end);
      PostedFirst(WorkerPosts(ms[0]), Posting(ms[1..]) + end);
      PostingFirst(ms, end);
      Regroup([ToCaller(ms[0])], Messages(ms[1..]), PostedOut(end));
    }
  }

  lemma PostedByEnd(thrown: Option<Text>, released: Option<Text>)
    ensures PostedOut([Applied(thrown), Released(released)])
         == (match thrown case Some(e) => [Error(e)] case None => [])
          + (match released case Some(e) => [Error(e)] case None => [])
  {
    assert [Applied(thrown), Released(released)][1..] == [Released(released)];
    assert PostedOut([Released(released)]) == PostsOut(Released(released)) + PostedOut([]);
  }

  lemma {:induction false} NothingHandled(s: State, ls: seq<Label>)
    requires IsRun(s, ls) && WorkerSteps(ls) == []
    ensures After(s, ls).phase == s.phase && After(s, ls).handled == s.handled
    decreases |ls|
  {
    if ls == [] {
    } else {
      NothingHandled(Next(s, ls[0]), ls[1..]);
    }
  }

  lemma ReleasedLast(released: Option<Text>, rest: seq<Label>, l: Label)
    requires [l] + rest == [Released(released)]
    ensures l == Released(released) && rest == []
  {
    assert l == ([l] + rest)[0] && rest == ([l] + rest)[1..];
  }

  lemma {:induction false} ReleaseIsHandled(s: State, ls: seq<Label>, released: Option<Text>)
    requires IsRun(s, ls) && s.phase.Releasing? && WorkerSteps(ls) == [Released(released)]
    ensures var r, p := After(s, ls), s.phase;
      && r.phase == Between && (p.event.ToWorker? ==> released.None?)
      && r.handled == s.handled + [Outcome(p.event, p.posts, p.failures + AsSeq(released))]
    decreases |ls|
  {
    if IsWorkers(ls[0]) {
      ReleasedLast(released, WorkerSteps(ls[1..]), ls[0]);
      NothingHandled(Next(s, ls[0]), ls[1..]);
    } else {
      ReleaseIsHandled(Next(s, ls[0]), ls[1..], released);
    }
  }

  lemma FirstPosted(ms: seq<Text>, end: seq<Label>, rest: seq<Label>, l: Label)
    requires ms != [] && [l] + rest == Posting(ms) + end
    ensures l == WorkerPosts(ms[0]) && rest == Posting(ms[1..]) + end
  {
    assert l == ([l] + rest)[0] && rest == ([l] + rest)[1..];
  }

  lemma AppliedFirst(thrown: Option<Text>, released: Option<Text>, rest: seq<Label>, l: Label)
    requires [l] + rest == Posting([]) + [Applied(thrown), Released(released)]
    ensures l == Applied(thrown) && rest == [Released(released)]
  {
    assert Posting([]) + [Applied(thrown), Released(released)] == [Applied(thrown), Released(released)];
    assert l == ([l] + rest)[0] && rest == ([l] + rest)[1..];
  }

  lemma OneMore(posts: seq<Text>, ms: seq<Text>)
    requires ms != []
    ensures posts + [ms[0]] + ms[1..] == posts + ms
  {}

  lemma {:induction false} ApplyIsHandled(s: State, ls: seq<Label>, ms: seq<Text>, thrown: Option<Text>,
                                          released: Option<Text>)
    requires IsRun(s, ls) && s.phase.Applying?
    requires WorkerSteps(ls) == Posting(ms) + [Applied(thrown), Released(released)]
    ensures var r, p := After(s, ls), s.phase;
      && r.phase == Between && (p.event.ToWorker? ==> released.None?)
      && r.handled == s.handled + [Outcome(p.event, p.posts + ms, AsSeq(thrown) + AsSeq(released))]
    decreases |ls|
  {
    if !IsWorkers(ls[0]) {
      ApplyIsHandled(Next(s, ls[0]), ls[1..], ms, thrown, released);
    } else if ms == [] {
      AppliedFirst(thrown, released, WorkerSteps(ls[1..]), ls[0]);
      ReleaseIsHandled(Next(s, ls[0]), ls[1..], released);
      assert s.phase.posts + ms == s.phase.posts;
    } else {
      FirstPosted(ms, [Applied(thrown), Released(released)], WorkerSteps(ls[1..]), ls[0]);
      ApplyIsHandled(Next(s, ls[0]), ls[1..], ms[1..], thrown, released);
      OneMore(s.phase.posts, ms);
    }
  }

  /** Of the worker's events the caller's loop then has those it had, and those of the worker's own `steps`. */
  lemma RunSays(before: seq<Label>, l: Label, ls: seq<Label>, steps: seq<Label>)
    requires IsRun(INITIAL, before) && Enabled(After(INITIAL, before), l) && PostsOut(l) == []
    requires IsRun(Next(After(INITIAL, before), l), ls) && WorkerSteps(ls) == steps
    ensures var c, r := After(INITIAL, before).toCaller, After(Next(After(INITIAL, before), l), ls).toCaller;
      FromWorker(r.taken + r.dropped + r.queue) == FromWorker(c.taken + c.dropped + c.queue) + PostedOut(steps)
  {
    var s := After(INITIAL, before);
    RunDrops(INITIAL, before);
    StepDrops(s, l);
    StepPostsOut(s, l);
    assert s.toCaller.All() + [] == s.toCaller.All();
    RunKeepsOut(Next(s, l), ls, s.toCaller.All());
    FromWorkerOfConcat(s.toCaller.All(), PostedOut(ls));
    OnlyTheWorkerSpeaks(ls);
  }

  /**
   * However others interleave: an event whose handling posts `ms`, and whose `apply` and `release` throw or do not,
   * adds to what the worker has told its caller exactly these messages and one error for each throw, in that order.
   * A message is not released, so it gives one error if its handler throws, and none otherwise.
   */
  lemma OneErrorPerThrow(before: seq<Label>, ls: seq<Label>, ms: seq<Text>, thrown: Option<Text>,
                         released: Option<Text>)
    requires IsRun(INITIAL, before) && Enabled(After(INITIAL, before), WorkerTakes)
    requires IsRun(Next(After(INITIAL, before), WorkerTakes), ls)
    requires WorkerSteps(ls) == Posting(ms) + [Applied(thrown), Released(released)]
    ensures var s, r := After(INITIAL, before), After(Next(After(INITIAL, before), WorkerTakes), ls);
      && FromWorker(r.toCaller.taken + r.toCaller.dropped + r.toCaller.queue)
         == FromWorker(s.toCaller.taken + s.toCaller.dropped + s.toCaller.queue) + Messages(ms)
          + (match thrown case Some(e) => [Error(e)] case None => [])
          + (match released case Some(e) => [Error(e)] case None => [])
      && (s.toWorker.queue[0].ToWorker? ==> released.None?)
      && r.handled == s.handled + [Outcome(s.toWorker.queue[0], ms, AsSeq(thrown) + AsSeq(released))]
  {
    var s, end := After(INITIAL, before), [Applied(thrown), Released(released)];
    RunSays(before, WorkerTakes, ls, Posting(ms) + end);
    PostedByHandling(ms, end);
    PostedByEnd(thrown, released);
    Regroup4(FromWorker(s.toCaller.taken + s.toCaller.dropped + s.toCaller.queue), Messages(ms),
             match thrown case Some(e) => [Error(e)] case None => [],
             match released case Some(e) => [Error(e)] case None => []);
    ApplyIsHandled(Next(s, WorkerTakes), ls, ms, thrown, released);
    assert [] + ms == ms;
  }

  // ---------- a whole conversation ----------

  lemma RunFrom(s: State, l: Label, ls: seq<Label>)
    requires Enabled(s, l) && IsRun(Next(s, l), ls)
    ensures IsRun(s, [l] + ls) && After(s, [l] + ls) == After(Next(s, l), ls)
  {
    assert ([l] + ls)[1..] == ls;
  }

  /** With an answer and an error in its queue the caller takes both. */
  lemma CallerTakesTwo(s: State, a: Outgoing, b: Outgoing) returns (ls: seq<Label>)
    requires !s.callerExited && s.toCaller.queue == [a, b]
    ensures ls == [CallerTakes] + ([CallerTakes] + [])
    ensures IsRun(s, ls) && After(s, ls).toCaller.taken == s.toCaller.taken + [a] + [b]
  {
    var t := Next(s, CallerTakes);
    assert t.toCaller.queue == [b];
    RunFrom(t, CallerTakes, []);
    RunFrom(s, CallerTakes, [CallerTakes] + []);
    ls := [CallerTakes] + ([CallerTakes] + []);
  }

  /** The worker answers a message, then throws, and is done with it. */
  lemma AnswersThenThrows(s: State, answer: Text, e: Text, r: State, ls: seq<Label>)
    requires s.phase.Applying? && s.phase.event.ToWorker? && !s.callerExited && s.toCaller.queue == []
    requires r == Next(Next(Next(s, WorkerPosts(answer)), Applied(Some(e))), Released(None))
    requires IsRun(r, ls)
    ensures r.toCaller == Channel(s.toCaller.taken, s.toCaller.dropped, [ToCaller(answer), Error(e)]) && !r.callerExited
    ensures IsRun(s, [WorkerPosts(answer)] + ([Applied(Some(e))] + ([Released(None)] + ls)))
    ensures After(s, [WorkerPosts(answer)] + ([Applied(Some(e))] + ([Released(None)] + ls))) == After(r, ls)
  {
    var t := Next(s, WorkerPosts(answer));
    var u := Next(t, Applied(Some(e)));
    RunFrom(u, Released(None), ls);
    RunFrom(t, Applied(Some(e)), [Released(None)] + ls);
    RunFrom(s, WorkerPosts(answer), [Applied(Some(e))] + ([Released(None)] + ls));
  }

  /** A worker is started and takes the first message. */
  lemma StartsAndTakes(m: Text, r: State, ls: seq<Label>)
    requires r == Next(Next(Next(Next(INITIAL, Init(None)), Run), CallerPosts(m)), WorkerTakes) && IsRun(r, ls)
    ensures r.phase == Applying(ToWorker(m), []) && !r.callerExited && r.toCaller == Channel([], [], [])
    ensures IsRun(INITIAL, [Init(None)] + ([Run] + ([CallerPosts(m)] + ([WorkerTakes] + ls))))
    ensures After(INITIAL, [Init(None)] + ([Run] + ([CallerPosts(m)] + ([WorkerTakes] + ls)))) == After(r, ls)
  {
    var s := Next(INITIAL, Init(None));
    RunFrom(Next(Next(s, Run), CallerPosts(m)), WorkerTakes, ls);
    RunFrom(Next(s, Run), CallerPosts(m), [WorkerTakes] + ls);
    RunFrom(s, Run, [CallerPosts(m)] + ([WorkerTakes] + ls));
    RunFrom(INITIAL, Init(None), [Run] + ([CallerPosts(m)] + ([WorkerTakes] + ls)));
  }

  /** A worker is started, answers a message and then throws; its caller gets the answer and then the error. */
  lemma AThrowIsHeard(m: Text, answer: Text, e: Text) returns (ls: seq<Label>)
    ensures ls == [Init(None), Run, CallerPosts(m), WorkerTakes, WorkerPosts(answer), Applied(Some(e)), Released(None),
                   CallerTakes, CallerTakes]
    ensures IsRun(INITIAL, ls) && After(INITIAL, ls).toCaller.taken == [ToCaller(answer), Error(e)]
  {
    var s := Next(Next(Next(Next(INITIAL, Init(None)), Run), CallerPosts(m)), WorkerTakes);
    StartsAndTakes(m, s, []);
    var r := Next(Next(Next(s, WorkerPosts(answer)), Applied(Some(e))), Released(None));
    AnswersThenThrows(s, answer, e, r, []);
    ls := CallerTakesTwo(r, ToCaller(answer), Error(e));
    AnswersThenThrows(s, answer, e, r, ls);
    ls := [WorkerPosts(answer)] + ([Applied(Some(e))] + ([Released(None)] + ls));
    StartsAndTakes(m, s, ls);
    ls := [Init(None)] + ([Run] + ([CallerPosts(m)] + ([WorkerTakes] + ls)));
  }
}
