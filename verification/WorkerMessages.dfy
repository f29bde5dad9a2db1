/** Messages and errors between the thread that made a worker and the worker's own thread. */
module WorkerMessages {
  import opened Wrappers

  type Text = string

  /** Events on the worker's loop and on its caller's; the foreign ones are of other features, such as timers. */
  datatype Incoming = ToWorker(message: Text) | ForeignIn(id: nat)
  datatype Outgoing = ToCaller(message: Text) | Error(message: Text) | ForeignOut(id: nat)

  /** What handling one event did: the messages it posted, then what `apply` and `release` threw. */
  datatype Outcome = Outcome(event: Incoming, posts: seq<Text>, failures: seq<Text>)

  /** A loop's queue with two histories: what the loop has taken, and what it threw away as it was left. */
  datatype Channel<T> = Channel(taken: seq<T>, dropped: seq<T>, queue: seq<T>) {
    function Post(x: T): Channel<T> {
      this.(queue := queue + [x])
    }

    function Take(): Channel<T>
      requires queue != []
    {
      this.(taken := taken + [queue[0]], queue := queue[1..])
    }

    function Close(): Channel<T> {
      this.(dropped := dropped + queue, queue := [])
    }

    function All(): seq<T> {
      taken + dropped + queue
    }
  }

  /** Where the worker's thread is. */
  datatype Phase =
    | NotStarted
    | Between
    | Applying(event: Incoming, posts: seq<Text>)
    | Releasing(event: Incoming, posts: seq<Text>, failures: seq<Text>)
    | Exited

  /** `hasLoop`: `_eventloop` is set. Histories: `startup` posted before the thread ran, `handled` since. */
  datatype State = State(
    hasLoop: bool,
    phase: Phase,
    toWorker: Channel<Incoming>,
    toCaller: Channel<Outgoing>,
    callerExited: bool,
    startup: seq<Outgoing>,
    handled: seq<Outcome>)

  const INITIAL := State(false, NotStarted, Channel([], [], []), Channel([], [], []), false, [], [])

  datatype Label =
    | Init(failure: Option<Text>)
    | LoadPosts(message: Text)
    | Run
    | CallerPosts(message: Text)
    | ForeignToWorker(id: nat)
    | ForeignToCaller(id: nat)
    | WorkerTakes
    | WorkerPosts(message: Text)
    | Applied(thrown: Option<Text>)
    | Released(thrown: Option<Text>)
    | WorkerExits
    | CallerTakes
    | CallerExits

  /** Releasing a message does nothing, so it cannot throw. */
  predicate Enabled(s: State, l: Label) {
    match l
    case Init(_) => !s.hasLoop && s.phase.NotStarted?
    case LoadPosts(_) => s.hasLoop && s.phase.NotStarted?
    case Run => s.hasLoop && s.phase.NotStarted?
    case CallerPosts(_) => true
    case ForeignToWorker(_) => s.hasLoop
    case ForeignToCaller(_) => true
    case WorkerTakes => s.phase.Between? && s.toWorker.queue != []
    case WorkerPosts(_) => s.phase.Applying?
    case Applied(_) => s.phase.Applying?
    case Released(thrown) => s.phase.Releasing? && (s.phase.event.ToWorker? ==> thrown.None?)
    case WorkerExits => s.phase.Between?
    case CallerTakes => !s.callerExited && s.toCaller.queue != []
    case CallerExits => !s.callerExited
  }

  function PostError(c: Channel<Outgoing>, thrown: Option<Text>): Channel<Outgoing> {
    if thrown.Some? then c.Post(Error(thrown.value)) else c
  }

  function AsSeq<T>(x: Option<T>): (r: seq<T>)
    ensures x.Some? ==> r == [x.value]
    ensures x.None? ==> r == []
  {
    if x.Some? then [x.value] else []
  }

  function Next(s: State, l: Label): State
    requires Enabled(s, l)
  {
    match l
    case Init(failure) =>
      s.(hasLoop := true, toCaller := PostError(s.toCaller, failure), startup := Errors(AsSeq(failure)))
    case LoadPosts(m) => s.(toCaller := s.toCaller.Post(ToCaller(m)), startup := s.startup + [ToCaller(m)])
    case Run => s.(phase := Between)
    case CallerPosts(m) => if s.hasLoop then s.(toWorker := s.toWorker.Post(ToWorker(m))) else s
    case ForeignToWorker(id) => s.(toWorker := s.toWorker.Post(ForeignIn(id)))
    case ForeignToCaller(id) => s.(toCaller := s.toCaller.Post(ForeignOut(id)))
    case WorkerTakes => s.(toWorker := s.toWorker.Take(), phase := Applying(s.toWorker.queue[0], []))
    case WorkerPosts(m) =>
      s.(toCaller := s.toCaller.Post(ToCaller(m)), phase := Applying(s.phase.event, s.phase.posts + [m]))
    case Applied(thrown) =>
      s.(toCaller := PostError(s.toCaller, thrown), phase := Releasing(s.phase.event, s.phase.posts, AsSeq(thrown)))
    case Released(thrown) =>
      s.(toCaller := PostError(s.toCaller, thrown), phase := Between,
         handled := s.handled + [Outcome(s.phase.event, s.phase.posts, s.phase.failures + AsSeq(thrown))])
    case WorkerExits => s.(toWorker := s.toWorker.Close(), phase := Exited)
    case CallerTakes => s.(toCaller := s.toCaller.Take())
    case CallerExits => s.(toCaller := s.toCaller.Close(), callerExited := true)
  }

  predicate IsRun(s: State, ls: seq<Label>)
    decreases |ls|
  {
    ls == [] || (Enabled(s, ls[0]) && IsRun(Next(s, ls[0]), ls[1..]))
  }

  function After(s: State, ls: seq<Label>): State
    requires IsRun(s, ls)
    decreases |ls|
  {
    if ls == [] then s else After(Next(s, ls[0]), ls[1..])
  }

  // ---------- first in, first out ----------

  function Errors(failures: seq<Text>): (r: seq<Outgoing>)
    ensures |r| == |failures| && forall i :: 0 <= i < |failures| ==> r[i] == Error(failures[i])
  {
    seq(|failures|, i requires 0 <= i < |failures| => Error(failures[i]))
  }

  /** What a step posts into the worker's loop; a message sent while there is no loop is lost. */
  function PostsIn(s: State, l: Label): seq<Incoming> {
    match l
    case CallerPosts(m) => if s.hasLoop then [ToWorker(m)] else []
    case ForeignToWorker(id) => [ForeignIn(id)]
    case _ => []
  }

  /** What a step posts into the caller's loop. */
  function PostsOut(l: Label): seq<Outgoing> {
    match l
    case Init(failure) => Errors(AsSeq(failure))
    case LoadPosts(m) => [ToCaller(m)]
    case ForeignToCaller(id) => [ForeignOut(id)]
    case WorkerPosts(m) => [ToCaller(m)]
    case Applied(thrown) => Errors(AsSeq(thrown))
    case Released(thrown) => Errors(AsSeq(thrown))
    case _ => []
  }

  function PostedIn(s: State, ls: seq<Label>): seq<Incoming>
    requires IsRun(s, ls)
    decreases |ls|
  {
    if ls == [] then [] else PostsIn(s, ls[0]) + PostedIn(Next(s, ls[0]), ls[1..])
  }

  function PostedOut(ls: seq<Label>): seq<Outgoing> {
    if ls == [] then [] else PostsOut(ls[0]) + PostedOut(ls[1..])
  }

  lemma ChannelKeepsOrder<T>(c: Channel<T>, x: T)
    ensures c.Post(x).All() == c.All() + [x]
    ensures c.Close().All() == c.All()
    ensures c.queue != [] && c.dropped == [] ==> c.Take().All() == c.All()
  {
    assert c.queue != [] ==> c.queue == [c.queue[0]] + c.queue[1..];
  }

  /** Only a loop that was left has thrown events away. */
  predicate DropsOk(s: State) {
    && (!s.phase.Exited? ==> s.toWorker.dropped == [])
    && (!s.callerExited ==> s.toCaller.dropped == [])
  }

  lemma StepPostsIn(s: State, l: Label)
    requires Enabled(s, l) && DropsOk(s)
    ensures Next(s, l).toWorker.All() == s.toWorker.All() + PostsIn(s, l)
  {
    match l
    case CallerPosts(m) => ChannelKeepsOrder(s.toWorker, ToWorker(m));
    case ForeignToWorker(id) => ChannelKeepsOrder(s.toWorker, ForeignIn(id));
    case _ => ChannelKeepsOrder(s.toWorker, ForeignIn(0));
  }

  lemma PostErrorKeepsOrder(c: Channel<Outgoing>, thrown: Option<Text>)
    ensures PostError(c, thrown).All() == c.All() + Errors(AsSeq(thrown))
  {
    if thrown.Some? {
      ChannelKeepsOrder(c, Error(thrown.value));
      assert Errors([thrown.value]) == [Error(thrown.value)];
    } else {
      assert c.All() + [] == c.All();
    }
  }

  lemma StepPostsOut(s: State, l: Label)
    requires Enabled(s, l) && DropsOk(s)
    ensures Next(s, l).toCaller.All() == s.toCaller.All() + PostsOut(l)
  {
    match l
    case Init(thrown) => PostErrorKeepsOrder(s.toCaller, thrown);
    case Applied(thrown) => PostErrorKeepsOrder(s.toCaller, thrown);
    case Released(thrown) => PostErrorKeepsOrder(s.toCaller, thrown);
    case LoadPosts(m) => ChannelKeepsOrder(s.toCaller, ToCaller(m));
    case WorkerPosts(m) => ChannelKeepsOrder(s.toCaller, ToCaller(m));
    case ForeignToCaller(id) => ChannelKeepsOrder(s.toCaller, ForeignOut(id));
    case _ => ChannelKeepsOrder(s.toCaller, ForeignOut(0));
  }

  lemma StepDrops(s: State, l: Label)
    requires Enabled(s, l) && DropsOk(s)
    ensures DropsOk(Next(s, l))
  {}

  lemma {:induction false} RunDrops(s: State, ls: seq<Label>)
    requires IsRun(s, ls) && DropsOk(s)
    ensures DropsOk(After(s, ls))
    decreases |ls|
  {
    if ls == [] {
    } else {
      StepDrops(s, ls[0]);
      RunDrops(Next(s, ls[0]), ls[1..]);
    }
  }

  lemma Regroup<T>(a: seq<T>, b: seq<T>, c: seq<T>)
    ensures (a + b) + c == a + (b + c)
  {}

  lemma {:induction false} RunKeepsIn(s: State, ls: seq<Label>, before: seq<Incoming>)
    requires IsRun(s, ls) && DropsOk(s) && s.toWorker.All() == before
    ensures After(s, ls).toWorker.All() == before + PostedIn(s, ls)
    decreases |ls|
  {
    if ls == [] {
      assert before + [] == before;
    } else {
      StepDrops(s, ls[0]);
      StepPostsIn(s, ls[0]);
      RunKeepsIn(Next(s, ls[0]), ls[1..], before + PostsIn(s, ls[0]));
      Regroup(before, PostsIn(s, ls[0]), PostedIn(Next(s, ls[0]), ls[1..]));
    }
  }

  lemma {:induction false} RunKeepsOut(s: State, ls: seq<Label>, before: seq<Outgoing>)
    requires IsRun(s, ls) && DropsOk(s) && s.toCaller.All() == before
    ensures After(s, ls).toCaller.All() == before + PostedOut(ls)
    decreases |ls|
  {
    if ls == [] {
      assert before + [] == before;
    } else {
      StepDrops(s, ls[0]);
      StepPostsOut(s, ls[0]);
      RunKeepsOut(Next(s, ls[0]), ls[1..], before + PostsOut(ls[0]));
      Regroup(before, PostsOut(ls[0]), PostedOut(ls[1..]));
    }
  }

  lemma ChannelIsFifo<T>(c: Channel<T>, posted: seq<T>)
    requires c.All() == [] + posted
    ensures c.taken + c.dropped + c.queue == posted && c.taken <= posted
    ensures c.dropped == [] ==> c.taken + c.queue == posted
  {}

  /**
   * Whatever the interleaving, in both directions: what was delivered, then what was thrown away as the loop was
   * left, then what is queued is what was posted, in order. So what was delivered is always a prefix of the posts,
   * and up to the loop's end nothing is missing.
   */
  lemma MessagesAreFifo(ls: seq<Label>)
    requires IsRun(INITIAL, ls)
    ensures var s, posted := After(INITIAL, ls), PostedIn(INITIAL, ls);
      s.toWorker.taken + s.toWorker.dropped + s.toWorker.queue == posted && s.toWorker.taken <= posted &&
      (!s.phase.Exited? ==> s.toWorker.taken + s.toWorker.queue == posted)
    ensures var s, posted := After(INITIAL, ls), PostedOut(ls);
      s.toCaller.taken + s.toCaller.dropped + s.toCaller.queue == posted && s.toCaller.taken <= posted &&
      (!s.callerExited ==> s.toCaller.taken + s.toCaller.queue == posted)
  {
    RunDrops(INITIAL, ls);
    RunKeepsIn(INITIAL, ls, []);
    RunKeepsOut(INITIAL, ls, []);
    ChannelIsFifo(After(INITIAL, ls).toWorker, PostedIn(INITIAL, ls));
    ChannelIsFifo(After(INITIAL, ls).toCaller, PostedOut(ls));
  }

  // ---------- what the caller sees of the worker ----------

  /** The worker's own events among those on its caller's loop. */
  function FromWorker(events: seq<Outgoing>): seq<Outgoing> {
    if events == [] then []
    else FromWorker(events[..|events| - 1]) + if events[|events| - 1].ForeignOut? then [] else [events[|events| - 1]]
  }

  lemma {:induction false} FromWorkerOfConcat(a: seq<Outgoing>, b: seq<Outgoing>)
    ensures FromWorker(a + b) == FromWorker(a) + FromWorker(b)
  {
    if b == [] {
      assert a + b == a;
    } else {
      assert (a + b)[..|a + b| - 1] == a + b[..|b| - 1];
      FromWorkerOfConcat(a, b[..|b| - 1]);
    }
  }

  function Messages(posts: seq<Text>): (r: seq<Outgoing>)
    ensures |r| == |posts| && forall i :: 0 <= i < |posts| ==> r[i] == ToCaller(posts[i])
  {
    seq(|posts|, i requires 0 <= i < |posts| => ToCaller(posts[i]))
  }

  function Said(o: Outcome): seq<Outgoing> {
    Messages(o.posts) + Errors(o.failures)
  }

  /** Everything some handlings said, one after the other. */
  function Story(handled: seq<Outcome>): seq<Outgoing> {
    if handled == [] then [] else Story(handled[..|handled| - 1]) + Said(handled[|handled| - 1])
  }

  /** What the handling under way has said so far. */
  function SoFar(p: Phase): seq<Outgoing> {
    match p
    case Applying(_, posts) => Messages(posts)
    case Releasing(_, posts, failures) => Messages(posts) + Errors(failures)
    case _ => []
  }

  function Events(handled: seq<Outcome>): seq<Incoming> {
    seq(|handled|, i requires 0 <= i < |handled| => handled[i].event)
  }

  function Current(p: Phase): seq<Incoming> {
    if p.Applying? || p.Releasing? then [p.event] else []
  }

  /** What the worker has told its caller, in the order of its own work. */
  function Telling(s: State): seq<Outgoing> {
    s.startup + Story(s.handled) + SoFar(s.phase)
  }

  predicate Handling(s: State) {
    && s.toWorker.taken == Events(s.handled) + Current(s.phase)
    && (s.phase.NotStarted? ==> s.handled == [])
    && (!s.hasLoop ==> s.phase.NotStarted? && s.startup == [])
    && (s.phase.Releasing? ==> |s.phase.failures| <= 1)
    && forall o <- s.handled :: o.event.ToWorker? ==> |o.failures| <= 1
  }

  lemma StoryMore(handled: seq<Outcome>, o: Outcome)
    ensures Story(handled + [o]) == Story(handled) + Said(o)
    ensures Events(handled + [o]) == Events(handled) + [o.event]
  {
    assert (handled + [o])[..|handled|] == handled;
  }

  lemma FromWorkerShort(out: seq<Outgoing>)
    requires |out| <= 1
    ensures FromWorker(out) == if out == [] || out[0].ForeignOut? then [] else out
  {
    if out != [] { assert out == [] + [out[0]] && FromWorker(out[..0]) == []; }
  }

  lemma Regroup4<T>(a: seq<T>, b: seq<T>, c: seq<T>, d: seq<T>)
    ensures a + (b + (c + d)) == a + b + c + d
  {}

  lemma SaidMore(event: Incoming, posts: seq<Text>, failures: seq<Text>, more: seq<Text>)
    ensures Said(Outcome(event, posts, failures + more)) == (Messages(posts) + Errors(failures)) + Errors(more)
  {
    assert Errors(failures + more) == Errors(failures) + Errors(more);
  }

  /** As a handling ends, what it said becomes the last chapter of the story. */
  lemma ReleaseTells(s: State, thrown: Option<Text>)
    requires Enabled(s, Released(thrown))
    ensures Telling(Next(s, Released(thrown))) == Telling(s) + Errors(AsSeq(thrown))
  {
    var p := s.phase;
    StoryMore(s.handled, Outcome(p.event, p.posts, p.failures + AsSeq(thrown)));
    SaidMore(p.event, p.posts, p.failures, AsSeq(thrown));
    Regroup4(s.startup, Story(s.handled), Messages(p.posts) + Errors(p.failures), Errors(AsSeq(thrown)));
    assert SoFar(Next(s, Released(thrown)).phase) == [];
  }

  lemma ApplyTells(s: State, l: Label)
    requires Enabled(s, l) && (l.WorkerPosts? || l.Applied?)
    ensures Telling(Next(s, l)) == Telling(s) + PostsOut(l)
  {
    var posts := s.phase.posts;
    if l.WorkerPosts? {
      assert Messages(posts + [l.message]) == Messages(posts) + [ToCaller(l.message)];
    }
    Regroup(s.startup + Story(s.handled), Messages(posts), PostsOut(l));
  }

  lemma StartTells(s: State, l: Label)
    requires Enabled(s, l) && Handling(s) && (l.Init? || l.LoadPosts?)
    ensures Telling(Next(s, l)) == Telling(s) + PostsOut(l)
  {
    assert Telling(s) == s.startup;
    var r := Next(s, l);
    assert Telling(r) == r.startup;
  }

  /** Taking an event, leaving a loop and what others post say nothing. */
  lemma OthersTellNothing(s: State, l: Label)
    requires Enabled(s, l) && !l.WorkerPosts? && !l.Applied? && !l.Released? && !l.Init? && !l.LoadPosts?
    ensures Telling(Next(s, l)) == Telling(s)
  {
    assert SoFar(Next(s, l).phase) == SoFar(s.phase);
  }

  lemma StepTells(s: State, l: Label)
    requires Enabled(s, l) && Handling(s)
    ensures Telling(Next(s, l)) == Telling(s) + FromWorker(PostsOut(l))
  {
    FromWorkerShort(PostsOut(l));
    if l.WorkerPosts? || l.Applied? {
      ApplyTells(s, l);
    } else if l.Released? {
      ReleaseTells(s, l.thrown);
    } else if l.Init? || l.LoadPosts? {
      StartTells(s, l);
    } else {
      OthersTellNothing(s, l);
    }
  }

  lemma ReleaseHandles(s: State, thrown: Option<Text>)
    requires Enabled(s, Released(thrown)) && Handling(s)
    ensures Handling(Next(s, Released(thrown)))
  {
    var o := Outcome(s.phase.event, s.phase.posts, s.phase.failures + AsSeq(thrown));
    StoryMore(s.handled, o);
    forall p | p in s.handled + [o] ensures p.event.ToWorker? ==> |p.failures| <= 1 {
      assert p in s.handled || p == o;
    }
  }

  lemma TakeHandles(s: State)
    requires Enabled(s, WorkerTakes) && Handling(s)
    ensures Handling(Next(s, WorkerTakes))
  {
    assert Events(s.handled) + [] + [s.toWorker.queue[0]] == Events(s.handled) + [s.toWorker.queue[0]];
  }

  lemma OthersHandle(s: State, l: Label)
    requires Enabled(s, l) && Handling(s) && !l.Released? && !l.WorkerTakes?
    ensures Handling(Next(s, l))
  {
    var r := Next(s, l);
    assert r.handled == s.handled && r.toWorker.taken == s.toWorker.taken;
    assert Current(r.phase) == Current(s.phase);
  }

  lemma StepHandles(s: State, l: Label)
    requires Enabled(s, l) && Handling(s)
    ensures Handling(Next(s, l))
  {
    match l
    case Released(thrown) => ReleaseHandles(s, thrown);
    case WorkerTakes => TakeHandles(s);
    case _ => OthersHandle(s, l);
  }

  lemma {:induction false} RunHandles(s: State, ls: seq<Label>)
    requires IsRun(s, ls) && Handling(s)
    ensures Handling(After(s, ls))
    decreases |ls|
  {
    if ls == [] {
    } else {
      StepHandles(s, ls[0]);
      RunHandles(Next(s, ls[0]), ls[1..]);
    }
  }

  lemma {:induction false} RunTells(s: State, ls: seq<Label>, before: seq<Outgoing>)
    requires IsRun(s, ls) && Handling(s) && Telling(s) == before
    ensures Telling(After(s, ls)) == before + FromWorker(PostedOut(ls))
    decreases |ls|
  {
    if ls == [] {
      assert before + [] == before;
    } else {
      StepTells(s, ls[0]);
      StepHandles(s, ls[0]);
      RunTells(Next(s, ls[0]), ls[1..], before + FromWorker(PostsOut(ls[0])));
      FromWorkerOfConcat(PostsOut(ls[0]), PostedOut(ls[1..]));
      Regroup(before, FromWorker(PostsOut(ls[0])), FromWorker(PostedOut(ls[1..])));
    }
  }

  lemma PrefixFromWorker(a: seq<Outgoing>, b: seq<Outgoing>)
    requires a <= b
    ensures FromWorker(a) <= FromWorker(b)
  {
    FromWorkerOfConcat(a, b[|a|..]);
    assert b == a + b[|a|..];
  }

  /** The worker handles the messages in the order in which they were sent, each once and without gap. */
  lemma WorkerHandlesInOrder(ls: seq<Label>)
    requires IsRun(INITIAL, ls)
    ensures Events(After(INITIAL, ls).handled) + Current(After(INITIAL, ls).phase) <= PostedIn(INITIAL, ls)
  {
    RunHandles(INITIAL, ls);
    MessagesAreFifo(ls);
  }

  /** What the worker posted is what it told, in the order of its own work. */
  lemma PostsTellTheStory(ls: seq<Label>)
    requires IsRun(INITIAL, ls)
    ensures FromWorker(PostedOut(ls)) == Telling(After(INITIAL, ls))
  {
    RunTells(INITIAL, ls, []);
  }

  /**
   * Of the worker's events its caller gets, in order and without gap, first what starting the worker said, then
   * what each handling said: its messages, then its errors. So an error never overtakes a message that the same
   * or an earlier handling posted.
   */
  lemma CallerHearsTheStory(ls: seq<Label>)
    requires IsRun(INITIAL, ls)
    ensures FromWorker(After(INITIAL, ls).toCaller.taken) <= Telling(After(INITIAL, ls))
  {
    PostsTellTheStory(ls);
    MessagesAreFifo(ls);
    PrefixFromWorker(After(INITIAL, ls).toCaller.taken, PostedOut(ls));
  }

  lemma {:induction false} StoryUpTo(handled: seq<Outcome>, k: nat)
    requires k < |handled|
    ensures Story(handled[..k]) + Said(handled[k]) <= Story(handled)
  {
    var n := |handled| - 1;
    if k == n {
      assert handled[..k] == handled[..n];
    } else {
      assert handled[..n][..k] == handled[..k];
      StoryUpTo(handled[..n], k);
    }
  }

  /**
   * What the handling of the `k`th event said, its messages and directly behind them its errors, stands behind what
   * the start and all earlier handlings said; for a message there is at most one error.
   */
  lemma EachHandlingInItsPlace(ls: seq<Label>, k: nat)
    requires IsRun(INITIAL, ls) && k < |After(INITIAL, ls).handled|
    ensures var s, o := After(INITIAL, ls), After(INITIAL, ls).handled[k];
      && (o.event.ToWorker? ==> |o.failures| <= 1)
      && s.startup + Story(s.handled[..k]) + Messages(o.posts) + Errors(o.failures) <= FromWorker(PostedOut(ls))
  {
    var s, o := After(INITIAL, ls), After(INITIAL, ls).handled[k];
    RunHandles(INITIAL, ls);
    assert o in s.handled;
    PostsTellTheStory(ls);
    StoryUpTo(s.handled, k);
    Regroup(s.startup + Story(s.handled[..k]), Messages(o.posts), Errors(o.failures));
    Regroup(s.startup, Story(s.handled[..k]), Said(o));
  }
}
