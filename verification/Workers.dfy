/** A worker's two loops as they are updated in place. */
module Workers {
  import opened Wrappers
  import opened EventLoops
  import opened WorkerMessages

  /** What the worker's code does with an event: the messages it posts, what `apply` and then `release` throw. */
  datatype Reaction = Reaction(posts: seq<Text>, applied: Option<Text>, released: Option<Text>) {
    function To(event: Incoming): Outcome {
      Outcome(event, posts, AsSeq(applied) + AsSeq(released))
    }
  }

  /** The outcomes of the events in the order in which the loop takes them. */
  function Outcomes(events: seq<Incoming>, react: (nat, Incoming) -> Reaction): seq<Outcome> {
    seq(|events|, i requires 0 <= i < |events| => react(i, events[i]).To(events[i]))
  }

  /** What a reaction says: its messages, then an error for each of the two throws. */
  lemma ReactionSays(event: Incoming, r: Reaction)
    ensures Said(r.To(event)) == Messages(r.posts)
                               + (match r.applied case Some(e) => [Error(e)] case None => [])
                               + (match r.released case Some(e) => [Error(e)] case None => [])
  {
    assert Errors(AsSeq(r.applied) + AsSeq(r.released)) == Errors(AsSeq(r.applied)) + Errors(AsSeq(r.released));
    assert Errors(AsSeq(r.applied)) == match r.applied case Some(e) => [Error(e)] case None => [];
    assert Errors(AsSeq(r.released)) == match r.released case Some(e) => [Error(e)] case None => [];
  }

  lemma OutcomesMore(events: seq<Incoming>, react: (nat, Incoming) -> Reaction, k: nat)
    requires k < |events|
    ensures Story(Outcomes(events[..k + 1], react))
         == Story(Outcomes(events[..k], react)) + Said(react(k, events[k]).To(events[k]))
  {
    var o := react(k, events[k]).To(events[k]);
    StoryMore(Outcomes(events[..k], react), o);
    assert Outcomes(events[..k + 1], react) == Outcomes(events[..k], react) + [o];
  }

  /** What the first failing step threw. */
  function FirstFailure(steps: seq<Option<Text>>): (r: Option<Text>)
    ensures r.None? <==> forall i :: 0 <= i < |steps| ==> steps[i].None?
    ensures r.Some? ==> exists k :: 0 <= k < |steps| && steps[k] == r && forall i :: 0 <= i < k ==> steps[i].None?
  {
    if steps == [] then None
    else if steps[0].Some? then steps[0]
    else
      var r := FirstFailure(steps[1..]);
      assert r.Some? ==> exists k :: 0 <= k < |steps[1..]| && steps[1..][k] == r && steps[k + 1] == r &&
                                     forall i :: 0 <= i < k ==> steps[1..][i].None?;
      r
  }

  class WorkerData {
    const caller: EventLoop<Outgoing, nat>
    var eventLoop: EventLoop?<Incoming, nat>

    ghost predicate Valid()
      reads this, caller, eventLoop
    {
      caller.Valid() && (eventLoop != null ==> eventLoop.Valid() && eventLoop as object != caller)
    }

    constructor (caller: EventLoop<Outgoing, nat>)
      requires caller.Valid()
      ensures Valid() && this.caller == caller && eventLoop == null
    {
      this.caller := caller;
      eventLoop := null;
    }

    /** Runs the set-up, each step of which may throw, up to the first that does. */
    method SetUp(steps: seq<Option<Text>>) returns (failure: Option<Text>)
      ensures failure == FirstFailure(steps)
    {
      failure := None;
      var i := 0;
      while i < |steps| && failure.None?
        invariant 0 <= i <= |steps|
        invariant failure.None? ==> FirstFailure(steps) == FirstFailure(steps[i..])
        invariant failure.Some? ==> FirstFailure(steps) == failure
      {
        failure := steps[i];
        i := i + 1;
      }
    }

    /** Makes the worker's loop and sets it up; the first failure, and only that, is reported to the caller. */
    method Init(steps: seq<Option<Text>>)
      requires Valid() && eventLoop == null
      modifies this`eventLoop, caller`events, caller`posted, caller`wakeups
      ensures Valid() && eventLoop != null && fresh(eventLoop) && eventLoop.events == []
      ensures var said := match FirstFailure(steps) case Some(e) => [Error(e)] case None => [];
        caller.posted == old(caller.posted) + said && caller.events == old(caller.events) + said
    {
      eventLoop := new EventLoop();
      var failure := SetUp(steps);
      if failure.Some? { OnProcessException(failure.value); }
    }

    /** Called on the caller's side; without a loop the message is lost. */
    method PostMessage(message: Text)
      requires Valid()
      modifies if eventLoop == null then {} else {eventLoop}
      ensures Valid() && (old(eventLoop == null) <==> eventLoop == null)
      ensures eventLoop != null ==>
        && eventLoop.events == old(eventLoop.events) + [ToWorker(message)] && eventLoop.taken == old(eventLoop.taken)
        && eventLoop.posted == old(eventLoop.posted) + [ToWorker(message)]
    {
      if eventLoop != null { eventLoop.PostEvent(ToWorker(message)); }
    }

    method OnProcessException(e: Text)
      requires Valid()
      modifies caller`events, caller`posted, caller`wakeups
      ensures Valid()
      ensures caller.events == old(caller.events) + [Error(e)] && caller.posted == old(caller.posted) + [Error(e)]
    {
      caller.PostEvent(Error(e));
    }

    method CallerPostMessage(message: Text)
      requires Valid()
      modifies caller`events, caller`posted, caller`wakeups
      ensures Valid()
      ensures caller.events == old(caller.events) + [ToCaller(message)]
      ensures caller.posted == old(caller.posted) + [ToCaller(message)]
    {
      caller.PostEvent(ToCaller(message));
    }

    method PostAll(messages: seq<Text>)
      requires Valid()
      modifies caller`events, caller`posted, caller`wakeups
      ensures Valid()
      ensures caller.posted == old(caller.posted) + Messages(messages)
      ensures caller.events == old(caller.events) + Messages(messages)
    {
      for i := 0 to |messages|
        invariant Valid()
        invariant caller.posted == old(caller.posted) + Messages(messages[..i])
        invariant caller.events == old(caller.events) + Messages(messages[..i])
      {
        CallerPostMessage(messages[i]);
        assert Messages(messages[..i + 1]) == Messages(messages[..i]) + [ToCaller(messages[i])];
      }
      assert messages[..|messages|] == messages;
    }

    /** `apply` and `release` of one event, each in its own handler of exceptions. */
    method Handle(event: Incoming, reaction: Reaction)
      requires Valid()
      modifies caller`events, caller`posted, caller`wakeups
      ensures Valid()
      ensures var said := Messages(reaction.posts)
                        + (match reaction.applied case Some(e) => [Error(e)] case None => [])
                        + (match reaction.released case Some(e) => [Error(e)] case None => []);
        && caller.posted == old(caller.posted) + said && caller.events == old(caller.events) + said
        && said == Said(reaction.To(event))
    {
      PostAll(reaction.posts);
      if reaction.applied.Some? { OnProcessException(reaction.applied.value); }
      if reaction.released.Some? { OnProcessException(reaction.released.value); }
      ReactionSays(event, reaction);
    }

    /** The worker loop's drain: takes every queued event, and the caller is told the whole story. */
    method Drain(react: (nat, Incoming) -> Reaction)
      requires Valid() && eventLoop != null
      modifies eventLoop`events, eventLoop`taken, caller`events, caller`posted, caller`wakeups
      ensures Valid() && eventLoop.events == []
      ensures eventLoop.taken == old(eventLoop.taken) + old(eventLoop.events)
      ensures caller.posted == old(caller.posted) + Story(Outcomes(old(eventLoop.events), react))
    {
      ghost var all, told, before := eventLoop.events, caller.posted, eventLoop.taken;
      var k: nat := 0;
      var event := TakeNext(all, 0, before);
      while event.Some?
        invariant Valid() && k <= |all|
        invariant event.None? ==> k == |all| && eventLoop.events == [] && eventLoop.taken == before + all
        invariant event.Some? ==> k < |all| && event.value == all[k]
        invariant event.Some? ==> eventLoop.events == all[k + 1..] && eventLoop.taken == before + all[..k + 1]
        invariant caller.posted == told + Story(Outcomes(all[..k], react))
        decreases |all| - k
      {
        Handle(event.value, react(k, event.value));
        OutcomesMore(all, react, k);
        Regroup(told, Story(Outcomes(all[..k], react)), Said(react(k, all[k]).To(all[k])));
        k := k + 1;
        event := TakeNext(all, k, before);
      }
      assert all[..|all|] == all;
    }

    /** The next retrieval, `k` events of `all` into the drain. */
    method TakeNext(ghost all: seq<Incoming>, ghost k: nat, ghost before: seq<Incoming>)
      returns (event: Option<Incoming>)
      requires Valid() && eventLoop != null && k <= |all|
      requires eventLoop.events == all[k..] && eventLoop.taken == before + all[..k]
      modifies eventLoop`events, eventLoop`taken
      ensures Valid() && (event.None? <==> k == |all|)
      ensures event.None? ==> eventLoop.events == [] && eventLoop.taken == before + all
      ensures event.Some? ==> event.value == all[k]
      ensures event.Some? ==> eventLoop.events == all[k + 1..] && eventLoop.taken == before + all[..k + 1]
    {
      event := eventLoop.TakeFront();
      if event.Some? {
        assert all[..k + 1] == all[..k] + [all[k]];
      } else {
        assert all[..k] == all;
      }
    }
  }
}
