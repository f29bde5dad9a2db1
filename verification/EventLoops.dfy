/** The queue and the runner list of the event loop. */
module EventLoops {
  import opened Wrappers
  import opened StableSort

  /** The loop sleeps at most this long between two passes. */
  const DEFAULT_WAIT := 2000

  /** `d` is the earliest of `limit` and every deadline a runner asked for. */
  ghost predicate IsEarliest(d: int, limit: int, wanted: seq<Option<int>>) {
    && d <= limit
    && (forall w <- wanted :: w.Some? ==> d <= w.value)
    && (d == limit || Some(d) in wanted)
  }

  lemma EarliestOfMore(d: int, limit: int, wanted: seq<Option<int>>, next: Option<int>)
    requires IsEarliest(d, limit, wanted)
    ensures IsEarliest(if next.Some? && next.value < d then next.value else d, limit, wanted + [next])
  {
    assert next in wanted + [next] && forall w <- wanted :: w in wanted + [next];
  }

  class EventLoop<E, R> {
    var events: seq<E>
    var loopRunners: seq<Keyed<R>>
    var terminated: bool

    /** How often the sleeping loop was signalled. */
    var wakeups: nat

    // Histories: every event posted and taken so far, every runner registered so far.
    ghost var posted: seq<E>
    ghost var taken: seq<E>
    ghost var registered: seq<Keyed<R>>

    /** Events leave in the order they came. */
    ghost predicate Valid()
      reads this
    {
      posted == taken + events
    }

    /** The runners stand in a stable sort of their registrations. */
    ghost predicate RunnersInOrder()
      reads this
    {
      StableSortOf(registered, loopRunners)
    }

    constructor ()
      ensures Valid() && RunnersInOrder() && events == [] && posted == [] && registered == []
      ensures !terminated && wakeups == 0
    {
      events, loopRunners, terminated, wakeups := [], [], false, 0;
      posted, taken, registered := [], [], [];
    }

    /** Asks the loop to look at its events again. */
    method NotifyChanged()
      modifies this`wakeups
      ensures wakeups == old(wakeups) + 1
    {
      wakeups := wakeups + 1;
    }

    /** The event goes to the back of the queue, and then the loop is signalled. */
    method PostEvent(event: E)
      requires Valid()
      modifies this`events, this`posted, this`wakeups
      ensures Valid() && wakeups == old(wakeups) + 1
      ensures events == old(events) + [event]
      ensures posted == old(posted) + [event]
    {
      events := events + [event];
      posted := posted + [event];
      NotifyChanged();
    }

    /** One retrieval of the drain phase. */
    method TakeFront() returns (event: Option<E>)
      requires Valid()
      modifies this`events, this`taken
      ensures Valid()
      ensures event.None? <==> old(events) == []
      ensures event.None? ==> events == old(events) && taken == old(taken)
      ensures event.Some? ==> old(events) == [event.value] + events && taken == old(taken) + [event.value]
    {
      event := None;
      if events != [] {
        event := Some(events[0]);
        taken := taken + [events[0]];
        events := events[1..];
      }
    }

    /** Lower numbers run first; runners of one priority keep their order of registration. */
    method AddLoopRunner(runner: R, priority: int)
      requires RunnersInOrder()
      modifies this`loopRunners, this`registered
      ensures RunnersInOrder()
      ensures registered == old(registered) + [Keyed(priority, runner)]
      ensures loopRunners == InsertStable(old(loopRunners), Keyed(priority, runner))
    {
      ghost var x := Keyed(priority, runner);
      AppendThenSort(loopRunners, x);
      ListSortIsStable(loopRunners + [x]);
      forall k ensures WithKey(loopRunners + [x], k) == WithKey(registered + [x], k) {
        WithKeyConcat(loopRunners, [x], k);
        WithKeyConcat(registered, [x], k);
      }
      loopRunners := ListSort(loopRunners + [Keyed(priority, runner)]);
      registered := registered + [x];
    }

    method Terminate()
      modifies this`terminated
      ensures terminated
    {
      terminated := true;
    }

    /** The loop was left: what is still queued is thrown away, so the deliveries stay a prefix of the posts. */
    method Close()
      requires Valid()
      modifies this`events
      ensures events == [] && taken <= posted
    {
      events := [];
    }
  }
}
