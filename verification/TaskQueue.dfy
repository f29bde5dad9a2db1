/**
 * The queue of the thread pool; each method is one critical section of the queue's own mutex. In the pool's
 * machine `Push` is the step `Enqueue`, `Pop` is what the steps of a worker at `FirstPop`, `Repop` and `Testing`
 * and `PopOutside` do, and `Clear` is a sequence of `ClearOne`.
 */
module TaskQueue {
  import opened Wrappers

  class Queue<T> {
    var q: seq<T>

    // Histories: every value pushed and popped so far.
    ghost var pushed: seq<T>
    ghost var popped: seq<T>

    /** Values leave in the order they came, none is lost and none comes twice. */
    ghost predicate Valid()
      reads this
    {
      pushed == popped + q
    }

    constructor ()
      ensures Valid() && q == [] && pushed == []
    {
      q, pushed, popped := [], [], [];
    }

    method Push(value: T)
      requires Valid()
      modifies this
      ensures Valid() && pushed == old(pushed) + [value] && popped == old(popped)
    {
      q := q + [value];
      pushed := pushed + [value];
    }

    method Pop() returns (v: Option<T>)
      requires Valid()
      modifies this
      ensures Valid() && pushed == old(pushed)
      ensures v.None? <==> old(q) == []
      ensures popped == old(popped) + if v.Some? then [v.value] else []
    {
      v := None;
      if q != [] {
        v := Some(q[0]);
        popped := popped + [q[0]];
        q := q[1..];
      }
    }

    /** `clear_queue`: what is taken out is freed without having run, oldest first. */
    method Clear() returns (freed: seq<T>)
      requires Valid()
      modifies this
      ensures Valid() && pushed == old(pushed) && q == []
      ensures popped == old(popped) + freed
    {
      freed := [];
      var next := Pop();
      while next.Some?
        invariant Valid() && pushed == old(pushed)
        invariant popped == old(popped) + freed + if next.Some? then [next.value] else []
        invariant next.None? ==> q == []
        decreases |pushed| - |popped| + if next.Some? then 1 else 0
      {
        freed := freed + [next.value];
        next := Pop();
      }
    }
  }
}
