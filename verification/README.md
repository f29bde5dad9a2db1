# Verified model of dtel's event loop, timers, thread pool, references and workers

dtel embeds a JavaScript engine in C++ and gives it an event loop, `setTimeout` and `setInterval`, a
thread pool, reference-counted handles to script values, and workers that exchange messages. This project
models the stateful core of it in Dafny and proves what that core keeps over whole runs. Nothing here was executed.

`dafny verify dfyconfig.toml` checks everything.

## How it is built

Each protocol has a machine over values (`State`, `Label`, `Enabled`, `Next`, runs of labels) in which a step is
one access that another thread can see, and whose theorems range over every run. Code that updates objects in
place is written as classes; each method of a class is tied to the machine or to a specification function.

| module | what it models |
|---|---|
| `StableSort` | `std::list::sort` as a stable merge sort (section 23.3.5.5 of ISO/IEC 14882:2011) |
| `EventLoops` | the event queue and the runner list of `include/dtel/EventLoop.h` |
| `TimerModel` | timers as a machine: sorted list, loop queue, callbacks by id, forward-only clock, scripts as sequences of set and clear |
| `TimerEffects`, `TimerSets`, `TimerDeadlines` | what each operation on timers does in terms of its own arguments, and what that means for a run: every timer is as it was set, and due when its set says |
| `TimerLife`, `TimerHistory`, `TimerBatch`, `TimerRank`, `TimerOrder`, `TimerService`, `TimerTiming` | theorems about that machine: life cycle, order, service, timing |
| `SetTimeout` | the timer objects in place, `checkTimeouts`, the script functions and the loop pass; the handler carries the run of the machine it has been through |
| `PoolModel` | the thread pool: two mutexes, one condition variable, stop flags, `resize`, both kinds of `stop`, spurious wakeups |
| `PoolWakeup`, `PoolTasks`, `PoolStop` | theorems about it: wakeups, conservation, draining |
| `PoolResize`, `PoolShutdown`, `PoolWorker` | what `resize`, `stop` and an undisturbed worker achieve |
| `TaskQueue` | the pool's mutex-protected queue as a class |
| `RefTable`, `RefStack`, `RefOwnership`, `IntrusivePtr` | the reference table in three layers (map, array with embedded free list, value-stack code), concurrent reference counting by micro-steps, and the smart pointer as a class |
| `RefEffects` | what each operation on smart pointers achieves |
| `WorkerMessages`, `Workers` | the two loops of a worker and its caller, as a machine and in place |
| `WorkerEffects` | what each step and each handling puts into the loops, messages and errors named |

## Where the code and its comments differ

* `include/dtel/detail/ctpl_stl.h:139-141` says that with `isWait` every queued function is run. One schedule
  breaks this: exactly one joined worker, which has just popped from the empty queue and has not yet read
  `isDone`, while a push puts something in and `stop(true)` sets `isDone`. `PoolStop.StopCanLose` gives a whole
  run from an empty pool in which a function is discarded that way, `PoolStop.DrainsExactlyIf` the exact
  condition in every reachable state, and `PoolStop.DrainsWithoutPushInFlight` the two usual ways to be safe.
* `include/dtel/lib/settimeout/SetTimeout.h:265` speaks of an interval that its own call has removed. A clear
  looks at the timer list only, and an executing timer is not in it, so that branch is never taken:
  `TimerOrder.OnlyIntervalsComeBack`, with a run from the start in `TimerOrder.SelfClearFails`.

## Model

| member | source | states |
|---|---|---|
| StableSort.ListSortIsStable | include/dtel/lib/settimeout/SetTimeout.h:101-103 | the merge sort that stands for `list::sort` yields a sorted list that has, key by key, the input's elements in their input order |
| StableSort.StableSortPermutes | include/dtel/lib/settimeout/SetTimeout.h:101-103 | whatever is a stable sort of a list is a permutation of it |
| StableSort.StableSortUnique | include/dtel/lib/settimeout/SetTimeout.h:101-103 | two sorted lists that agree key by key are equal, so stability determines the order completely |
| StableSort.AppendThenSort | include/dtel/lib/settimeout/SetTimeout.h:100-103 | appending to a sorted list and sorting it is insertion behind every element with an equal key: timers are first in, first out per deadline |
| EventLoops.EventLoop.PostEvent | include/dtel/EventLoop.h:53-68 | the event goes to the back of the queue and the loop is signalled once; posts stay equal to deliveries followed by the queue |
| EventLoops.EventLoop.TakeFront | include/dtel/EventLoop.h:115-123 | the front event leaves, or nothing if the queue is empty; first in, first out is kept |
| EventLoops.EventLoop.AddLoopRunner | include/dtel/EventLoop.h:78-85 | runners stay in a stable sort of all registrations: by ascending priority, then in order of registration |
| EventLoops.EventLoop.Close | include/dtel/EventLoop.h:166-167 | the rest of the queue is thrown away and deliveries stay a prefix of the posts |
| EventLoops.EarliestOfMore | include/dtel/EventLoop.h:97-106 | taking the smaller of the wait deadline and the next runner's wish keeps it the earliest of all wishes and the 2000 ms cap |
| TimerEffects.SetIsExact | include/dtel/lib/settimeout/SetTimeout.h:306-334 | a set takes the next id; exactly one listed timer has it, with the delay and kind of the call, not removed, due at the clock plus the delay; its function is stored under the id and nothing else changes |
| TimerEffects.ClearIsExact | include/dtel/lib/settimeout/SetTimeout.h:112-124 | a clear marks the one listed timer with the id, if there is one, and changes no other timer and no callback |
| TimerEffects.CheckIsExact | include/dtel/lib/settimeout/SetTimeout.h:135-183 | one check takes the removed or overdue entries at the front, at most ten; those not removed go to the loop in list order, exactly the callbacks of the others are dropped |
| TimerEffects.FiringIsExact | include/dtel/lib/settimeout/SetTimeout.h:247-298 | whatever the callback did to other timers, a one-shot then loses its callback, and an interval is due again one delay after the clock at the end of the call |
| TimerSets.SetsAreNumbered | include/dtel/lib/settimeout/SetTimeout.h:89-107 | in every run the k-th set, made by the program or inside a callback, gets the id k and is remembered with its own time, delay, kind and function |
| TimerSets.TimersAreAsSet | include/dtel/lib/settimeout/SetTimeout.h:306-334 | in every reachable state each waiting or queued timer has the delay and kind of its own set, and each stored function is that of its own set |
| TimerSets.SetKeepsItsPromise | include/dtel/lib/settimeout/SetTimeout.h:247-274 | over all runs every firing calls the function of its own set, and the n-th of them is later than the set plus n of its delays |
| TimerSets.OneShotFiresOnce | include/dtel/lib/settimeout/SetTimeout.h:263-269 | over all runs a timer set by `setTimeout` that has fired never fires again |
| TimerDeadlines.DeadlinesAreExact | include/dtel/lib/settimeout/SetTimeout.h:100-103 | in every reachable state each waiting timer's deadline is its latest posting, its set or the end of its latest firing as the run tells it, plus the delay of its set |
| TimerDeadlines.DueTimerIsServed | include/dtel/lib/settimeout/SetTimeout.h:137-171 | over all runs without negative delays: from the first check later than posting plus delay on, a timer with k entries ahead leaves the list within k/10 + 1 checks, for the loop's queue unless cancelled |
| TimerLife.AlwaysAlive | include/dtel/lib/settimeout/SetTimeout.h:89-107 | in every reachable state each live timer is in exactly one of list and loop queue, ids do not repeat, and the callback table's domain is exactly the live ids, each with the function it was set with |
| TimerLife.OpsKeepAlive | include/dtel/lib/settimeout/SetTimeout.h:306-347 | any script of sets and clears, run from a callback, keeps the life cycle while the executing timer is in neither list |
| TimerLife.RunNextKeepsAlive | include/dtel/lib/settimeout/SetTimeout.h:247-298 | running and releasing the front timer, one-shot or interval, with any callback, keeps the life cycle |
| TimerHistory.EveryHistoryIsSound | include/dtel/lib/settimeout/SetTimeout.h:247-298 | every firing of every run calls the function its timer was set with; the callbacks held are those of timers set and not collected; a one-shot that has fired is collected |
| TimerHistory.NoFiringAfter | include/dtel/lib/settimeout/SetTimeout.h:286-298 | in a sound history a timer's firing stands behind neither its cancel nor the release of its callback |
| TimerHistory.FrontRuns | include/dtel/lib/settimeout/SetTimeout.h:247-274 | the front of the loop queue always finds its callback and is not removed; afterwards a one-shot is released and an interval is back in the list, whatever the callback did |
| TimerBatch.CheckTakesBatch | include/dtel/lib/settimeout/SetTimeout.h:135-183 | one call takes exactly the first min(10, m) entries, m being the longest prefix of removed or expired ones, posts the rest of them in list order, drops the callbacks of the removed, and returns the earliest remaining deadline |
| TimerBatch.NoSleepWhileDue | include/dtel/EventLoop.h:95-108 | a due timer left behind by the cap of ten puts the loop's wait deadline into the past |
| TimerService.BoundedService | include/dtel/lib/settimeout/SetTimeout.h:137-171 | over whole runs without negative delays: after k/10 + 1 calls of `checkTimeouts` an overdue timer with k entries ahead has gone to the loop's queue if it is not cancelled; if it was cancelled before it has not, and its callback is gone |
| TimerService.CancelledIsCollected | include/dtel/lib/settimeout/SetTimeout.h:112-170 | in every reachable state a cancelled timer either waits in the list, marked and with its callback, or has been collected and its callback is gone; it is never in the loop's queue |
| TimerRank.ListIsRanked | include/dtel/lib/settimeout/SetTimeout.h:100-103 | in every reachable state, through re-arming, marking and batches, a timer stands in front of another if and only if its deadline is smaller, or equal and it was posted earlier |
| TimerOrder.FiringOrder | include/dtel/lib/settimeout/SetTimeout.h:141-171 | of two timers waiting at one moment the one with the smaller deadline, or an equal one and the earlier posting, fires first in every continuation unless it is cancelled |
| TimerOrder.DrainIsExact | include/dtel/EventLoop.h:110-153 | between two checks the events that run are a prefix of the queue as it was, in order, whatever the callbacks set or clear, so the drain ends |
| TimerOrder.OncePerPass | include/dtel/EventLoop.h:93-153 | in one pass of the loop no timer fires twice, even with zero or negative delay |
| TimerOrder.CancelFindsWaiting | include/dtel/lib/settimeout/SetTimeout.h:112-124 | a cancel succeeds if and only if a timer with that id waits in the list |
| TimerOrder.CancelSafety | include/dtel/lib/settimeout/SetTimeout.h:112-124 | after a successful cancel that timer fires in no continuation |
| TimerOrder.OnlyIntervalsComeBack | include/dtel/lib/settimeout/SetTimeout.h:265-273 | after its callback a timer waits again if and only if it is an interval, even if the callback cleared it |
| TimerOrder.SelfClearFails | include/dtel/lib/settimeout/SetTimeout.h:265-273 | a run from the start: an interval is set and comes due, the clear in its callback finds nothing, and the interval waits again |
| TimerTiming.EveryCallIsLate | include/dtel/lib/settimeout/SetTimeout.h:139-156 | in every run the k-th call of a timer comes strictly later than its creation plus k delays |
| TimerTiming.WaitsFullDelay | include/dtel/lib/settimeout/SetTimeout.h:139-156 | no callback starts until strictly more than its delay after the timer was last posted |
| SetTimeout.SetTimeoutHandler.PostEvent | include/dtel/lib/settimeout/SetTimeout.h:89-107 | in place: gives the next id or keeps the event's own, adds exactly one entry, due at the clock reading plus the event's delay and behind equal deadlines, and signals the loop once; the new state is the machine's |
| SetTimeout.SetTimeoutHandler.CancelEvent | include/dtel/lib/settimeout/SetTimeout.h:112-124 | in place: returns true exactly if a listed timer has the id, marks that one and no other timer outside the list |
| SetTimeout.SetTimeoutHandler.CheckTimeouts | include/dtel/lib/settimeout/SetTimeout.h:135-183 | in place: the counted loop does what the machine's check does with the one clock reading it takes, and returns the next deadline |
| SetTimeout.SetTimeoutHandler.Apply | include/dtel/lib/settimeout/SetTimeout.h:247-284 | in place: the function found under the event's id is called and may make any calls of timer functions; the event and the handler end as in the machine |
| SetTimeout.SetTimeoutHandler.RunCallback | include/dtel/lib/settimeout/SetTimeout.h:262-263 | a callback's calls are made in order, each as the script function and with the arguments it names, and amount to the operations of one machine step; the running event itself stays as it is |
| SetTimeout.CallsMean | include/dtel/lib/settimeout/SetTimeout.h:352-370 | which operation each of the four script functions is: only `setTimeout` makes a one-shot, both clears are the same, and a call with wrong arguments does nothing |
| SetTimeout.SetTimeoutHandler.Release | include/dtel/lib/settimeout/SetTimeout.h:286-298 | in place: forgets the callback of a removed event and only then |
| SetTimeout.SetTimeoutHandler.SetTimeoutBase | include/dtel/lib/settimeout/SetTimeout.h:306-334 | throws, changing nothing, unless given a function and a number; else returns the next id, stores the function under it, and the list has one new timer of the given kind and delay, due at the clock reading plus the delay |
| SetTimeout.SetTimeoutHandler.ClearTimeoutBase | include/dtel/lib/settimeout/SetTimeout.h:336-347 | throws unless given a number; else reports whether a waiting timer was cancelled |
| SetTimeout.SetTimeoutHandler.HostCall | include/dtel/lib/settimeout/SetTimeout.h:306-370 | a call from outside any timer callback is exactly one step of the machine's run, or none if it throws |
| SetTimeout.SetTimeoutHandler.Looped | include/dtel/lib/settimeout/SetTimeout.h:230-233 | as a runner of the loop the check is one step of the machine's run and asks for the next deadline |
| SetTimeout.SetTimeoutHandler.RunFirst | include/dtel/EventLoop.h:111-150 | takes, applies and releases one event: the run of the machine goes on by exactly one step |
| SetTimeout.SetTimeoutHandler.RunnerPhase | include/dtel/EventLoop.h:95-108 | the runners called are exactly those of the list, in its order; the deadline is the earliest of their answers and 2000 ms after the first clock reading of the pass, and with the timer check among them no later than that of any waiting timer |
| SetTimeout.SetTimeoutHandler.Drain | include/dtel/EventLoop.h:110-153 | ends, with the queue empty and the run extended by firings only |
| SetTimeout.SetTimeoutHandler.RunPass | include/dtel/EventLoop.h:93-153 | one pass calls every runner once in order, is a run of checks followed by firings, with at least one check if the timer check is registered, ends with an empty queue, and returns the earliest of the runners' answers and the 2000 ms cap |
| SetTimeout.SetTimeoutHandler.Run | include/dtel/EventLoop.h:90-168 | makes n passes, at least one and all that are allowed unless terminated; each calls every runner once, the run grows by exactly the n passes, each of checks then firings, with a check in each if the timer check is registered, and the queue ends empty |
| PoolWakeup.NoLostWakeup | include/dtel/detail/ctpl_stl.h:172-232 | in every reachable state, if a worker sleeps un-notified then the queue is no longer than the pushes not yet notified plus the woken workers that have not tested; when those have settled a sleeper means an empty queue |
| PoolWakeup.NeverStuck | include/dtel/detail/ctpl_stl.h:172-232 | while tasks are queued and some worker has not exited, a worker can move or a pending push can notify |
| PoolWakeup.DrainNeverHangs | include/dtel/detail/ctpl_stl.h:152-164 | after the `notify_all` of `stop(true)`, as long as a worker has not exited some worker can move or a pending push can notify |
| PoolWakeup.OneWorkerInside | include/dtel/detail/ctpl_stl.h:225-230 | no two workers are inside the pool mutex's critical parts |
| PoolWakeup.WaitingIsExact | include/dtel/detail/ctpl_stl.h:226-228 | `nWaiting` is exactly the number of workers in the wait |
| PoolWakeup.DrainingPoolNeverSleeps | include/dtel/detail/ctpl_stl.h:152-160 | after the `notify_all` of `stop(true)` no worker is ever asleep un-notified |
| PoolWakeup.ControllerIsDefined | include/dtel/detail/ctpl_stl.h:93-170 | resizing and stopping wait only for the mutex or a joined thread and never index a missing thread or flag |
| PoolWakeup.StepKeeps | include/dtel/detail/ctpl_stl.h:93-232 | every step of every thread keeps the counting invariant |
| PoolTasks.TasksAreConserved | include/dtel/detail/ctpl_stl.h:121-137 | every pushed task is in exactly one place: queued, in hand, run and freed, discarded, or handed out; none runs twice, none is freed twice, a discarded or handed one never runs |
| PoolTasks.QueueIsFirstInFirstOut | include/dtel/detail/ctpl_stl.h:47-60 | if a pushed task is still queued then so is every later one |
| PoolStop.DrainsExactlyIf | include/dtel/detail/ctpl_stl.h:142-170 | a draining stop leaves nothing behind under every schedule, if and only if the queue is empty or some joined worker is not just between its failed pop and its reading of `isDone` |
| PoolStop.DrainsWithoutPushInFlight | include/dtel/detail/ctpl_stl.h:142-170 | two joined threads, or no push between its enqueue and its notify, are enough |
| PoolStop.StopLoses | include/dtel/detail/ctpl_stl.h:226-230 | otherwise there is a run in which the only worker leaves and the queue is not empty at the final clear |
| PoolStop.StopCanLose | include/dtel/detail/ctpl_stl.h:142-170 | such a state is reachable: a run from an empty pool to a call of `stop(true)` that discards the one function pushed |
| PoolStop.StopRunsEveryTask | include/dtel/detail/ctpl_stl.h:142-170 | after the joins of a draining stop the queue is empty and every task ever pushed was run exactly once and freed, unless a caller popped or cleared it or a detached worker has it |
| PoolStop.ControllerNeverHangs | include/dtel/detail/ctpl_stl.h:93-170 | neither `resize` nor either `stop` ever hangs, in particular not on a join: in every reachable state inside one its thread can go on, or a worker can move, or a pending push can notify |
| PoolResize.ResizeAchieves | include/dtel/detail/ctpl_stl.h:93-119 | over every schedule, when a `resize(n)` is over there are exactly n threads: the old ones followed by new, unflagged workers, or the first n of the old ones, and then every dropped worker is told to go and does not sleep |
| PoolResize.FlaggedTakesAtMostOne | include/dtel/detail/ctpl_stl.h:211-232 | over every continuation a worker that was told to go takes at most one more task, and none once it runs one |
| PoolShutdown.StopAchieves | include/dtel/detail/ctpl_stl.h:142-170 | over every schedule, when a `stop` is over the pool has no threads, all it had have exited, no task from before is queued, and the pool is closed |
| PoolShutdown.StopClearsBeforeItNotifies | include/dtel/detail/ctpl_stl.h:143-160 | at the `notify_all` of `stop(false)` every thread is flagged and nothing from before the stop is queued any more |
| PoolWorker.NewWorkerRunsAll | include/dtel/detail/ctpl_stl.h:209-232 | a new worker left alone runs every queued task once and in order, frees each, and then sleeps, or exits if the pool is done |
| PoolWorker.WokenWorkerRunsAll | include/dtel/detail/ctpl_stl.h:215-231 | a worker woken to a non-empty queue runs all of it in order, and sleeps again or exits |
| PoolWorker.DismissedWorkerExits | include/dtel/detail/ctpl_stl.h:216-220 | a flagged worker that runs a task frees it and exits, and leaves the queue to others |
| PoolWorker.SpuriousIsHarmless | include/dtel/detail/ctpl_stl.h:225-231 | a sleeping worker that wakes up without a notify and finds nothing to do goes back to sleep, and the pool's state is exactly as before |
| TaskQueue.Queue.Push | include/dtel/detail/ctpl_stl.h:47-51 | what was ever pushed, now with this value last, is what was popped followed by what is queued |
| TaskQueue.Queue.Pop | include/dtel/detail/ctpl_stl.h:53-60 | pops the oldest value not popped yet, or reports an empty queue; nothing is lost or popped twice |
| TaskQueue.Queue.Clear | include/dtel/detail/ctpl_stl.h:121-126 | pops and frees everything that was queued, oldest first |
| RefTable.TableStaysSane | include/dtel/detail/refs.h:46-67 | after any refs and unrefs of live ids the links from cell 0 form one chain without repetition that ends at zero, free and live cells share out 1 to length-1, length-1 is the peak of live references, and every live reference reads back its value |
| RefTable.ChainIsUnique | include/dtel/detail/refs.h:46-61 | the array alone determines the free chain |
| RefTable.RefFits | include/dtel/detail/refs.h:46-67 | a new reference gets an id that is not live and takes the first free cell, if there is one, out of the chain |
| RefTable.UnrefFits | include/dtel/detail/refs.h:99-106 | giving a live reference back puts its cell at the head of the chain |
| RefTable.RefIsExact | include/dtel/detail/refs.h:35-73 | a value gets an id that was nobody's and that reads back the value, all other references read as before; undefined gets zero and changes nothing |
| RefTable.UnrefIsExact | include/dtel/detail/refs.h:90-109 | exactly the given reference ends, all others read as before, and its id is the next to be given out |
| RefStack.DukContext.DuvRefSetup | include/dtel/detail/refs.h:15-32 | the stack is unchanged; a first setup makes the array with an empty free list, a repeated one keeps all references |
| RefStack.DukContext.DuvRef | include/dtel/detail/refs.h:35-73 | consumes exactly the top entry, leaves everything below on every branch; undefined gives zero and changes nothing, any other value a new id that stands for it |
| RefStack.DukContext.DuvPushRef | include/dtel/detail/refs.h:75-88 | adds exactly one entry: the value a live reference stands for, or undefined for id zero |
| RefStack.DukContext.DuvUnref | include/dtel/detail/refs.h:90-109 | leaves the stack as it was and ends exactly the given live reference; id zero does nothing |
| RefStack.DukContext.TakeCell | include/dtel/detail/refs.h:46-61 | with the array on top: the stack is unchanged, the first free cell is unlinked, or the end of the array is chosen |
| RefStack.DukContext.StoreInCell | include/dtel/detail/refs.h:63-70 | swaps array and value, stores the value and takes both off |
| RefStack.DukContext.FreeCell | include/dtel/detail/refs.h:99-106 | links the cell in front of the free list, the stack unchanged |
| RefOwnership.CountsAndReferencesAreExact | include/dtel/IntrusiveRefCntPtr.h:99-114 | over every interleaving of the micro-steps of construct, copy, move, swap, reset, assign and destroy the count is the number of holders, the live slots are exactly the ids of undestroyed objects, and every holder reads back its value |
| RefOwnership.DeletedOnce | include/dtel/IntrusiveRefCntPtr.h:108-113 | exactly one release of an object sees zero, it is deleted once, and then no pointer holds it but those being cleared |
| RefOwnership.NothingLeaks | include/dtel/IntrusiveRefCntPtr.h:99-114 | over every interleaving: each object ever made is deleted exactly once or shown by some pointer, and never did two releases of it see zero |
| RefOwnership.StepKeeps | include/dtel/IntrusiveRefCntPtr.h:142-197 | every micro-step keeps exact counts and the ownership of table slots |
| RefOwnership.EnabledStepsAreDefined | include/dtel/Ref.h:18-34 | in no run does a step that callers may take touch a deleted object or give back a slot that is not live |
| RefEffects.PointersAreExact | include/dtel/IntrusiveRefCntPtr.h:142-189 | which object each pointer shows after each step: a copy what its source shows, a moved pointer's source nothing, swapped pointers each other's; all pointers not worked on are as before |
| RefEffects.OthersLeaveItAlone | include/dtel/IntrusiveRefCntPtr.h:142-197 | over any run a pointer that nobody works on shows what it showed |
| RefEffects.MadeIsHeld | include/dtel/Ref.h:16-34 | making a reference gives a new object, held once by its pointer, that reads back the value; no other object or pointer changes |
| RefEffects.CopyIsHeld | include/dtel/IntrusiveRefCntPtr.h:146-148 | a copy shows the same object, which has exactly one holder more |
| RefEffects.GivesUp | include/dtel/IntrusiveRefCntPtr.h:170-189 | a pointer reset shows nothing, one destroyed is gone; the object has one holder less, or, if this was the last, is deleted and its reference ended |
| RefEffects.AssignmentTakesOver | include/dtel/IntrusiveRefCntPtr.h:165-168 | copy, swap and destroy leave the target showing what the source shows, the source itself included, and no other pointer changed |
| IntrusivePtr.Ref.constructor | include/dtel/Ref.h:18-22 | takes one slot for the value on top of the stack |
| IntrusivePtr.Ref.Push | include/dtel/Ref.h:30-34 | pushes one entry, what the slot holds |
| IntrusivePtr.Ref.Release | include/dtel/IntrusiveRefCntPtr.h:108-113 | the last release deletes the object and gives its slot back, any other only counts down |
| IntrusivePtr.RefPtr.Of | include/dtel/IntrusiveRefCntPtr.h:142-144 | a pointer to a new or an already held object: one more holder, one more in the count |
| IntrusivePtr.RefPtr.CopyOf | include/dtel/IntrusiveRefCntPtr.h:146-148 | one more holder, one more in the count |
| IntrusivePtr.RefPtr.MoveOf | include/dtel/IntrusiveRefCntPtr.h:150-152 | the target takes the pointer over, the source is null, no count changes |
| IntrusivePtr.RefPtr.Assign | include/dtel/IntrusiveRefCntPtr.h:165-168 | by copy and swap, self-assignment included: counts stay exact and the old object is deleted exactly if this was its last holder |
| IntrusivePtr.RefPtr.Swap | include/dtel/IntrusiveRefCntPtr.h:180-184 | exchanges the two pointers and keeps all counts |
| IntrusivePtr.RefPtr.Reset | include/dtel/IntrusiveRefCntPtr.h:186-189 | gives the object up; deletes it exactly if this was its last holder |
| IntrusivePtr.RefPtr.Release | include/dtel/IntrusiveRefCntPtr.h:170-170 | the destructor: all counts and slots stay exact without this pointer, the object is deleted exactly if this was its last holder |
| IntrusivePtr.NewRef | include/dtel/Ref.h:18-22 | a new object takes the value into a slot that no other object owns |
| IntrusivePtr.MakeRef | include/dtel/Ref.h:16-22 | the new object is held by exactly its first pointer |
| IntrusivePtr.PushThrough | include/dtel/Ref.h:30-34 | every holder pushes the value the reference was made for |
| WorkerMessages.MessagesAreFifo | include/dtel/lib/worker/Worker.h:384-391 | for every interleaving and in both directions: delivered, then dropped at the loop's end, then queued is exactly what was posted in order, so delivered is a prefix and nothing is missing until the loop ends |
| WorkerMessages.WorkerHandlesInOrder | include/dtel/EventLoop.h:111-153 | the worker handles what was sent to it in order, each event once and without gap |
| WorkerMessages.PostsTellTheStory | include/dtel/lib/worker/Worker.h:230-249 | what the worker posted to its caller is exactly what the start said, then for each handled event its messages and then its errors |
| WorkerMessages.CallerHearsTheStory | include/dtel/lib/worker/Worker.h:230-249 | the caller gets a prefix of that story, so an error never overtakes a message posted before it |
| WorkerMessages.EachHandlingInItsPlace | include/dtel/EventLoop.h:129-149 | over all runs what a handling said, messages and then errors, stands unbroken behind all that the start and the earlier handlings said |
| WorkerEffects.OneErrorPerThrow | include/dtel/EventLoop.h:129-149 | over all runs and interleavings a handling that posts `ms` adds to what the worker told its caller exactly `ms` as messages, then one error if `apply` throws, and none if not, then the same for `release`, which cannot throw for a message |
| WorkerEffects.SentIsNext | include/dtel/lib/worker/Worker.h:384-391 | over all runs a message sent to a worker with a loop stands directly behind everything sent before it, delivered, dropped or queued |
| WorkerEffects.AThrowIsHeard | include/dtel/lib/worker/Worker.h:230-249 | a whole run: a worker is started, answers a message and throws; its caller takes the answer and then the error |
| Workers.WorkerData.PostMessage | include/dtel/lib/worker/Worker.h:384-391 | posts into the worker's loop, or loses the message if there is no loop |
| Workers.WorkerData.CallerPostMessage | include/dtel/lib/worker/Worker.h:236-240 | posts one message into the caller's loop |
| Workers.WorkerData.OnProcessException | include/dtel/lib/worker/Worker.h:230-234 | posts one error into the caller's loop |
| Workers.WorkerData.Init | include/dtel/lib/worker/Worker.h:242-374 | makes the worker's empty loop; the caller's loop gets one error with the text of the first set-up step that fails, or nothing if none does |
| Workers.WorkerData.Handle | include/dtel/EventLoop.h:129-149 | the caller's loop gets what `apply` posted as messages, then one error if `apply` threw, then one if `release` did, and nothing else |
| Workers.WorkerData.Drain | include/dtel/EventLoop.h:110-153 | with any reactions the drain takes every queued event in order and tells the caller exactly their story |

## Left out

- PoolModel: `resize` and `stop` are steps of a controlling thread in a machine, not methods of a class, because their loops interleave with the workers; one thread at a time resizes or stops, as `include/dtel/detail/ctpl_stl.h:91` asks. What a class would add, updates in place of `threads` and `flags`, is not captured.
- PoolStop.StopRunsEveryTask: tasks in the hands of workers that `resize` detached are excluded, since no stop joins those; and during the stop only functions that run on joined workers push.
- PoolTasks: futures, return values and exceptions of pool functions; a packaged function keeps its exception to itself.
- SetTimeout.SetTimeoutHandler.Run: the wait between two passes has no effect on the model, so how long it lasts, what a signal does to it, and oversleeping because the deadline is fixed before the drain are not modelled; nor are posts of other threads into the same queue, which the final clear does throw away.
- SetTimeout: other kinds of events in the same loop queue appear only as calls by the embedding program; loop events are timers.
- TimerTiming.EveryCallIsLate: the firing time is the last clock reading before the call, so the bound holds of the real time as well.
- TimerLife.AlwaysAlive: exceptions are swallowed; with a `processException` that returns false the run aborts and a release may be skipped.
- SetTimeout.SetTimeoutHandler.Apply: what a function calls is given for each of its runs in advance by an arbitrary `program`; that a function may look at the answers of its own calls is covered only in that some program makes the same calls.
- TimerModel: ids do not overflow, callbacks are arbitrary sequences of sets and clears, and one handler is used per context.
- RefOwnership: a single smart pointer is not written by one thread while another uses it; `resetWithoutRelease`, conversions between pointer types and the comparison operators are not modelled.
- RefStack: of the Duktape engine only the stack and property calls that the reference functions make, as operations on a value stack; array indices and lengths are unbounded.
- WorkerMessages: shutdown of a worker (`~WorkerData`, `include/dtel/lib/worker/Worker.h:405-417`) is not modelled, because its join under `_lock` can deadlock; JSON, script listeners and the number of listeners per event are not modelled.
- EventLoops: the task pool behind `postTask` is the thread pool above.
- Console, functions, Handler, `Value.h`, `ValueObject.h`, `optional.hpp`, `Exception.h` and the JavaScript of the event targets would only add easy members.
