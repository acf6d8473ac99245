# A verified model of the fiber scheduler

The repository is a small N:M coroutine runtime. A `Fiber` is a coroutine with a saved machine
context and a state (INIT, HOLD, EXEC, TERM, READY, EXCEPT). A `Scheduler` holds a queue of fibers
and callbacks, each perhaps pinned to one thread, and every worker thread runs the same loop: take
the first entry it may run, switch into it, and afterwards requeue, park, drop or recycle its fiber.
Under it lie scoped lock guards, a spin lock, and a `Thread` class with a start-up handshake.

User code is modelled as a finite program tree (`Programs.Prog`): it works, spawns tasks, wakes parked
fibers, yields in each of the three possible ways, and returns or throws. A ghost trace records every
step together with the task whose code really ran.

| file | what is in it |
|---|---|
| `Programs.dfy` | task programs, traces, and what a program means |
| `Wrappers.dfy` | an optional value |
| `Reference.dfy` | the scheduler as a client would draw it: no fibers, no recycling, a pure function `RunAll` |
| `Recycling.dfy` | `RunPooled`, the same with one callback fiber used again and again, and when the two differ |
| `RunLaws.dfy` | laws of a run: meaning, what it keeps, round robin |
| `Drain.dfy` | why a run ends, and exactly when it has served everything |
| `Newcomers.dfy` | exactly when a queued task gets its turn |
| `Ledger.dfy` | the queue's books over a whole run: every entry, enqueue call and spawn accounted for |
| `Runtime.dfy` | the classes `Cpu`, `Fiber` and `Scheduler`, method by method, for one thread |
| `Session.dfy` | construct, submit, start, stop, on a scheduler that has only its caller's thread |
| `Machine.dfy` | N workers as a step system, with separate points around every shared access |
| `Ownership.dfy`, `Interleaving.dfy` | the invariants of that system, proved step by step |
| `WorkerLaws.dfy`, `Lifetime.dfy`, `Progress.dfy` | its laws: ownership, meaning, stopping, pins, exit, lifetime, termination, counting |
| `States.dfy`, `Pins.dfy` | what a fiber's state tells of its task, and what a pin is worth, under every interleaving |
| `Handover.dfy` | what one worker can bring about by itself, and how a pin is lost |
| `Calls.dfy` | what comes of every enqueue call, under every interleaving |
| `Guards.dfy` | scoped guards, the `CASLock`, and read/write guards under every interleaving |
| `ThreadStart.dfy` | the `Thread` constructor's handshake, and the life of a pthread handle |
| `Limits.dfy` | four expectations the code does not meet, each with an input |

How the layers hang together: `Runtime.Scheduler.Run` is proved to leave the scheduler in exactly the
state that `Recycling.RunPooled` computes, for every queue and all programs. `RunPooled` knows no fibers,
only that some entries may lead to the one callback fiber. `Recycling.InvisibleExactly` compares it, round
by round, with `Reference.RunAll`, which gives every callback a context of its own: no client can tell the
two apart, not even by the states of the fibers it has enqueued, as long as no callback that ends in its
first slice has enqueued its own fiber; and the first round that serves such a callback can be told. The
laws in `RunLaws`, `Drain`, `Newcomers` and `Ledger` are laws of `RunPooled`, hence of the loop; those in
`Ledger` tell from the trace alone what must have become of the queue. Every `swapcontext` in `Runtime`
goes through `Cpu.Swapcontext`, whose precondition demands that the saving fiber is the executing one, that its continuation has been resumed before it is
stored over, and that the loaded one is neither spent nor on the CPU; the source's assertions and its
"never reach" lines are preconditions or unreachable program points, so verification discharges them.

Where the code is not what its names or comments suggest, the model follows the code:

- A task that yields READY is requeued without its pin (wb_server/scheduler.cc:142-143 with the default
  argument at wb_server/scheduler.h:33). `Limits.PinLostOnYield` runs a task that was only ever pinned to
  one thread on another; `Pins.PinnedRunsAtHome` says that without such a yield it stays at home, and
  `Handover.PinGivenUp` that with one ahead any other worker at the head of its loop can come to run it.
- An entry whose fiber has ended sends the loop into its idle branch (wb_server/scheduler.cc:135-171), so
  two such entries end a `run()` with work still queued. `Limits.EndsWithWorkQueued` gives three enqueue
  calls for one fiber that do it. Exactly when it happens is `Drain.DrainsExactly`, for every queue and all
  programs: `Drain.Behind` counts the ended fibers that a loop which never gives up on them comes across
  with something runnable left behind, and a run serves everything if and only if that is at most one.
  `Newcomers.BeginsExactly` says the same of a single entry. What keeps the number down can be read off the
  queue (`Drain.WakelessDrains`, `Drain.NewcomerDrains`), off the programs (`Drain.DrainsInBudget`; the
  bound is sharp, `Limits.OneWakeCallIsSafe`), or off the enqueue calls having found their tasks parked
  (`Session.PoliteEndToEnd`). What was submitted before `start()` begins in any case (`Session.RequestBegins`).
- A callback that enqueues the fiber it runs in and ends in its first slice leaves an entry for a fiber
  that is recycled (wb_server/scheduler.cc:149-166); it can wake a later callback that nobody woke.
  `Limits.StrayEntryWakes`.
- `stopping()` can be true while a task is in a worker's hands, because the counter goes up after the
  entry has left the queue and down before a READY fiber is back in it (wb_server/scheduler.cc:127-143).
  `Limits.StoppingTooEarly`; exactly when, `WorkerLaws.StoppingExactly`.
- A raw `swap_out` leaves the state EXEC, and the loop turns that into HOLD (wb_server/scheduler.cc:144-146).
- `idle()` returns at once (wb_server/scheduler.cc:201-206), so each `run()` runs its idle fiber once and
  leaves at its second idle turn.

Assumptions. Counters are atomic, and a step of the machines in `Machine`, `Guards` and `ThreadStart` is
one access to shared state. In the N-worker machine a fiber that has run is enqueued only while it is on
hold, not queued and in nobody's hands (`Machine.MayWake`); without that rule the write of HOLD at
wb_server/scheduler.cc:146 and 168 races with another worker. In the one-thread model no such rule is
needed: a task can be enqueued by name as soon as it owns a fiber, and by itself at any time, and `rude`
counts the calls that did not find their task parked.

## Model

| member | source | states |
|---|---|---|
| Programs.BehaviourEnds | wb_server/fiber.cc:182-195 | a callback ends exactly once, with a return or a throw, and its program decides which |
| Reference.First | wb_server/scheduler.cc:116-120 | the pin test of the scan: the first entry that is unpinned or pinned to this thread (that no executing fiber is queued at a scan is `Runtime.Scheduler.Draw`) |
| Reference.TurnKeeps | wb_server/scheduler.cc:132-170 | a turn keeps the queue and the tasks consistent: every task nobody has to wake is queued, a callback that has not begun stands in the queue once, and only tasks that own a fiber can be named |
| Reference.TurnPays | wb_server/scheduler.cc:132-170 | every turn, with all its spawns, wakes and requeueing, shrinks the total of remaining programs plus queue length by at least two |
| Reference.RunIsRounds | wb_server/scheduler.cc:108-189 | one round and then the rest of the run is the run, and the measure of the rest is smaller |
| RunLaws.RunMeaning | wb_server/scheduler.cc:108-189 | over any run of the loop, whoever runs in a recycled fiber, what each task has done followed by what it still has to do stays its whole program |
| RunLaws.MeaningRead | wb_server/fiber.cc:179-200 | a task's recorded steps are a prefix of its own program; they are all of it exactly if it is over, and it is TERM exactly if its program returns |
| RunLaws.PooledExtends | wb_server/scheduler.cc:108-189 | a run keeps all programs, never touches a task that is over, and ends in a consistent state |
| Ledger.EveryEntryCounts | wb_server/scheduler.cc:112-170 | over any run, for every task: its turns, its entries thrown away, left over, or passed on with the callback fiber are its first entries, plus one for each spawn, each call that enqueued it by name once it could be named, each by itself, each yield of READY, and those that came with its fiber; of a task that is not over nothing is lost (the calls are defined in wb_server/scheduler.h, lines 33-74) |
| Ledger.EveryPinCounts | wb_server/scheduler.cc:142-143 | the same for entries with their pins: every entry carries the thread that its call named, or none after a yield |
| Ledger.EverySpawnIsBorn | wb_server/scheduler.cc:132-170 | the tasks that exist after a run are those at its start and one for each spawn in the trace, in order, with the programs that were handed in; exactly those made as fibers or past their first slice can be named |
| Ledger.NothingHandedOver | wb_server/scheduler.cc:161-170 | no entry changes its task unless a callback that ends in its first slice has enqueued itself |
| Drain.RunEndsBecause | wb_server/scheduler.cc:135-178 | for every queue and all programs: a run throws away at most two entries, and one that throws away fewer leaves nothing runnable |
| Drain.RunStopsShort | wb_server/scheduler.cc:135-178 | in the reference run an entry behind two spent ones is never reached |
| Drain.RunCost | wb_server/scheduler.cc:108-189 | entries thrown away are at most the surplus entries of the queue plus the enqueue calls for existing tasks that the programs contain |
| Drain.DrainsExactly | wb_server/scheduler.cc:112-178 | for every queue, all programs and any pool: nothing runnable is left if and only if the loop comes across no more ended fibers with something runnable behind them than it has idle turns to spare |
| Drain.BehindCost | wb_server/scheduler.cc:108-189 | each such fiber is a surplus entry of the queue or costs an enqueue call for an existing task |
| Drain.DrainsInBudget | wb_server/scheduler.cc:112-178 | with at most one surplus entry or such call in all, whatever else the tasks do, nothing runnable is left |
| Drain.WakelessDrains | wb_server/scheduler.cc:112-178 | for tasks that wake nobody, queued once each, that condition can be read off the queue: it is not the case that two entries are spent and some entry stands behind both or will add one that does |
| Drain.NewcomerDrains | wb_server/scheduler.cc:112-178 | and if such a task has just been submitted, exactly if at most one queued entry names a task that is over |
| Newcomers.BeginsExactly | wb_server/scheduler.cc:112-178 | for every queue, all programs and any pool: a queued task begins if and only if the loop comes across no more ended fibers before its entry than it has idle turns to spare |
| Newcomers.AheadIsSpent | wb_server/scheduler.cc:135-171 | with no live task queued twice so far, those are the entries ahead whose task is over by now, whatever the tasks will do |
| Newcomers.ServesNewcomer | wb_server/scheduler.cc:112-178 | a task submitted now will be served if and only if at most one ended fiber is come across before it; with no live task queued twice, if and only if at most one queued entry names a task that is over |
| Drain.PoliteDrains | wb_server/scheduler.cc:112-178 | one reason for the condition to hold: at most one queued entry is spent, no live task is queued twice, and every enqueue call for an existing task found it parked |
| Drain.RudeExactly | wb_server/scheduler.cc:144-147 | a call is counted as rude exactly if it finds its task not parked |
| Drain.DrainedTasks | wb_server/scheduler.cc:108-189 | a run that leaves nothing runnable leaves every task submitted or spawned over, parked, or queued for another thread; if nothing is meant for other threads the queue is empty |
| Recycling.PooledRoundKeeps | wb_server/scheduler.cc:109-188 | a round keeps the queue consistent, entries lead to the callback fiber only while there is one, and the measure of the run shrinks |
| Recycling.LeakyTurn | wb_server/scheduler.cc:161-170 | a callback's first slice leaves an entry for a fiber that is recycled exactly if it enqueues itself and ends |
| Recycling.InvisibleExactly | wb_server/scheduler.cc:149-170 | for every queue and any number of rounds: the loop that recycles and the one that does not agree in everything, the states of enqueued fibers included, if and only if no round served a callback that ends in its first slice having enqueued itself |
| Recycling.DiscreetRun | wb_server/scheduler.cc:149-170 | if no callback in the programs is of that kind, whole runs of both end in the same state |
| RunLaws.RoundRobin | wb_server/scheduler.cc:112-170 | the entry at position i gets its turn after exactly i slices of the entries before it, each turn adding one slice of that entry's task to the trace |
| Runtime.Cpu.Swapcontext | wb_server/fiber.cc:107-109 | the CPU is handed over: the executing fiber's continuation is stored, the loaded one resumed |
| Runtime.Cpu.GetThis | wb_server/fiber.cc:148-156 | the running fiber, or on a bare thread a new fiber that stands for the thread's own context, counted as one more |
| Runtime.Fiber.Main | wb_server/fiber.cc:32-43 | a fiber without a stack, executing, that is `t_fiber`, counted as one more |
| Runtime.Fiber.constructor | wb_server/fiber.cc:45-65 | a fiber in INIT with a stack, the next id, and the entry point chosen by `use_caller`, counted as one more |
| Runtime.Fiber.Destroy | wb_server/fiber.cc:66-81 | the destructor, both branches: nothing left on a stack, and a thread's own fiber is executing without a callback and is forgotten by its thread; one fiber fewer |
| Runtime.Fiber.Reset | wb_server/fiber.cc:83-99 | only a fiber with nothing left on its stack is reset, and it is then as good as new |
| Runtime.Fiber.Call | wb_server/fiber.cc:101-111 | the root fiber runs the whole worker loop, ends in TERM, and the CPU is back in the thread's own context |
| Runtime.Fiber.CallMainFunc | wb_server/fiber.cc:204-226 | the same from the entry point of the root fiber; the line behind the last switch is never reached |
| Runtime.Fiber.Back | wb_server/fiber.cc:113-121 | the switch returns to the very caller of `call`, and leaves a context nobody can resume |
| Runtime.Fiber.SwapIn | wb_server/fiber.cc:123-133 | entering a fiber at its entry point or in the middle of its callback gives exactly one slice of the reference scheduler and returns to the worker loop |
| Runtime.Fiber.MainFunc | wb_server/fiber.cc:179-200 | the same from the entry point of any other fiber; one entered without a callback ends in EXCEPT and does nothing |
| Runtime.Fiber.Continue | wb_server/fiber.cc:182-198 | the same from the middle of a callback, whichever way the slice ends |
| Runtime.Fiber.RunActs | wb_server/fiber.cc:183 | user code up to its next yield or its end does the first part of the reference slice, enqueueing its own fiber included |
| Runtime.Fiber.Finish | wb_server/fiber.cc:184-198 | a callback that returned is TERM with its callback cleared, one that threw is EXCEPT |
| Runtime.Fiber.YieldToReady | wb_server/fiber.cc:158-162 | the running fiber is READY, will go on behind the yield, and the worker loop has the CPU |
| Runtime.Fiber.YieldToHold | wb_server/fiber.cc:164-168 | the same with HOLD |
| Runtime.Fiber.SwapOut | wb_server/fiber.cc:135-144 | the switch goes back to the very caller of `swap_in` |
| Runtime.Scheduler.constructor | wb_server/scheduler.cc:12-31 | with `use_caller` the calling thread becomes the root thread with a root fiber that will run the loop; otherwise there is none |
| Runtime.Scheduler.Submit | tests/test_scheduler.cc:15 | a new task at the back of the queue, as a callback or as a fiber (called here; defined in wb_server/scheduler.h, lines 33-42) |
| Runtime.Scheduler.WakeThis | wb_server/scheduler.cc:142-143 | the running fiber at the back of the queue, whether it is a task's own or the callback fiber (called here; defined in wb_server/scheduler.h, lines 33-42) |
| Runtime.Scheduler.WakeTask | wb_server/scheduler.cc:142-143 | the fiber of a task at the back of the queue, if user code has a pointer to it (called here; defined in wb_server/scheduler.h, lines 33-42; that no such call is lost is `Ledger.EveryEntryCounts`) |
| Runtime.Scheduler.Schedule | wb_server/scheduler.cc:142-143 | an entry is appended unless it is empty, and the result says if the queue was empty (called here; defined in wb_server/scheduler.h, lines 67-74) |
| Runtime.Scheduler.Scan | wb_server/scheduler.cc:112-131 | exactly the first entry that is not pinned elsewhere and not executing is removed, the others keep their order, and `tickle_me` tells if one pinned elsewhere was passed |
| Runtime.Scheduler.Draw | wb_server/scheduler.cc:112-136 | no queued fiber is executing, so the scan draws what the reference scheduler draws |
| Runtime.Scheduler.RunFiber | wb_server/scheduler.cc:138-140 | one slice, entered with the active counter above zero and with the counter restored after it |
| Runtime.Scheduler.FiberTurn | wb_server/scheduler.cc:135-148 | the fiber branch is one reference turn of the fiber's task, or, on the callback fiber without a callback, a turn in which nothing happens but that the fiber is EXCEPT |
| Runtime.Scheduler.AfterSlice | wb_server/scheduler.cc:142-147 | READY is requeued without a pin, ended fibers are left alone, anything else is put on hold |
| Runtime.Scheduler.CallbackTurn | wb_server/scheduler.cc:149-170 | the callback branch, in a recycled fiber or a new one, is one turn of `RunPooled`; the pool is afterwards empty or holds an unused fiber; ids and callback fibers are counted exactly |
| Runtime.Scheduler.CallbackAfter | wb_server/scheduler.cc:161-170 | the fiber goes back to the pool exactly if the callback is over, and is otherwise the task's own from now on, and with it every entry that leads there |
| Runtime.Scheduler.Recycle | wb_server/scheduler.cc:164-166 | the pooled fiber is INIT with an empty callback, and no task's |
| Runtime.Scheduler.IdleTurn | wb_server/scheduler.cc:171-188 | the idle fiber runs once, with the idle counter above zero and restored after it, and the second time the loop ends |
| Runtime.Scheduler.Round | wb_server/scheduler.cc:109-188 | one pass through the loop is one round of `RunPooled` |
| Runtime.Scheduler.Loop | wb_server/scheduler.cc:105-189 | the loop ends for every queue and all programs, with the run computed and the books in order |
| Runtime.Scheduler.Prepare | wb_server/scheduler.cc:101-104 | on any thread but the root thread the context to come back to is the thread's own |
| Runtime.Scheduler.Run | wb_server/scheduler.cc:99-190 | the worker loop computes exactly `RunPooled`, restores counters and CPU, and made one callback fiber for every callback that outlived its first slice, plus one if the pool is full; of the fibers it made those remain that tasks own, and the callback fiber if an entry leads there |
| Runtime.Scheduler.DropLocals | wb_server/scheduler.cc:105-107 | when the loop's pointers go, its idle fiber is destroyed, and the callback fiber exactly if no entry leads there; both destructors find what they demand |
| Runtime.Scheduler.Start | wb_server/scheduler.cc:47-66 | does nothing if already started; else, with no threads but the caller's, returns when the root fiber, if there is one, has run the loop and is TERM |
| Runtime.Scheduler.Stop | wb_server/scheduler.cc:67-95 | sets both flags, with the value of `stopping()`, and takes the early return exactly if the root fiber is not in mid-run and `stopping()` holds |
| Runtime.Scheduler.Destroy | wb_server/scheduler.cc:32-37 | the destructor's assertion holds, the thread forgets the scheduler, and the root fiber is destroyed as its destructor demands |
| Session.SubmitAllQueued | tests/test_scheduler.cc:15 | after any submissions the k-th entry is the k-th request (called here; defined in wb_server/scheduler.h, lines 33-74) |
| Session.RequestBegins | wb_server/scheduler.cc:47-66 | whatever any of the requests do: each one that may run on the caller's thread has begun when `start()` returns |
| Session.ServedExactly | wb_server/scheduler.cc:47-66 | everything is over, parked or pinned elsewhere if and only if the requests make the loop come across at most one ended fiber with something left behind; with nothing meant for other threads, that is when the queue is empty |
| Session.DrainEndToEnd | wb_server/scheduler.cc:47-66 | for every list of requests: programs are kept, every task did a prefix of its own program, all of it exactly if it is over, both of the above, and the condition holds if the requests contain at most one enqueue call for an existing task |
| Session.PoliteEndToEnd | wb_server/scheduler.cc:47-66 | the condition also holds with any number of such calls if each of them found its task parked |
| Session.Serve | tests/test_scheduler.cc:12-21 | a whole session on the classes: construct, submit any jobs, start, stop; `stop()` takes its early return exactly if the queue is empty, and with nothing for other threads that is exactly if everything was served |
| Session.Close | wb_server/fiber.cc:66-81 | and after it scheduler, root fiber and the thread's own fiber are destroyed, each as its destructor demands; the fibers still counted are those that clients can name, and the callback fiber if an entry leads there |
| Session.CallsServed | wb_server/scheduler.cc:112-170 | every task that is not over has had a turn or has an entry left for its own request, each call that enqueued it and each yield of READY; once everything has been served it has had them all |
| Machine.ScanFrom | wb_server/scheduler.cc:112-130 | the scan of the N-worker model stops at the first entry that is this thread's and not executing |
| Ownership.MayWakeIsParked | wb_server/scheduler.cc:144-147 | a task's fiber may be woken exactly if the task is parked |
| Ownership.StepKeepsInv | wb_server/scheduler.cc:108-189 | every step of every worker keeps: each task in one place, each fiber one task's, pools unused, contexts fitting states, no fault |
| Ownership.NextKeepsInv | wb_server/scheduler.cc:108-189 | so does everything outside code may do |
| Interleaving.ReachableGood | wb_server/scheduler.cc:99-190 | all invariants hold in every state that any number of workers can reach |
| WorkerLaws.ExclusiveOwnership | wb_server/scheduler.cc:112-170 | no fiber is queued twice, in two hands, or queued and in hand; one in mid-program, and every fiber of an unfinished task, is queued, in hand or parked; the assertion that a fiber swapped in is not executing never fails |
| WorkerLaws.WholeRun | wb_server/fiber.cc:179-226 | under every interleaving a task's steps are a prefix of its program, and all of it exactly if its fiber is TERM or EXCEPT |
| WorkerLaws.StoppingMeans | wb_server/scheduler.cc:196-200 | when `stopping()` is true an unfinished task is parked or in a worker's hands outside the counted stretch |
| WorkerLaws.StoppingExactly | wb_server/scheduler.cc:127-143 | when `stopping()` is true, all unfinished tasks are parked if and only if no worker is between drawing and counting up, or between counting down and putting away |
| WorkerLaws.StoppingSays | wb_server/scheduler.cc:196-200 | `stopping()` is true exactly if outside code has last set both flags, nothing is queued, and no worker is between counting up and counting down |
| WorkerLaws.PinnedEntryStays | wb_server/scheduler.cc:116-120 | a pinned entry leaves the queue only by a step of its own thread |
| WorkerLaws.DrawnIsMine | wb_server/scheduler.cc:116-129 | what a worker has drawn was unpinned or its own |
| WorkerLaws.DrawsFirst | wb_server/scheduler.cc:112-131 | a worker draws the first entry that is unpinned or its own, and the others keep their order |
| WorkerLaws.EmptyScan | wb_server/scheduler.cc:112-131 | no ended or executing fiber is ever queued, so a scan finds nothing exactly if every entry is pinned to another thread |
| WorkerLaws.LeavesLoop | wb_server/scheduler.cc:171-179 | a worker leaves its loop exactly after an empty-handed scan that finds its idle fiber used, and it has then run that fiber once |
| WorkerLaws.WorkerBooks | wb_server/scheduler.cc:149-170 | each worker's callback fibers are counted exactly, and at the loop head its pool is empty or holds an unused fiber |
| States.StateTellsLast | wb_server/fiber.cc:158-195 | a fiber no worker has is INIT exactly if its task has done nothing, READY exactly if it last yielded ready, HOLD exactly if it last yielded hold or swapped out, TERM exactly if its callback returned, EXCEPT exactly if it threw |
| States.ParkedAsked | wb_server/scheduler.cc:144-147 | a task is parked only if the last thing it did was to ask for it |
| Pins.PinnedRunsAtHome | wb_server/scheduler.cc:112-143 | in every reachable state: a task that all enqueue calls pinned to one thread and that never yielded READY has done all its steps on that thread |
| Pins.PinOfEntry | wb_server/scheduler.cc:142-143 | in every reachable state a queued entry is unpinned if its task's last step was to yield READY, and is otherwise pinned as the last enqueue call said |
| Handover.AnyoneRuns | wb_server/scheduler.cc:112-143 | whatever is queued and not pinned elsewhere, a worker at the head of its loop can run by its own steps alone, however much stands before it |
| Handover.PinGivenUp | wb_server/scheduler.cc:142-143 | for every program whose next yield is READY, wherever it is pinned: any other worker at the head of its loop can do the task's next step after that yield, with no call having asked for it |
| Calls.EveryCallIsAnswered | wb_server/scheduler.cc:112-170 | under every interleaving each enqueue call, by outside code or by a task, has its effect and nothing else has: a new task with the program and the pin that were handed in, or for a parked task one entry at the end of the queue with the pin of the call (defined in wb_server/scheduler.h, lines 33-74) |
| Calls.AskedRuns | wb_server/scheduler.cc:112-143 | after such a call any worker at the head of its loop that the pin allows can by its own steps alone do that task's next step |
| Calls.QueueKeepsOrder | wb_server/scheduler.cc:142-147 | every move but a scan leaves the queue as it is and adds at its end: an entry for the task that is asked for, or, without a pin, for the one that is put back after it yielded READY, and else nothing |
| Calls.OneTurnPerCall | wb_server/scheduler.cc:132-170 | in every reachable state the turns a task has had and has coming are one for each call and one for each yield of READY: no call is lost, none is answered twice, nothing runs unasked |
| Lifetime.DestructorSafe | wb_server/fiber.cc:66-71 | a task's or callback fiber that no shared pointer leads to is TERM, EXCEPT or INIT, with nothing on its stack and no CPU in it |
| Lifetime.LastSwitchIsOwned | wb_server/fiber.cc:196-198 | when `MainFunc` has dropped its own pointer, the worker's still keeps the fiber alive over the last switch |
| Lifetime.NoUseAfterDestruction | wb_server/scheduler.cc:108-189 | once no pointer leads to a fiber, no step finds a new one or writes to it |
| Lifetime.PointerKeepsAlive | wb_server/fiber.cc:66-71 | a fiber that outside code has taken a pointer to is not destroyed until that pointer has been dropped |
| Progress.StepDescends | wb_server/scheduler.cc:108-189 | every step of every worker shrinks one global measure |
| Progress.EveryRunEnds | wb_server/scheduler.cc:108-189 | from any reachable state the workers make at most so many steps, and can go on until all have left their loops |
| Progress.WhatIsLeft | wb_server/scheduler.cc:171-183 | when the workers, left to themselves, have all left their loops, every unfinished task is parked or queued, and nothing unpinned is queued if and only if at the start nothing unpinned was queued or some worker was still to look |
| Progress.Conservation | wb_server/scheduler.cc:127-183 | tasks ever submitted are those queued, in hand, parked and over; both counters equal the workers between increment and decrement, and never go below zero |
| Limits.EndsWithWorkQueued | wb_server/scheduler.cc:135-178 | one job, with which nothing is spent at the start and nothing meant for other threads, whose run ends with a callback in the queue that has not begun |
| Limits.BusyFallsShort | wb_server/scheduler.cc:135-178 | that job makes the loop come across more than one ended fiber with something behind |
| Limits.OneWakeCallIsSafe | wb_server/scheduler.cc:135-178 | up to n enqueue calls for existing tasks are safe for every client if and only if n is at most one |
| Limits.StrayEntryWakes | wb_server/scheduler.cc:149-166 | two jobs after which a callback is over that would still be parked if it had a fiber of its own |
| Limits.PinLostOnYield | wb_server/scheduler.cc:142-143 | a reachable state of two workers in which a task that was only ever pinned to the first has done its second step on the other |
| Limits.PinIsLost | wb_server/scheduler.cc:142-143 | a task pinned to one thread that yields once is next in line on any other |
| Limits.StoppingTooEarly | wb_server/scheduler.cc:127-139 | a reachable state in which `stopping()` is true and a task has not begun |
| Guards.Guard.constructor | wb_server/mutex.h:27-30 | a guard acquires its lock and is locked |
| Guards.Guard.Lock | wb_server/mutex.h:34-39 | acquires only if not locked |
| Guards.Guard.Unlock | wb_server/mutex.h:40-45 | releases only if locked |
| Guards.Live | wb_server/mutex.h:24-104 | for every sequence of operations between construction and destruction the lock sees exactly so many acquire/release pairs and nothing else, for all three guard templates |
| Guards.MutualExclusion | wb_server/mutex.h:192-209 | under every interleaving of guards on one `CASLock` at most one is between acquire and release, and the flag is up exactly then |
| Guards.CallsKept | wb_server/mutex.h:27-46 | for every sequence of calls on any number of guards: between two calls a guard holds its lock exactly if the last one was its construction or `lock()`, does not if it was `unlock()`, and is gone only after its destructor |
| Guards.SectionsExclude | wb_server/mutex.h:27-33 | two owners that are past such a call are both readers, and the lock is taken as long as one is |
| Guards.OnlyTheHolderReleases | wb_server/mutex.h:40-45 | a step changes who holds only for its own guard, and the flag goes down only by its holder |
| Guards.ReadersOrWriter | wb_server/mutex.h:51-104 | many readers or one writer although both release through the same `unlock`, and no unlock of a free lock |
| Guards.AllGone | wb_server/mutex.h:31-33 | when all guards are destroyed the lock is free |
| Guards.NoLockout | wb_server/mutex.h:201-206 | an acquire succeeds exactly if every holder is compatible, and every holder can go on by itself |
| ThreadStart.Handshake | wb_server/thread.cc:32-43 | when a constructor returns, the thread's id is set and its callback moved out, and the parent's list holds the threads' own ids |
| ThreadStart.CalledOnce | wb_server/thread.cc:54-69 | each callback is entered at most once and never empty; the only possible fault is a callback that uses its thread's object after the owner destroyed it |
| ThreadStart.ObjectForgotten | wb_server/thread.cc:66-68 | after its notification a thread leaves id, callback and semaphore alone, and but for its callback's own uses neither reads nor writes its object |
| ThreadStart.FaultsExactly | wb_server/thread.cc:17-30 | when the owner destroys the object of a running thread, the thread ends without a fault if and only if its callback was not going to use the object any more |
| ThreadStart.NoDeadlock | wb_server/scheduler.cc:48-60 | a parent that waits for its threads holding the mutex their callbacks need cannot deadlock with them: somebody can go on exactly as long as not everything is done |
| ThreadStart.EveryStartEnds | wb_server/scheduler.cc:48-60 | and every such run is finite and ends with everything done |
| ThreadStart.StartsAll | wb_server/scheduler.cc:54-60 | a parent that is through has started all its threads and noted an id for each, if and only if the system refused none |
| ThreadStart.LocksAreTaken | wb_server/scheduler.cc:112-113 | a thread has been given the mutex exactly as often as its callback has got past a use of it, and bears, when it finishes, the last name its callback gave it |
| ThreadStart.WhoHasTheMutex | wb_server/scheduler.cc:47-61 | the parent has the mutex from its first step until it gives it back, and a thread exactly while its callback is inside a use of it |
| ThreadStart.LockWaits | wb_server/mutex.h:27-30 | while somebody else has the mutex no step gets a thread past its next use of it |
| ThreadStart.Thread.Join | wb_server/thread.cc:70-89 | joins at most once with success, and keeps the handle if the join fails |
| ThreadStart.Live | wb_server/thread.cc:44-53 | however often an object is joined and with whatever outcomes, its thread has been released exactly once when it is destroyed |

## Left out

- Logging, thread names, backtraces and `macro.h`: output only; assertions are proof obligations.
- Real `ucontext`, stacks, `malloc`, pthread and semaphore calls: contexts, handles and locks are abstract, and an interrupted `sem_wait` (wb_server/mutex.cc:18) is assumed not to happen.
- Weak memory ordering and data races on plain fields: steps are atomic.
- Starting worker threads from `start()` (wb_server/scheduler.cc:55-59) end to end: it indexes a vector that it has just asserted to be empty; the N-worker model starts with its workers inside `run()`, and the hand-over of the mutex to started threads is in `ThreadStart`.
- A second `start()` after `stop()`: it would resume a root fiber that is TERM.
- The overload that enqueues a range (wb_server/scheduler.h:45-58): it calls `scheduler_nolock` with one argument too few and cannot be instantiated.
- Entries that take a fiber or callback out of the client's variable (wb_server/scheduler.h:82-89): the queue they leave is the same.
- The mutex in the one-thread model: there is nobody to exclude; in the N-worker model a critical section is one step.
- Calling `swap_in` outside a scheduler (tests/test_fiber.cc): `GetMainFiber` is null there.
- `shared_ptr` counts: the one-thread model calls destructors where the last pointer goes, the N-worker model says when they may run (`Lifetime`); the fibers of tasks that clients hold are theirs to destroy.
- Runtime.Scheduler.WakeTask: other code can name a callback's fiber once the callback has outlived its first slice; that a callback hands its pointer to other code before that and then ends is not modelled, only that it enqueues itself.
- Runtime.Scheduler.Run: it starts with no entry in the queue that leads to a callback fiber of an earlier run, as is the case when `start()` is used once.
- Runtime.Scheduler.Start: a first start with threads of its own is excluded, see above.
- In the N-worker machine a task does not enqueue itself: the rule for enqueueing forbids it.
- Runtime.Fiber.CallMainFunc: the callback of the root fiber is the worker loop, which does not throw, so its catch clauses are not modelled.
- Windows branches: there the switches compile to nothing.
- `NULLMutex`, `NULLRWMutex`, `Spinlock` (a second plain lock), singleton, util, config: no property of their own.
