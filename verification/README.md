# Verification of the coro_epoll runtime

This project models the Linux build of a small C++20 coroutine runtime (an epoll event loop, a worker pool, lazily
started `Task` coroutines, TCP sockets) and the example servers built on it, and proves what they promise. The model has
four layers.

**Reactor** (`Epoll.dfy`, `Reactor.dfy`, `EventLoop.dfy`, `LoopHistory.dfy`). `Epoll` is the kernel's side: interest list,
trigger mode, readiness of every open descriptor, and the FIFO ready list; ADD, MOD and new readiness poll and queue, a wait
harvests up to 128 events and puts level-triggered descriptors back. `Reactor` is the slot table `states_` as a transition system over
that kernel: awaits, removals, opening and closing of descriptors, readiness changes, waits, the half of `dispatch` that
empties slots, and single resumptions are interleaved freely, so that coroutines re-register, remove and reuse descriptor
numbers in the middle of a batch. Each registration is named by a token, and a ledger records what became of it.
`EventLoop` is the object, updated in place, with `run`, `dispatch`, `post`, `stop`, `spawn`, the drains and the compaction
as methods. What a resumed coroutine or a callback does is a list of effects chosen by an arbitrary `Behaviour`: it may
await, remove, open and close descriptors, post, stop the loop, and begin and end tasks, with an exception or without. Each
method is proved equal to a function of the transition system, and the theorems are about those functions. `LoopHistory`
says what a whole run of `run` amounts to, in terms of the callbacks started, the coroutines resumed and the waits made: what
can set the stop flag, begin, end and erase a task, and that the run is a run of `Reactor`.

**Handoff** (`Wakeup.dfy`, `Pool.dfy`, `Offload.dfy`). `Wakeup` interleaves the loop thread with any number of threads
inside `post` and `stop`, one access to shared state per step. `Pool` does the same for the thread pool's queue, mutex and
condition variable, with spurious wake-ups. `Offload` composes one pool with any number of loops into the whole path of
`co_await pool.submit(loop, f)`.

**Tasks** (`Coroutines.dfy`, `Tasks.dfy`, `TaskMeaning.dfy`, `TaskRuntime.dfy`, `Handles.dfy`). A coroutine body is a tree
of local computations, effects, returns, throws, catches, awaited operations, awaited tasks and spawns; an exception is a
`std::exception` or not, and a catch names which it takes. `Coroutines.Eval` is its direct-style meaning, in which awaiting
a task is a call. `Tasks` is the heap of frames linked by `promise.continuation`. `TaskMeaning` proves that the heap machine
computes the direct-style meaning for every schedule. `TaskRuntime` is the code's own shape, in which `resume` is called
recursively from `await_suspend`, `final_suspend` and `spawn`; it is proved to reach the states of the flat machine.
`Handles` puts `Reactor` and `Tasks` together: each token of the table belongs to a frame, and each half goes through a run
of its own.

**Byte streams** (`Sockets.dfy`, `Streams.dfy`, `Proxy.dfy`, `Http.dfy`, `HttpServer.dfy`). Socket operations run against
a script that decides, call by call, how much is transferred, or EAGAIN, EINTR or a hard error, and how each wait for
readiness ends. Each operation is stated twice over. Safety: at every moment the bytes moved are the right ones, and an
operation throws or stays suspended (`Ongoing`) only because of the last entry it has used, or because no entry is left.
Progress: it says how many productive entries, those that offer to move data, it can use up, so that on a healthy script
with enough of them it returns; composed, the relay, the echo and the HTTP server come to the end of their stream with
everything sent. On top are the proxy's relay, the edge-triggered echo, and the HTTP reader, printer and keep-alive loop.
`Proxy` interleaves the two relays of a session, which share their sockets, over the slot table of `Reactor`.

`RoundRobin.dfy` is the choice of the next loop by a wrapping 64-bit counter.

## Assumptions

- A direction of a descriptor has at most one waiter. The code does not enforce it; the ledger counts every violation
  under `overwritten`, and `Reactor.OverwriteExactly` says when one happens.
- `epoll_ctl` fails only when the call is illegal (descriptor not open, already or not yet registered). What a failure for
  another reason does is stated apart: in `add_interest` by `Reactor.FaultAgreesExactly` and `Reactor.FaultLocksOut`, in
  `dispatch` by `Reactor.DispatchFaultLoses` and `Reactor.DispatchFaultIsFinal`.
- A descriptor number is closed only after `remove` has been called for it (or with nothing waiting on it), and is not
  shared with a duplicate. `TcpServer::close` does the two in the other order; `Reactor.CloseOrderIrrelevant` shows that
  it makes no difference.
- Posted callbacks may throw. Full delivery is claimed where none does; where one does, exactly what is behind it in the
  same drain is lost.
- Awaited tasks have a handle. Pools and loops outlive the coroutines that use them.
- The sibling coroutine of a socket operation does nothing to the socket except close it.

## What the proofs found

- Closing both sockets at the end of `relay` does not wake a sibling relay that sits in a slot, as the comment at
  examples/proxy-server/main.cpp:110 intends: `remove` drops its token, and it is never resumed. `Proxy.SiblingWakesExactly`
  gives the exact condition, `Proxy.LostForGood` the consequence, `Proxy.LostSiblingWitness` a run.
- If MOD fails in `add_interest_impl`, the table entry goes but the kernel's registration stays, and every later await on
  the descriptor is refused until it is removed (`Reactor.FaultLocksOut`). If it fails in `dispatch`, the handles the event
  was for have left the table and are never resumed (`Reactor.DispatchFaultLoses`).
- A hard error in the middle of the drain of `async_read_et` loses the bytes drained before it, exactly when a transfer is
  followed by it with only interruptions and further transfers between them, before the drain is over
  (`Sockets.LosesExactly`, `Sockets.LossWitness`).
- A blank line before a request line ends the connection (`Http.LeadingBlankLineEnds`); `Http.AnsweredExactly` says which
  streams are answered at all. A head cut off by the end of the stream is answered as if it were complete, exactly if its
  first line is a request line with a method (`Http.CutHeadExactly`). The bytes of a request body are taken for the next
  request (`Http.ServeOne`).
- At the head of `run` only `std::exception` is caught. `run` throws exactly when the drain there is left by another
  exception, or runs through while a task is done with one (`EventLoops.PassThrowsExactly`); for all interleavings,
  `Wakeup.ExitsExactly` says what ends the loop.
- A task done with such an exception is never erased, and neither is any other from then on: `compact_finished_tasks` leaves
  before it erases anything, each time it is called (`TaskMeaning.CollectsExactly`, `TaskMeaning.OneForeignEndsCollection`,
  `EventLoops.ForeignTaskClogs`).
- `dispatch` tests EPOLLRDHUP, which is never requested, so it can never be reported; the model leaves the bit out.

## Model

| member | source | states |
|---|---|---|
| Epoll.WaitAdvances | include/coro_epoll/event_loop.hpp:127-148 | one wait reports a pollable queued descriptor or moves it at least 128 places towards the head of the ready list |
| Reactor.LoopIsSound | include/coro_epoll/event_loop.hpp:387-558 | the whole invariant (kernel valid, table agrees, batch consistent, nobody stranded, tokens linear) holds in every state of every run |
| Reactor.NoStrandedWaiter | include/coro_epoll/event_loop.hpp:396-477 | in every reachable state, LT or ET, an occupied slot whose direction is ready has an undispatched event carrying it, or its descriptor is queued and pollable for it |
| Reactor.TableMatchesEpoll | include/coro_epoll/event_loop.hpp:234-245 | the keys of the table are exactly the registered client descriptors, no entry is empty, trigger modes agree, the mask covers every waiter |
| Reactor.RegistrationsAreLinear | include/coro_epoll/event_loop.hpp:456-476 | the registrations made are the disjoint union of resumed, dropped, overwritten, taken by the current dispatch, and still in a slot |
| Reactor.AwaitSlots | include/coro_epoll/event_loop.hpp:392-437 | an await on an open descriptor always succeeds (the choice of ADD or MOD is legal) and fills exactly its own slot; otherwise nothing changes |
| Reactor.RemoveSlots | include/coro_epoll/event_loop.hpp:234-245 | a removal empties exactly the slots of its descriptor, and drops exactly the handles that were in them |
| Reactor.TakeSlots | include/coro_epoll/event_loop.hpp:451-467 | a dispatch empties exactly the slots its event carries, and takes the reader before the writer |
| Reactor.TakeTable | include/coro_epoll/event_loop.hpp:516-558 | the agreement survives a dispatch, and an entry that survives is registered for exactly the directions with a waiter |
| Reactor.StepKeepsInv | include/coro_epoll/event_loop.hpp:387-558 | every step, from any state that satisfies the invariant, keeps it |
| Reactor.ResumedAtMostOnce | include/coro_epoll/event_loop.hpp:456-476 | over any run no token is resumed twice, and none after a removal or overwrite forgot it |
| Reactor.OverwriteExactly | include/coro_epoll/event_loop.hpp:400-403 | a step overwrites a waiter if and only if it awaits an occupied direction of an open descriptor |
| Reactor.SlotLostExactly | include/coro_epoll/event_loop.hpp:456-476 | a step takes a waiter out of its slot if and only if it dispatches an event for it, removes its descriptor, or awaits its direction again |
| Reactor.IdleTakePays | include/coro_epoll/event_loop.hpp:457-469 | a dispatch that resumes nobody takes a descriptor out of the surplus (mask beyond its waiters, or stale event), and no dispatch adds one |
| Reactor.NoBusySpin | include/coro_epoll/event_loop.hpp:408-412 | over any stretch of any run the dispatches that resume nobody are at most the surplus at its start plus one per registration and removal in it |
| Reactor.NoStarvation | include/coro_epoll/event_loop.hpp:127-168 | a waiter that stays registered and ready sits through at most 1 + place/128 waits, whatever others do |
| Reactor.FaultAgreesExactly | include/coro_epoll/event_loop.hpp:413-417 | after a failing `epoll_ctl` the table still agrees with the kernel if and only if the descriptor had no entry |
| Reactor.FaultLocksOut | include/coro_epoll/event_loop.hpp:412-417 | after a failing MOD every await on the descriptor is refused without effect, and succeeds again after a removal |
| Reactor.DispatchFaultLoses | include/coro_epoll/event_loop.hpp:461-477 | when the MOD of a dispatch fails for another reason, every invariant survives, but exactly the handles the event was for are dropped |
| Reactor.DispatchFaultIsFinal | include/coro_epoll/event_loop.hpp:532-534 | after that no continuation of the run resumes one of them |
| Reactor.CloseOrderIrrelevant | include/coro_epoll/tcp.hpp:356-362 | close before remove has the same outcome as remove before close |
| EventLoops.EventLoop.AddInterest | include/coro_epoll/event_loop.hpp:387-438 | the method's new state is that of `Await`, and it reports failure exactly when no token was issued |
| EventLoops.EventLoop.Remove | include/coro_epoll/event_loop.hpp:234-245 | the method's new state is that of the transition `Remove` |
| EventLoops.EventLoop.UpdateOrRemove | include/coro_epoll/event_loop.hpp:516-534 | an entry without waiters is deleted, whatever the kernel says; otherwise the mask is narrowed, and the method throws, with nothing changed, exactly if the kernel refuses the MOD for another reason than EBADF or ENOENT |
| EventLoops.EventLoop.TakeHandles | include/coro_epoll/event_loop.hpp:451-469 | emptying the slots in place and updating the table gives the transition `Take`, with the handles in order of resumption; if the update throws it gives `TakeFault`, with the handles lost |
| EventLoops.EventLoop.DispatchClient | include/coro_epoll/event_loop.hpp:451-477 | dispatching a client event, with coroutines that await, remove, post, stop, spawn and end, gives `DispatchOne`: the reader resumed before the writer, each once |
| EventLoops.EventLoop.Post | include/coro_epoll/event_loop.hpp:121-125 | the callback goes to the end of the queue, the eventfd is signalled, and a loop with pending work cannot block |
| EventLoops.EventLoop.Stop | include/coro_epoll/event_loop.hpp:171-174 | the flag is set and the eventfd signalled |
| EventLoops.EventLoop.DrainPending | include/coro_epoll/event_loop.hpp:339-350 | the method gives `Drained`, and returns the exception that leaves it |
| EventLoops.DrainRuns | include/coro_epoll/event_loop.hpp:339-350 | a drain runs the swapped callbacks up to and including the first that throws, in order and once each; what they post is what is pending afterwards; the rest is lost |
| EventLoops.EventLoop.CompactFinished | include/coro_epoll/event_loop.hpp:352-368 | throws if and only if a task is done with an exception other than `std::exception`, that of the first such task, and then erases nothing; otherwise exactly the done tasks go, and those that run stay, each as often as before and in the old order |
| EventLoops.CompactedExactly | include/coro_epoll/event_loop.hpp:352-368 | the same of the transition, on which the histories below rest |
| EventLoops.EventLoop.Dispatch | include/coro_epoll/event_loop.hpp:442-477 | every event gives the state of `Dispatched`: the wakeup event empties the eventfd, then the queue, then collects the done tasks, and what those throw is thrown |
| EventLoops.EventLoop.RunTurn | include/coro_epoll/event_loop.hpp:141-167 | after one turn every waiter that was ready and among the first 128 of the ready list has met its fate, and the callbacks pending before have run if the eventfd was among them |
| EventLoops.EventLoop.RunPass | include/coro_epoll/event_loop.hpp:131-167 | head, wait (or EINTR) and batch give the state and the exception of `Pass`, and keep the invariant; what that does is `LoopHistory.PassServes` |
| EventLoops.EventLoop.Run | include/coro_epoll/event_loop.hpp:127-169 | for any behaviour of coroutines, callbacks, kernel and other threads, the state and the exception are those of `Passes`, and the invariant holds; what a run amounts to is `LoopHistory.RunIsExplained`, `LoopHistory.StoppedExactly` and `LoopHistory.NobodyStops` |
| EventLoops.StopEndsRun | include/coro_epoll/event_loop.hpp:131-132 | once a pass has left the flag set, or has thrown, the run is over: the batch was dispatched to its end, and there is no further wait and no further callback |
| EventLoops.RunGoesOn | include/coro_epoll/event_loop.hpp:131-132 | and only then: a pass that neither stops nor throws is followed by the next one |
| EventLoops.StopInDispatchEndsRun | examples/http-server/main.cpp:243-252 | a coroutine that `dispatch` resumes, anywhere in a batch, and that calls `stop` lets the batch be finished and ends `run` before the next wait |
| EventLoops.HeadLeavesAwake | include/coro_epoll/event_loop.hpp:133-148 | a loop that was stopped or has something pending, by its own callbacks or by other threads, comes to its wait with the eventfd readable and queued |
| EventLoops.PassThrowsExactly | include/coro_epoll/event_loop.hpp:133-139 | `run` throws if and only if the drain at its head is left by an exception other than `std::exception`, or is left by none and a task is done with such an exception |
| EventLoops.ForeignTaskClogs | include/coro_epoll/event_loop.hpp:352-368 | from the moment a task is done with such an exception no task is erased, and `run` throws at the first head whose drain does not throw before |
| EventLoops.TurnServes | include/coro_epoll/event_loop.hpp:141-167 | one turn keeps the invariant and serves every waiter that was ready and among the first 128, whatever the coroutines do meanwhile |
| EventLoops.TurnRuns | include/coro_epoll/event_loop.hpp:442-449 | a turn runs what was pending before it if the eventfd is among the first 128 of the ready list, also when coroutines earlier in the batch post more |
| EventLoops.DispatchAllRuns | include/coro_epoll/event_loop.hpp:159-167 | a batch drains the queue exactly once if the wakeup event is in it and never otherwise; the drain runs what was pending before the batch and what the events in front of it have posted, and what is posted later stays pending |
| EventLoops.ReentrantAwaitSurvives | include/coro_epoll/event_loop.hpp:456-476 | a coroutine that registers again from inside its own resumption, among any other effects, finds its token in the slot at the end of the dispatch, unless one of the coroutines resumed then removes the descriptor or awaits the same direction |
| EventLoops.StepKeepsOnItsWay | include/coro_epoll/event_loop.hpp:451-476 | between two waits a waiter with an undispatched event keeps it, or is taken, or has met its fate |
| LoopHistory.PassServes | include/coro_epoll/event_loop.hpp:131-168 | a pass waits exactly once unless its head throws; it runs the pending callbacks and erases the done tasks first; unless a signal interrupts the wait, every waiter that is ready and among the first 128 of the ready list then meets its fate, and if one does, nothing is dispatched |
| LoopHistory.RunIsExplained | include/coro_epoll/event_loop.hpp:127-174 | a run that neither throws nor is stopped makes one wait for each pass; between its ends a task is born only by a `spawn` and behind the others, goes on running exactly unless it is ended, is done only with the exception it was ended with, and disappears only if it is done |
| LoopHistory.StoppedExactly | include/coro_epoll/event_loop.hpp:131-174 | the flag is set at the end of a run if and only if it was set at its beginning, or a callback that was started, a coroutine that was resumed or another thread during one of the waits made has called `stop` |
| LoopHistory.NobodyStops | include/coro_epoll/event_loop.hpp:131-174 | if no callback, at any depth of posting, no coroutine and no other thread ever calls `stop`, the flag stays unset, and with no exception `run` makes every one of its waits |
| LoopHistory.RunIsReactorRun | include/coro_epoll/event_loop.hpp:127-169 | every run of the object is a run of the transition system, so that the theorems about reachable states are about the object |
| LoopHistory.RemoveInsideForgets | include/coro_epoll/event_loop.hpp:234-245 | a `remove` called from inside a dispatch leaves the descriptor unregistered and without waiters at its end, unless something awaits it again |
| LoopHistory.WakeupIsUsedUp | include/coro_epoll/event_loop.hpp:329-337 | after the dispatch of a wakeup event the eventfd is readable if and only if one of the callbacks run by it has signalled it again: the loop does not spin |
| LoopHistory.WakeupCollects | include/coro_epoll/event_loop.hpp:442-449 | the dispatch of a wakeup event erases exactly the tasks that are done after its drain, unless something throws |
| Wakeup.NoLostWakeup | include/coro_epoll/event_loop.hpp:121-174 | a loop blocked with an empty eventfd has nothing pending and is not stopped, unless a caller is between its change of state and its write |
| Wakeup.PostsAreConserved | include/coro_epoll/event_loop.hpp:339-350 | consumed, then local batch, then queue is all that was posted, in post order, in every interleaving |
| Wakeup.PostsAreCalls | include/coro_epoll/event_loop.hpp:121-125 | what was posted are the callbacks that `post` was called with, each at its push under the mutex; and the flag is set if and only if a `stop` has set it |
| Wakeup.WakeupsAreServed | include/coro_epoll/event_loop.hpp:442-449 | a wakeup event, and a check that lets the loop go on, lead to a swap before anything else, and from the swap on everything posted until the event or check has been consumed or is in the local batch, in its order |
| Wakeup.WakeupsAreUsedUp | include/coro_epoll/event_loop.hpp:329-333 | after a wakeup event the eventfd is empty until another `post` or `stop` writes to it |
| Wakeup.DrainsCompact | include/coro_epoll/event_loop.hpp:445-448 | a drain that runs through is followed by the compaction before the loop waits or dispatches again |
| Wakeup.NeverStuck | include/coro_epoll/event_loop.hpp:339-350 | unless it waits or has ended, the loop can take a step, or waits for a mutex whose holder can |
| Wakeup.DroppedExactlyBehindThrow | include/coro_epoll/event_loop.hpp:339-350 | a callback is dropped if and only if an earlier one of the same drain threw |
| Wakeup.ExitsExactly | include/coro_epoll/event_loop.hpp:131-139 | in every interleaving the loop has ended if and only if a check saw the stop flag, or an exception other than `std::exception` left the drain or the compaction at the head of `run` |
| Wakeup.ExitIsFinal | include/coro_epoll/event_loop.hpp:169-174 | after that nothing is swapped or consumed, and what is posted stays in the queue |
| Wakeup.StepKeepsInv | include/coro_epoll/event_loop.hpp:329-350 | every step of a loop, poster or stopper keeps mutual exclusion, wakeups, conservation and fates |
| Pool.WorkIsClaimed | include/coro_epoll/thread_pool.hpp:136-161 | with a job queued nobody has exited, somebody is awake or owed a notification, and while somebody sleeps every queued job is covered |
| Pool.StopRefuses | include/coro_epoll/thread_pool.hpp:136-145 | once stopped, the pool accepts nothing more |
| Pool.AcceptsExactly | include/coro_epoll/thread_pool.hpp:136-145 | the accepted jobs are exactly those submitted before anybody called `stop`, in the order of submission |
| Pool.NoBusyWaiting | include/coro_epoll/thread_pool.hpp:147-161 | a worker tests its predicate once when it starts, and then exactly once for each job it has finished and each time it is woken; `notify_one` wakes one |
| Pool.JoinedMeansDone | include/coro_epoll/thread_pool.hpp:56-70 | when all workers have exited every accepted job was dequeued once, in FIFO order, and has finished |
| Pool.StoppedPoolIsAwake | include/coro_epoll/thread_pool.hpp:56-62 | once a `notify_all` has followed the flag no worker waits, in that state and in every later one, also while another `stop` still owes its own |
| Pool.JoinReturns | include/coro_epoll/thread_pool.hpp:56-70 | once a `notify_all` has followed the flag the workers have an exact number of steps left, two for each queued or running job and one test each; every step of a worker is one of them, some worker can take one until none is left, and exactly then all have exited |
| Pool.StepKeepsInv | include/coro_epoll/thread_pool.hpp:136-161 | every critical section, notification, wake-up and job end keeps the pool's invariant |
| Offload.ExactlyOneToken | include/coro_epoll/thread_pool.hpp:94-116 | in every reachable state an accepted submission has exactly one token across pool queue, workers, pending queue, local batch and consumed callbacks |
| Offload.SubmittedMeansOneToken | include/coro_epoll/thread_pool.hpp:94-145 | every submission made before anybody stops the pool is accepted and has exactly one token in every later state |
| Offload.ResumedOnceAfterStore | include/coro_epoll/thread_pool.hpp:101-127 | a continuation is consumed only on the named loop, only after its value or exception is stored, and at one place only |
| Offload.DrainedMeansDelivered | include/coro_epoll/thread_pool.hpp:112-114 | when pool and loop have nothing left, the continuation was resumed, unless a callback before it in the same drain threw |
| Offload.StepKeepsInv | include/coro_epoll/thread_pool.hpp:94-127 | every step of the composed system keeps its invariant |
| TaskMeaning.TasksComputeTheirMeaning | include/coro_epoll/task.hpp:17-57 | after any run every finished task has the effects and outcome of its direct-style program on the inputs delivered, and every suspended one the effects up to its next input |
| TaskMeaning.StartsAreTasks | include/coro_epoll/event_loop.hpp:116-119 | the tasks that no task has spawned are exactly those the loop was told to start, in that order, each with the program and the locals it was given |
| TaskMeaning.InputsAreDelivered | include/coro_epoll/event_loop.hpp:471-476 | the inputs on record for a task are exactly the outcomes the loop has delivered to it, in order |
| TaskMeaning.ForgottenExactly | include/coro_epoll/event_loop.hpp:234-245 | a suspended frame is without a handle if and only if the loop was told to forget it |
| Coroutines.MoreInputs | include/coro_epoll/task.hpp:104-115 | a further input changes nothing about what a program has done: one that has ended leaves it over, one that waits goes on from its effects so far |
| Coroutines.CallLaws | include/coro_epoll/task.hpp:97-116 | awaiting a coroutine gives its value or throws its exception in the caller; running off the end gives 0; the callee works on its own locals |
| Coroutines.HandlerTakesExactly | examples/proxy-server/main.cpp:97-108 | a handler for `std::exception` takes exactly those, with the locals at the throw; any other exception goes on past it |
| Coroutines.SeqLaws | include/coro_epoll/task.hpp:48-56 | sequencing is associative, and nothing runs behind a return or a throw |
| Coroutines.HandlerOnlyForThrows | examples/proxy-server/main.cpp:97-108 | nothing but an exception reaches a handler |
| Coroutines.OrderLaws | include/coro_epoll/task.hpp:48-56 | effects come in program order, each once |
| Coroutines.ChoiceLaws | include/coro_epoll/event_loop.hpp:116-119 | a condition is decided by the locals at that point; a spawned task gets its whole body and a copy of them |
| Coroutines.AwaitLaws | include/coro_epoll/thread_pool.hpp:119-127 | an awaited operation takes the next input and no other: its value is bound, its exception is thrown in the coroutine, and without one the coroutine waits |
| TaskMeaning.LocalKeeps | include/coro_epoll/task.hpp:48-56 | a step inside a frame keeps what the frame will do in future, effects included |
| TaskMeaning.CallOnCourse | include/coro_epoll/task.hpp:97-107 | linking a continuation and starting the callee keeps the meaning of the whole chain |
| TaskMeaning.CalleeEndOnCourse | include/coro_epoll/task.hpp:30-46 | resuming the continuation with the callee's value or exception keeps the meaning of the whole chain |
| TaskMeaning.StepKeepsGood | include/coro_epoll/task.hpp:136-171 | a step of the running coroutine keeps the heap well-formed and every root on course |
| TaskMeaning.HandlesAreAlive | include/coro_epoll/event_loop.hpp:456-476 | every handle held by loop, pool or a posted callback names an allocated, suspended frame that is not done, with an intact chain to its root |
| TaskMeaning.CollectOnlyDone | include/coro_epoll/event_loop.hpp:365-367 | compaction destroys only done roots, and nothing live refers to one |
| TaskMeaning.CollectsExactly | include/coro_epoll/event_loop.hpp:352-368 | a compaction erases every done root if no root has ended with an exception other than `std::exception`, and otherwise nothing |
| TaskMeaning.OneForeignEndsCollection | include/coro_epoll/event_loop.hpp:352-363 | and once one has, no later compaction erases anything |
| TaskMeaning.SpawnsAreTasks | include/coro_epoll/event_loop.hpp:116-119 | the spawn effects of all tasks and the tasks that were not started by the loop are in one-to-one correspondence, each task with the program and the locals of its effect |
| Handles.SlotsNameLiveFrames | include/coro_epoll/event_loop.hpp:176-200 | in every reachable state of table and tasks together, every handle in `states_`, and every handle taken out by a dispatch and not yet resumed, names an allocated, suspended frame that is not running, with an intact chain to its root |
| Handles.TakenCanBeResumed | include/coro_epoll/event_loop.hpp:471-476 | whenever nothing runs, the handle a dispatch resumes next is one that can be resumed |
| Handles.OneHandleEach | include/coro_epoll/event_loop.hpp:396-406 | a waiting coroutine is behind exactly one token of the table or the dispatch, or with the pool or a posted callback and behind none |
| Handles.TasksRunOnTheLoop | include/coro_epoll/event_loop.hpp:116-119 | whatever the loop does, the tasks see a run of module `TaskMeaning`, made of exactly the steps that concern them |
| Handles.TasksOnTheLoop | include/coro_epoll/event_loop.hpp:116-119 | in particular its roots are exactly the tasks the loop was told to start, in order, and those they have spawned |
| Handles.ReactorRunsUnderTasks | include/coro_epoll/event_loop.hpp:471-476 | and the table sees a run of module `Reactor` from its initial state |
| TaskRuntime.StepWork | include/coro_epoll/task.hpp:205-209 | every step of a running coroutine uses up code, so every resumption ends |
| TaskRuntime.NestedReturns | include/coro_epoll/task.hpp:30-46 | running a nested resumption to its end and then the rest is running the flat machine |
| TaskRuntime.RunDownStack | include/coro_epoll/task.hpp:205-209 | a resumption does not touch the activations below it |
| TaskRuntime.Runtime.AwaitSuspend | include/coro_epoll/task.hpp:211-221 | the callee's frame is created and linked to its caller |
| TaskRuntime.Runtime.FinalSuspend | include/coro_epoll/task.hpp:148-164 | a root stays at its final suspend point with its outcome; otherwise the caller takes the outcome and runs |
| TaskRuntime.Runtime.Spawn | include/coro_epoll/event_loop.hpp:116-119 | the new task becomes a root and runs nested in its spawner |
| TaskRuntime.Runtime.Resume | include/coro_epoll/task.hpp:205-221 | the recursive `resume` reaches exactly the state of the flat machine, for any nesting of awaits, ends and spawns |
| TaskRuntime.Runtime.StartTask | include/coro_epoll/event_loop.hpp:116-119 | the new root has the program and the locals that were given and no inputs, so that `Meaning(prog, env, [])` fixes its effects and its end; it runs to its first suspension; the other roots keep what they were created with, and every root is where its direct-style program is |
| TaskRuntime.Runtime.CompleteIo | include/coro_epoll/event_loop.hpp:471-476 | resuming a waiter with its outcome adds exactly this outcome to the inputs of its own task and to no other, and leaves every root where its direct-style program is |
| TaskRuntime.Runtime.CompactFinished | include/coro_epoll/event_loop.hpp:352-368 | the done roots are destroyed, unless one of them has ended with an exception other than `std::exception`: then one such exception is thrown and nothing is destroyed |
| Sockets.TcpSocket.AsyncRead | include/coro_epoll/tcp.hpp:110-129 | at most `size` next bytes in order and nothing else of the buffer changes; zero only at end of stream; throws if and only if a used entry breaks it, stays suspended only after the last used entry; waits in the read slot if and only if a used entry is EAGAIN; leaves the socket open unless another coroutine has closed it during such a wait; one productive entry is enough to return |
| Sockets.TcpSocket.AsyncReadEt | include/coro_epoll/tcp.hpp:131-155 | as above over the whole drain; a result below `size` means the last `recv` ran dry; it waits only before the first byte; bytes are lost if and only if the script is one of `Loses`; uses at most one productive entry per byte and one more |
| Sockets.LosesExactly | include/coro_epoll/tcp.hpp:131-155 | a drain throws after it has taken bytes if and only if, after interruptions and waits only, a transfer with room and data comes, and then only interruptions and such transfers before a hard error |
| Sockets.LossWitness | include/coro_epoll/tcp.hpp:136-151 | for instance when three bytes come and then a reset |
| Sockets.TcpSocket.AsyncWrite | include/coro_epoll/tcp.hpp:157-180 | what is sent is a prefix of the data, all of it on return; throws if and only if a used entry breaks it; waits in the write slot if and only if a used entry is EAGAIN or takes nothing; leaves the socket open unless another coroutine has closed it meanwhile; as many productive entries as bytes are enough to return |
| Sockets.TcpSocket.Close | include/coro_epoll/tcp.hpp:99-108 | `remove` is called once for an open descriptor that has a loop, then descriptor and loop are forgotten; closing twice changes nothing; whoever closes it, the loop is told exactly once |
| Sockets.TcpServer.AsyncAcceptEt | include/coro_epoll/tcp.hpp:307-354 | the connections come in order; after the wait at the beginning it waits for nothing; it returns only when `accept` has reported EAGAIN, without a spurious one with the backlog drained; an error in the drain closes exactly the ones accepted in it; the listening socket stays as it was unless it was closed during the wait; with enough entries it returns |
| Streams.RelayRound | examples/proxy-server/main.cpp:99-105 | one round sends exactly what it received, or a prefix if it is cut short, and uses up no more productive entries than it moves bytes, and one at the end |
| Streams.Relay | examples/proxy-server/main.cpp:96-113 | at every moment what is sent is a prefix of what is received, all of it at end of file; at the end both sockets are closed, and the loop has been told of each exactly once; it fails or stalls only because of the last entry used; with more productive entries than bytes it ends with everything sent |
| Streams.TransferEnds | examples/proxy-server/main.cpp:98-113 | a transfer on healthy sockets with more productive entries than bytes comes to the end of its stream |
| Streams.TransferThen | examples/proxy-server/main.cpp:99-105 | transfers compose: a whole round followed by a partial one is a partial transfer |
| Streams.EchoRound | examples/tcp-echo-server-et/main.cpp:35-47 | one round drains, offloads and writes back exactly what it read, or a prefix if it is cut short, within its share of productive entries; it writes nothing unless the submission returns |
| Streams.Echo | examples/tcp-echo-server-et/main.cpp:31-52 | as for the relay, over the drain, the pool round trip and the partial writes; no more is sent than the rounds whose submission has returned account for; with three productive entries per byte and pool jobs that return, everything is echoed |
| Proxy.SessionIsSafe | examples/proxy-server/main.cpp:118-133 | in every state of two interleaved relays, after any error or close, both directions are prefixes, complete at end of file |
| Proxy.CloseIsFinal | include/coro_epoll/tcp.hpp:99-108 | after the close no byte is received or sent by either relay |
| Proxy.RelayCalls | examples/proxy-server/main.cpp:96-113 | what a system call of a relay does to it, exactly: it ends it, moves bytes, makes it wait, or, interrupted, changes nothing |
| Proxy.RelayWaitsThere | examples/proxy-server/main.cpp:100-104 | a relay that waits is in the slot of its own descriptor and direction |
| Proxy.SiblingWakesExactly | examples/proxy-server/main.cpp:110-112 | at the close the token of a waiting sibling is dropped if and only if it sits in its slot of the table, and is in the hands of a dispatch if and only if not; a sibling that is not lost ends at its next system call |
| Proxy.RelaysOverwriteNobody | examples/proxy-server/main.cpp:118-133 | the two relays never await the same direction of the same descriptor at once: no waiter is overwritten in any state |
| Proxy.LostForGood | examples/proxy-server/main.cpp:96-113 | a relay whose token was dropped stays where it is in every continuation: it is never resumed and never ends |
| Proxy.LostSiblingWitness | examples/proxy-server/main.cpp:110-112 | a run that loses one: the relay from the backend waits to read, the client closes |
| Http.LineAtCrlf | examples/http-server/main.cpp:77-91 | a line is what precedes the first CRLF, and exactly what follows it is left |
| Http.HeadRead | examples/http-server/main.cpp:96-147 | a written request head is read back exactly, up to its blank line and no further (sections 2.1, 3 and 5 of RFC 9112) |
| Http.ShortHeadRead | examples/http-server/main.cpp:104-122 | a request line with one space is read as method and path of an HTTP/1.0 request, with its headers |
| Http.NoSpaceIsMalformed | examples/http-server/main.cpp:104-122 | a request line without a space is an error that consumes just that line |
| Http.HeaderLineRead | examples/http-server/main.cpp:124-144 | a header line with any blanks before its value sets exactly the lower-cased name to the value, or to the blanks if there is none; a line without a colon changes nothing |
| Http.LowerFolds | examples/http-server/main.cpp:140-143 | folding takes each capital letter to its small one and leaves every other character |
| Http.HeadersAreDictionary | examples/http-server/main.cpp:124-144 | well-formed header lines are read into the dictionary of lower-cased names and values |
| Http.TrimInvertsExactly | examples/http-server/main.cpp:136-140 | the printed space is trimmed away again if and only if the value is not empty and does not start with a blank |
| Http.DictionaryFacts | examples/http-server/main.cpp:62-67 | with distinct names the order of the headers does not matter |
| Http.ResponseRoundTrip | examples/http-server/main.cpp:48-147 | `parse_request` on `to_string(r)` followed by anything finds version, status, text and headers, and leaves exactly the body and the rest |
| Http.HeadersMean | examples/http-server/main.cpp:55-67 | the parsed headers are the response's own and the three fixed ones, and Content-Length denotes the length of the body (section 6.3 of RFC 9112) |
| Http.ResponsesDecodeUniquely | examples/http-server/main.cpp:48-71 | two lists of responses with the same bytes are the same responses to a client |
| Http.ServeOne | examples/http-server/main.cpp:216-233 | one request is answered by its response, and what follows the head is served next |
| Http.KeepAlive | examples/http-server/main.cpp:216-233 | n requests back to back are answered by n responses back to back, in order |
| Http.AnswersAreGood | examples/http-server/main.cpp:177-211 | every answer satisfies the conditions of the round trip |
| Http.LeadingBlankLineEnds | examples/http-server/main.cpp:100-103 | a stream that starts with a blank line is answered by nothing |
| Http.AnsweredExactly | examples/http-server/main.cpp:99-117 | nothing is answered if and only if the stream is empty or starts with a blank line, or its first line is no request line or has no method |
| Http.CutHeadExactly | examples/http-server/main.cpp:125-129 | a stream whose head lacks its blank line, cut anywhere, is answered once, with the cut line as its last header, if its first line is a request line with a method, and by nothing otherwise |
| Http.ClientSees | examples/http-server/main.cpp:177-211 | what a client decodes from an answer: status, status text, content type, body, Content-Length and Connection, for a method other than GET, for "/", "/hello", "/json" and for any other path; and the bytes behind the answer untouched |
| HttpServer.ReadLine | examples/http-server/main.cpp:77-91 | reading byte by byte yields exactly `Line` of the stream and consumes exactly through the CRLF, and with more productive entries than bytes it does return a line |
| HttpServer.ReadRequest | examples/http-server/main.cpp:96-147 | under any kernel the request or the error is exactly that of `ParseRequest` on the stream, and with enough productive entries there is one |
| HttpServer.ToString | examples/http-server/main.cpp:48-71 | the string built piece by piece is `Render` |
| HttpServer.ServeRequest | examples/http-server/main.cpp:218-233 | one round keeps: what is sent plus what the rest of the stream calls for is the answer to the whole stream; and it pays for the productive entries it uses |
| HttpServer.HandleClient | examples/http-server/main.cpp:216-237 | under any fragmentation, EAGAIN or EINTR, what is sent is a prefix of the responses to the requests in order; with |stream| + |answer| + 5 productive entries all of them are sent and the connection ends at end of file, or at its first malformed request line; at the end the socket is closed, and the loop has been told exactly once |
| HttpServer.ServiceEnds | examples/http-server/main.cpp:218-236 | the progress half on its own: a healthy connection with that many productive entries is served to its end |
| RoundRobin.WorkerGroup.Next | include/coro_epoll/worker_group.hpp:49-52 | the calls hand out the sequence `Picks`, across wrap-arounds of the 64-bit counter |
| RoundRobin.BalancedWithoutWrap | include/coro_epoll/worker_group.hpp:49-52 | over any window without wrap-around two shares differ by at most one |
| RoundRobin.BalancedAcrossWrap | include/coro_epoll/worker_group.hpp:49-52 | with one wrap-around they differ by at most two |
| RoundRobin.BalancedWhenDividing | include/coro_epoll/worker_group.hpp:49-52 | if the number of loops divides 2^64 they differ by at most one, however many wrap-arounds |
| RoundRobin.FirstRoundCoversAll | examples/http-server/main.cpp:301-311 | the first N calls over N loops hand out each loop once, so each gets one listening socket |

## Left out

- Wakeup, Pool, Offload, Proxy and Handles are transition systems over values, not objects with methods, because what
  matters there is the interleaving of several threads or coroutines; one step is one access to shared state.
- An `Offload` job and a frame of `Tasks` that is away from the loop correspond by shape only; `Handles` joins `Reactor` and
  `Tasks`, with the pool as a set of frames.
- Handles: an await that `epoll_ctl` refuses is not a step there; `Reactor.Await` models it.
- The kqueue branch, whose delivery rules differ.
- Loops inside coroutine bodies: `Coroutines.Stmt` is a finite tree, so a loop appears unrolled; the loops of the socket
  operations and examples are modelled as loops in the byte-stream layer.
- Moving `Task` and `TcpSocket` objects, the reallocation of the `tasks_` vector (frames are named by identity, which moving
  does not change), and destruction order of loops, pools and groups.
- EventLoops.EventLoop.DispatchClient: takes the case in which the kernel does not refuse the MOD; the other one is in
  `EventLoops.EventLoop.TakeHandles` and `Reactor.DispatchFaultIsFinal`.
- EventLoops.EventLoop.RunTurn: for a waiter beyond the first 128 of the ready list the bound is that of `Reactor.NoStarvation`.
- EventLoops.EventLoop.Run: between the accesses of one pass other threads act at the wait only; `Wakeup` interleaves them
  everywhere.
- Real-time liveness and fairness of the scheduler: lost wakeups are stated as safety invariants, and progress of a stream
  as a count of system calls.
- Jobs of the pool that throw past their own handler, and resource exhaustion (`bad_alloc`, a failing eventfd write other
  than EAGAIN).
- Streams.Echo: the pool round trip is a choice of outcome per round; that it ends exactly once is `Offload`.
- Header values that are empty or start with a blank, and repeated header names: the round trip needs `GoodResponse`, and
  `Http.TrimInvertsExactly` shows that the condition on values is exact.
- The order in which a hash table enumerates headers: a response carries it as a sequence, and the theorems hold for any.
- UDP sockets, `async_connect_to`, `async_accept`, the level-triggered accept loops, `WorkerGroup::stop` and `join`, command
  lines, logging, static files, socket options and address conversion.
