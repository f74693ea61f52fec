# A verified model of the async runtime engine

The engine runs tasks on a work-stealing thread pool and I/O on a completion ring. This project
models the parts of it whose correctness depends on how threads interleave, and proves what they
keep in every interleaving.

- **The Chase-Lev deque** (`Ring`, `Deque`, `DequeSafety`, `DequeRuns`, `DequeOrder`, `InPlaceDeque`). One owner
  and any number of thieves, every atomic load, store and compare-exchange a separate step, a
  growing power-of-two array with retired predecessors. `Deque` is the step machine;
  `InPlaceDeque` is the class in the form of the source, whose methods are proved to take exactly
  the machine's steps while the other threads interfere between any two of them.
- **The pool** (`Pool`, `PoolSafety`, `PoolWakeups`, `PoolConservation`, `PoolSweep`, `PoolSearch`,
  `PoolScan`, `PoolThieves`, `PoolAlone`, `PoolCalls`, `StealSweep`). Any number of workers and
  external callers over those deques: search, steal sweep, spinning, sleeping and waking through
  `sleeping_workers`, mutex and condition variable, shutdown, teardown. `PoolSearch` and `PoolScan`
  say over whole runs what a worker must have seen to do what it does; `PoolAlone` and `PoolCalls`
  say, to the step, where a worker, a caller or the destructor gets when nobody interferes.
- **I/O completion and cancellation** (`Io`, `IoSafety`, `IoRuns`, `IoStop`, `IoStart`, `EventLoop`).
  `stop_helper`'s start racing with its stop callback, what reaches the kernel, heap callbacks, the
  batched completion loop, `stop`. `EventLoop` is the loop in the form of the source, proved to
  take the steps of the machine in `Io`. (`Iteration` holds walks of repeated steps.)
- **The echo programs** (`EchoSession`, `FixedBuffers`, `FixedServer`, `EchoLink`, `LoadClient`,
  `EpollServer`). The callback-driven echo session, the registered-buffer allocator and the server
  that runs many sessions on its one array, the load generator composed with a session over FIFO
  channels, and the epoll reactor's connection handler.

In the machines a schedule is any sequence of actions; an action that is not enabled changes
nothing. So a lemma over all schedules is a statement about every reachable state.

## Assumptions

- Steps are sequentially consistent. `top_` and `bottom_` are mathematical integers.
- Every allocation of a task, an array or a callback has a new identity; the null pointer is 0.
- A thread works for one pool only: `local_queue` (src/thread_pool.cpp:157) is not tied to a pool.
- The capacity of a deque is a positive power of two. The constructor's assertion also admits 0,
  with which there never is a slot (`Ring.ZeroNeverGrows`); the source only ever uses 1024.
- The destructor is not called while an external `enqueue` is under way, and none starts after it.
- A critical section of the global queue's own mutex is one step.
- `accept` never returns a descriptor that a live connection has.
- The kernel posts no more completions than the ring has room for.
- The kernel completes each submission once; one thread calls `run`; an operation's state outlives
  its `start`; `stop` is not called before `run` has set `running`; a submission entry is available.
- What a receive, a send, `wait_cqe` or a registration returns is a parameter or a free choice. A
  send of at least one byte does not return 0, and the kernel reports events only for registered
  descriptors.
- The architecture document says that the start of a steal sweep comes from a linear congruential
  generator. The code has a 32-bit xorshift, and so does the model.

## Model

| member | source | states |
|---|---|---|
| `Ring.MaskIsModulo` | src/thread_pool.cpp:27-37 | for every index and power-of-two capacity, `i & mask`, computed bit by bit, is `i` modulo the capacity |
| `Ring.AssertionAcceptsPowersOfTwo` | src/thread_pool.cpp:43-46 | the constructor's assertion holds of a capacity if and only if it is a power of two or 0 |
| `Ring.ZeroNeverGrows` | src/thread_pool.cpp:33-40 | a capacity of 0, which the assertion lets through, stays 0 however often the array grows |
| `Ring.DoublingsStayPowersOfTwo` | src/thread_pool.cpp:33-40 | any number of growths leaves a power of two, strictly larger each time |
| `Ring.MaskInjectiveOnWindow` | src/thread_pool.cpp:33-40 | two different logical indices less than a capacity apart never share a slot |
| `Ring.PutThenGet` | src/thread_pool.cpp:70 | a store at an index is what a load at that index finds, and no other index within a capacity notices it |
| `DequeSafety.StepRefines` | src/thread_pool.cpp:59-109 | every step keeps the invariant and does to the abstract queue what its label says: nothing, append at the back, remove the back, find it empty, or remove the front |
| `DequeSafety.StealSucceeds` | src/thread_pool.cpp:102-108 | a thief whose compare-exchange succeeds removes the front of the queue and disturbs neither the owner nor another thief |
| `DequeRuns.Linearizable` | src/thread_pool.cpp:59-109 | every schedule has a history that a sequential deque allows, that ends in the machine's queue and that pushes, pops and steals in order what the machine did, up to the owner's one unfinished call |
| `DequeRuns.StepConserves` | src/thread_pool.cpp:59-109 | no step creates or destroys a task: what is inside changes only by a call to push and by results of pop and steal |
| `DequeRuns.Conservation` | src/thread_pool.cpp:59-109 | in every schedule, times pushed = times popped + times stolen + times still inside, for every task |
| `DequeRuns.PushOverwritesNothing` | src/thread_pool.cpp:59-93 | in every reachable state top <= bottom (top <= bottom + 1 while a pop has lowered bottom), at least one slot is free, and a push that decided on a stale top stores into a slot of no live index |
| `DequeRuns.NullPopMeansEmpty` | src/thread_pool.cpp:74-93 | a pop returns null only when the queue is empty, also as it returns |
| `DequeRuns.RetiredArraysAreFrozen` | src/thread_pool.cpp:64-69 | over any run top never falls, the history only grows, and a retired array is never written again |
| `DequeRuns.FrontIsStable` | src/thread_pool.cpp:74-109 | no ABA: while top stays put, the front task is the same one, however many pushes and pops happen and indices are reused |
| `DequeRuns.StaleArrayStillServes` | src/thread_pool.cpp:95-109 | a thief that stalled with an array pointer across anything, growths included, holds a published or kept array; it then returns the current front if top has not moved and null if it has |
| `DequeOrder.RealTime` | src/thread_pool.cpp:59-109 | every operation takes effect inside its call: at a call of push or pop the history holds exactly the earlier calls' operations, at its return that of this call too, and a steal takes effect in its last step, if it returns a task |
| `DequeOrder.NullStealMeans` | src/thread_pool.cpp:95-109 | a steal returns null only if somebody else took a task since it loaded top, or at its load of bottom the queue was empty or the owner's pop had bottom lowered over the last task |
| `DequeOrder.PlainPopIsFinal` | src/thread_pool.cpp:74-93 | a task that a pop takes without a compare-exchange, if pushed once, is stolen at no moment of any run: not before, not meanwhile, not later |
| `InPlaceDeque.Explained` | src/thread_pool.cpp:20-122 | at every moment of the object's life a sequential history accounts for its contents, for everything pushed, every pop result and every task stolen |
| `InPlaceDeque.WorkStealingDeque.constructor` | src/thread_pool.cpp:43-46 | a new deque of the given capacity is the machine's initial state, with nothing pushed, returned or stolen |
| `InPlaceDeque.WorkStealingDeque.Push` | src/thread_pool.cpp:59-73 | under any interference, the tasks stolen so far followed by the queue are what they were, then the task: thieves take from the front only, and nothing is lost, doubled or reordered |
| `InPlaceDeque.WorkStealingDeque.Grow` | src/thread_pool.cpp:33-40 | under interference, the new array holds the old one's task at every logical index in [t, b) |
| `InPlaceDeque.WorkStealingDeque.Pop` | src/thread_pool.cpp:74-93 | under any interference, the tasks stolen so far followed by the queue lose exactly the result at the back, or nothing if it is null, and null comes only from an empty deque |
| `InPlaceDeque.WorkStealingDeque.Steal` | src/thread_pool.cpp:95-109 | under any steps of the owner and the other thieves, a task it returns is the front of the queue that its last step removes; null removes nothing |
| `PoolSafety.StepSafe` | src/thread_pool.cpp:181-316 | every step of workers, tasks, callers and destructor keeps the pool's invariant: sound deques, owners inside pop or push exactly when their workers are, one mutex holder, exact sleeper count, empty deques behind workers that found nothing, an orderly shutdown |
| `PoolSafety.FreeingFindsNothing` | src/thread_pool.cpp:48-57 | after the joins the destructor of a deque deletes no task |
| `PoolWakeups.ScanStep` | src/thread_pool.cpp:299-316 | the scan misses nothing: every step keeps that, when nobody else is awake or about to notify, all that a worker's scan has passed, loading bottom and top of each deque at different moments, is empty |
| `PoolWakeups.NoLostWakeup` | src/thread_pool.cpp:194-316 | in every reachable state without stop, if a task is queued then a worker is awake or notified, or an external caller is between its push and its notify |
| `PoolWakeups.SleeperCountIsExact` | src/thread_pool.cpp:297-304 | `sleeping_workers` is always the number of workers between its increment and its decrement |
| `PoolWakeups.ShutdownLeavesNobodyBlocked` | src/thread_pool.cpp:181-192 | once the destructor has notified, nobody is blocked or will block again, and a worker that has left its loop left an empty deque |
| `PoolConservation.StepBalance` | src/thread_pool.cpp:181-307 | every step keeps, for every task, times enqueued = times in a caller's hands, the queue, the deques, workers' hands, executed and freed |
| `PoolConservation.EveryTaskInOnePlace` | src/thread_pool.cpp:194-307 | in every reachable state an enqueued task is in exactly one of those places |
| `PoolConservation.AfterJoins` | src/thread_pool.cpp:181-192 | after the joins every deque is empty, and each task was executed once, is in the global queue, or was freed from it: exactly one of the three |
| `PoolConservation.NestedTasksAreExecuted` | src/thread_pool.cpp:194-206 | a task enqueued from inside a worker's task has been executed exactly once by then |
| `PoolConservation.TeardownSettlesEveryTask` | src/thread_pool.cpp:146-192 | after teardown every task has been executed or deleted unrun, exactly once and never both |
| `PoolSweep.SweepFindsNothing` | src/thread_pool.cpp:232-241 | in any run of the pool, a sweep that ends without a task has since its start had null from every other worker's deque, each attempted exactly once, and never attempted its own |
| `PoolSweep.EverySweepHasAStory` | src/thread_pool.cpp:220-242 | a sweep under way, at whatever step of a steal, has had null from exactly the deques at its earlier positions, at known moments since its start, and no other answer |
| `PoolSearch.EverySearchTells` | src/thread_pool.cpp:247-281 | in every run and at every moment of a search, what the worker has seen since it began is a null pop of its own deque, then for each round behind it an empty global queue and a null steal from each other deque in cyclic order, then the same as far as the round under way has come |
| `PoolSearch.WholeSweepTriesAll` | src/thread_pool.cpp:232-241 | such a round asks each other worker's deque exactly once, and never its own |
| `PoolSearch.GivesUpOnlyInVain` | src/thread_pool.cpp:264-290 | a worker asks whether to stop only after one whole round in vain, and goes for the lock only after 33 |
| `PoolSearch.FindsInOrder` | src/thread_pool.cpp:247-286 | a task that a worker comes to run is what it saw last, after nothing but a search in vain up to there: own deque first, then the queue, then the others |
| `PoolSearch.FirstInFirstOut` | src/thread_pool.cpp:124-150 | in every run the tasks appended to the global queue are, in this order, those taken from it, those deleted with it and those still in it |
| `PoolScan.TurnsBackOnlyForWork` | src/thread_pool.cpp:294-316 | in every run a scan sends its worker back only if the queue was not empty when it looked, or if a bottom it loaded earlier in this scan exceeds the top it loads now |
| `PoolThieves.ThievesAreInTheirSweeps` | src/thread_pool.cpp:232-241 | in every run a worker is inside steal on a deque if and only if that deque is where its sweep is |
| `PoolThieves.NothingToDoBlocks` | src/thread_pool.cpp:299-316 | from every safe state without stop, queue empty, every deque idle and empty, the wait's predicate takes the worker alone 2 + 2n + 1 steps for n deques and blocks it with the mutex released |
| `PoolAlone.IdleWorkerSleeps` | src/thread_pool.cpp:247-303 | in an idle pool a worker on its own searches, spins 32 rounds, scans twice and blocks as one more sleeper, in a number of steps that is given, and nothing else has changed |
| `PoolAlone.StoppedWorkerLeaves` | src/thread_pool.cpp:247-266 | told to stop and with nothing to do, it leaves its loop, in so many steps |
| `PoolAlone.StoppedAtTheLock` | src/thread_pool.cpp:289-293 | told to stop by the time it has the lock, it leaves without being counted as a sleeper |
| `PoolAlone.QueuedAtTheLock` | src/thread_pool.cpp:289-296 | a task queued by then sends it back to its search, uncounted, with the lock released |
| `PoolAlone.WokenWorkerReturns` | src/thread_pool.cpp:299-306 | once notified, with a task queued or told to stop, it is back in its search and no longer counted |
| `PoolAlone.OwnTaskFirst` | src/thread_pool.cpp:248-262 | with a task in its own deque a worker runs the one at the back, and the rest stays |
| `PoolAlone.ThenTheQueue` | src/thread_pool.cpp:250-262 | with its own deque empty it runs the task at the front of the queue |
| `PoolAlone.ThenTheOthers` | src/thread_pool.cpp:220-262 | with both empty it runs the task at the front of the first deque of its sweep that has one |
| `PoolCalls.EnqueueAppends` | src/thread_pool.cpp:194-206 | with no sleeper, an enqueue from outside appends its task and changes nothing else |
| `PoolCalls.EnqueueWakes` | src/thread_pool.cpp:194-206 | with a sleeper it appends its task, wakes a sleeper and releases the mutex |
| `PoolCalls.NestedEnqueueWakes` | src/thread_pool.cpp:202-205 | an enqueue from inside a task, once it has pushed, wakes a sleeper if there is one and otherwise goes on at once |
| `PoolCalls.DequeDestructorFrees` | src/thread_pool.cpp:48-57 | the destructor of a deque deletes exactly the tasks in it, in order |
| `PoolCalls.DestructorGetsThrough` | src/thread_pool.cpp:181-192 | once all workers have left, the destructor on its own gets through in so many steps, and deletes exactly what is left in the global queue |
| `StealSweep.XorshiftIsInvertible` | src/thread_pool.cpp:226-230 | a generator step can be undone, for all 2^32 states |
| `StealSweep.StreamsNeverMeet` | src/thread_pool.cpp:226-230 | different seeds never reach the same state after equally many steps |
| `StealSweep.StateStaysNonzero` | src/thread_pool.cpp:226-230 | the generator is stuck at zero after any number of steps if and only if its seed was zero |
| `StealSweep.TargetOnce` | src/thread_pool.cpp:232-233 | every worker is the target of exactly one position of a sweep |
| `StealSweep.LeftIsRemainder` | src/thread_pool.cpp:230 | the start is what is left of the generator's state after taking the number of workers away as often as possible |
| `StealSweep.Sweep` | src/thread_pool.cpp:232-241 | the loop tries a prefix of the cyclic order from its start, no deque twice and never its own, stops at the first task, and returns null only after every other deque gave null |
| `StealSweep.StealFromOthers` | src/thread_pool.cpp:220-242 | the same from the start that the generator's next state names, stopping at the first task; a pool of one steals from nobody and leaves the generator alone |
| `IoSafety.StepOk` | src/io_uring_ctx.cpp:37-83 | every step of operations, stop callbacks, kernel and event loop keeps the invariant |
| `IoSafety.CancellationHandshake` | include/async_runtime/io_context.hpp:345-368 | for every interleaving of start and stop callback: cancels name the submitted callback and come after it; a requested stop has issued one or two once both have finished; none without a request; an early stop submits nothing |
| `IoSafety.OneCompletion` | include/async_runtime/io_context.hpp:31-41 | a receiver is completed at most once, with the result of its one completion: value r exactly if the result is r >= 0, stopped exactly if it is -125, error e exactly if it is -e for another positive e; not while its callback is live; early-stopped ones with stopped |
| `IoSafety.LiveCallbacks` | src/io_uring_ctx.cpp:37-72 | live heap callbacks = submissions less handled completions that carried one, in every reachable state |
| `IoSafety.HandledInOrder` | src/io_uring_ctx.cpp:60-70 | completions are handled one at a time and in order, a handled callback is freed, the batched advance reports exactly the handled ones, and one without a callback touches nothing |
| `IoSafety.StopReachesTheLoop` | src/io_uring_ctx.cpp:74-83 | when the flag is cleared while the loop waits, a nop is on its way or a completion is already there |
| `IoRuns.NothingGetsLost` | src/io_uring_ctx.cpp:37-42 | in every run everything ever submitted is in flight or completed, and as many completions were posted as submissions completed |
| `IoRuns.CancelsReachTheKernel` | src/io_uring_ctx.cpp:200-206 | in every run the cancels of a pointer submitted to the kernel are as many as its operation issued, none for a pointer that no operation submitted, and each callback ever allocated was submitted in one request |
| `IoRuns.KernelIsToldToCancel` | include/async_runtime/io_context.hpp:345-368 | the handshake as the kernel sees it: once start and stop callback have finished, a requested stop has brought it one or two cancels of the submitted callback, no request none, an early stop nothing at all |
| `IoRuns.EveryStopSendsANop` | src/io_uring_ctx.cpp:74-83 | in every run nops submitted plus calls of `stop` still under way = calls of `stop` |
| `IoStart.StoppedBeforeStart` | include/async_runtime/io_context.hpp:352-359 | stopped before `start`, an operation never submits or cancels anything, however the run goes on, and is completed once, with stopped |
| `IoStart.StoppedWhileRegistering` | include/async_runtime/io_context.hpp:360-367 | stopped between the first question and the registration, it is cancelled exactly once, by `start` |
| `IoStart.StartSubmits` | include/async_runtime/io_context.hpp:352-368 | `start` on its own, in any reachable state: one new callback, its request with the kernel, the stop callback armed if stopping is possible |
| `IoStart.StopCancels` | include/async_runtime/io_context.hpp:345-350 | a stop request of a started operation on its own: one cancel of its callback is with the kernel, and nothing else changed |
| `IoStart.StartGivesUp` | include/async_runtime/io_context.hpp:352-359 | `start` on its own after a stop request: the receiver is completed with stopped and nothing else changes |
| `IoStop.StopIsFinal` | src/io_uring_ctx.cpp:49-75 | in every run, once `stop` is called and until the loop is entered anew, the flag stays cleared and the loop begins no further wait |
| `IoStop.OnlyStopClears` | src/io_uring_ctx.cpp:49-75 | in every run, a cleared flag inside the loop means that `stop` was called since the loop was entered |
| `IoStop.LeavesExactly` | src/io_uring_ctx.cpp:51-59 | a step leaves the loop if and only if it is a failed wait that was not interrupted, or a load of the cleared flag |
| `IoStop.LeavesOnlyWhenTold` | src/io_uring_ctx.cpp:49-75 | in every run the loop is left only by a failed wait or after a call of `stop` since it was entered |
| `IoStop.StopEndsTheLoop` | src/io_uring_ctx.cpp:51-83 | waiting with the flag cleared and a completion there, the loop on its own handles every completion posted and leaves, in so many steps |
| `EventLoop.IoContext.HandleBatch` | src/io_uring_ctx.cpp:60-70 | with any steps of the other threads and the kernel in between, one batch calls exactly the callbacks among the entries it consumes, in order, and consumes everything it saw; every entry consumed so far has its callback deleted and its receiver completed, with value, stopped or error as the result says; no other callback is deleted |
| `EventLoop.IoContext.CallBack` | src/io_uring_ctx.cpp:63-65 | the callback called is that of the entry at the head, and it is live |
| `EventLoop.IoContext.Delete` | src/io_uring_ctx.cpp:66 | afterwards it is not |
| `EventLoop.IoContext.RunLoop` | src/io_uring_ctx.cpp:49-72 | over any number of rounds, interrupted or failed waits included, the callbacks called are exactly those among the entries consumed, in order, by exactly the I/O machine's steps; it has left only if a wait failed or `stop` was called since it was entered |
| `FixedBuffers.FixedBufferPool.constructor` | benchmarks/server_async_engine_fixed.cpp:23-43 | a registered pool of any size has every index free once, lowest on top |
| `FixedBuffers.FixedBufferPool.Acquire` | benchmarks/server_async_engine_fixed.cpp:55-62 | takes the top free index, valid and no longer free; nothing exactly if none is free |
| `FixedBuffers.FixedBufferPool.Release` | benchmarks/server_async_engine_fixed.cpp:64-68 | puts a held index back on top of a registered pool |
| `FixedServer.Server.Accept` | benchmarks/server_async_engine_fixed.cpp:89-98 | free and held indices still partition all indices; the new session starts on its buffer, a private one exactly if none was free; no other session changes |
| `FixedServer.Server.Close` | benchmarks/server_async_engine_fixed.cpp:100-105 | only a completion that leaves nothing in flight closes a connection; the partition is kept, its index is free again, and no other session changes |
| `FixedServer.Server.LiveSpansDisjoint` | benchmarks/server_async_engine_fixed.cpp:70-72 | two live connections' spans share no byte |
| `FixedServer.Server.OperationsApart` | benchmarks/server_async_engine_fixed.cpp:111-142 | every operation in flight on registered memory touches at least one byte and only bytes of its own index's buffer, that index is not free, and no two operations' ranges overlap |
| `FixedServer.Server.Land` | benchmarks/server_async_engine_fixed.cpp:111-122 | bytes of a receive that land in its buffer before it completes, registered or private, are seen by no other session |
| `FixedServer.Server.Completes` | benchmarks/server_async_engine_fixed.cpp:111-176 | a completion moves the connection's session exactly as if it had a buffer of its own and leaves every other session alone, although all share one array; the buffer is released exactly when no operation is left in flight |
| `FixedServer.Server.Handle` | benchmarks/server_async_engine_fixed.cpp:89-202 | one event moves the server exactly as one that has a buffer for everyone; what the kernel cannot answer changes nothing |
| `FixedServer.Serve` | benchmarks/server_async_engine_fixed.cpp:179-202 | after any sequence of accepts, landings and completions the live sessions and those that are over are exactly those of the server with a buffer for everyone, replayed over the same events; each has echoed a prefix of its own input, and every connection accepted is live or over |
| `EchoSession.CompleteOk` | benchmarks/server_async_engine.cpp:30-68 | every completion, partial, empty or failed, keeps: at most one operation in flight, sends inside the buffer, sent plus unsent = received |
| `EchoSession.EchoesEverything` | benchmarks/server_async_engine.cpp:26-68 | for any sequence of completions, on a buffer that held anything, the output is a prefix of the input, and all of it whenever a receive is outstanding |
| `EchoSession.WritePhaseShrinks` | benchmarks/server_async_engine.cpp:46-68 | within a write phase each send leaves strictly less, and the session reads again exactly when nothing is left |
| `EchoSession.EndsExactly` | benchmarks/server_async_engine.cpp:30-68 | a live session ends if and only if it receives nothing, sends nothing or fails |
| `EchoSession.EchoesInOrder` | benchmarks/server_async_engine.cpp:26-68 | for any sequence of completions, the output is exactly the first bytes of what arrived, as many as the sends took |
| `EchoLink.EchoComesBack` | benchmarks/benchmark_client.cpp:104-157 | client and server under any interleaving and splitting: bytes down, unsent and up are in this order the payload between the client's offsets, and the overwritten buffer is always the payload |
| `EchoLink.CompletedRequestLeavesNothing` | benchmarks/benchmark_client.cpp:133-145 | when a request completes, no byte of it is on the wire or in the server |
| `EchoLink.CountedRequestsAreEchoed` | benchmarks/benchmark_client.cpp:120-145 | in every run, requests counted times the payload's size plus what is read of the next echo are all the bytes that came back |
| `LoadClient.Connection.SendLoop` | benchmarks/benchmark_client.cpp:104-118 | ships exactly as much of the unsent payload as the kernel takes, and turns to receiving exactly when all is sent |
| `LoadClient.Connection.ReceiveLoop` | benchmarks/benchmark_client.cpp:120-132 | reads what the kernel gives, as far as it has arrived, never past the payload, and overwrites the buffer without changing what it holds |
| `LoadClient.Connection.Finish` | benchmarks/benchmark_client.cpp:133-144 | counts a request only as the composed system's step at a complete echo |
| `LoadClient.Connection.HandleEvent` | benchmarks/benchmark_client.cpp:104-157 | after any event the buffer is the payload, and the requests counted are exactly those whose whole echo the run has brought back; a writable event sends what the kernel takes, a readable one receives what it gives, and a whole echo is counted at once, one at most |
| `EpollServer.ConnectionContext.Store` | benchmarks/server_epoll.cpp:118-121 | received bytes are kept in order behind the others, there is room before the next receive, and doubling loses nothing |
| `EpollServer.ConnectionContext.ReceiveLoop` | benchmarks/server_epoll.cpp:104-122 | keeps every byte that arrives, however it is split, and closes exactly on end of file or an error |
| `EpollServer.ConnectionContext.SendOnce` | benchmarks/server_epoll.cpp:131-138 | what the socket takes moves from the unsent bytes to the sent ones, and only a fatal error fails |
| `EpollServer.ConnectionContext.OnReadable` | benchmarks/server_epoll.cpp:103-160 | after the readable half, unsent bytes on an open connection mean that write interest is registered |
| `EpollServer.ConnectionContext.OnWritable` | benchmarks/server_epoll.cpp:162-184 | after the writable half, write interest is registered exactly if bytes are left |
| `EpollServer.ConnectionContext.HandleEvent` | benchmarks/server_epoll.cpp:95-184 | sent stays a prefix of received and grows by what the sends took, on either half of the event or both; a hang-up or an end of file closes the connection and sends nothing, a fatal error closes it, nothing else does, and unsent bytes imply write interest |
| `EpollServer.Serve` | benchmarks/server_epoll.cpp:66-184 | over any sequence of events the connection has received exactly what the handled ones brought and sent a prefix of it, as long as their sends took, and is open or closed as they say |

## Left out

- Weak memory: release, acquire and relaxed orders are modelled as sequentially consistent. In
  particular the store-then-load handshake of `stop_helper` relies on that.
- 64-bit wrap-around of `top_`, `bottom_` and ring indices, and reuse of freed addresses.
- Termination of `run`: `RunLoop` observes it for any number of rounds.
- Liveness under a fair scheduler: `PoolAlone`, `PoolCalls`, `IoStart` and `IoStop` say how far a
  thread gets on its own, but not that joins end or edge-triggered readiness is delivered.
- Draining the global queue at destruction and `wait()` as a completion barrier: the code gives
  neither, and nothing here claims them. Callbacks still pending when `run` returns are not freed.
- Tasks that throw, and a pool used from a worker of another pool.
- The pool and the cancellation handshake as classes: they are step machines over values, with the
  fields of the source, because their content is the interleaving; updates in place appear there as
  the fields of the next state.
- Update in place of the deque's array slots: an array is a value inside the field `rings`, which
  the methods reassign slot by slot, so aliasing between array objects is by index.
- `global_task_queue` as a class of its own: its critical sections are single steps of the pool.
- `schedule_sender`'s operation: its `start` only enqueues one task, so it would add an easy
  corollary of `TeardownSettlesEveryTask`.
- The other sender structs, `register_buffers` error mapping and ring initialisation, which differ
  in parameters or belong to the kernel.
- Many connections in one epoll reactor or one client thread: those two models follow one
  connection, on which its events act alone.
- Socket setup, accept loops, the client's connecting state, reconnects, timing and printing.
- The coroutine, thread-per-connection and example servers, which repeat the same echo loop.
