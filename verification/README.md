# Verified model of the oomph communication library

oomph is a C++ library for asynchronous point-to-point messages on top of MPI, UCX, libfabric and NCCL.
Its users post sends and receives with callbacks, drive them with `progress`, cancel receives, and wait; its
implementation keeps queues of request states, runs callbacks that may call back into the library, and counts
references, recursion depth and scheduled requests by hand.  This project models that machinery in Dafny and
proves what it keeps, over all runs.

- `Barrier` - the two-counter thread and rank barrier, atomic access by atomic access.
- `RequestQueue` - the MPI and NCCL request queues as classes, compacted in place.
- `Engine` - one MPI communicator driven by one thread, with callbacks on an explicit call stack.
  `EngineConservation`, `EngineNesting`, `EngineNestingWitness`, `EngineLifetime`, `EngineScheduled`,
  `EngineCancel`, `EngineKinds`, `EngineCompletion` and `EngineLiveness` prove what its runs keep and what can still
  happen in them.
- `ContextDepth` - the recursion depth of a context that several threads test and increment.
- `SharedQueue`, `SharedQueueProgress`, `SharedQueueCalls` - the multi-threaded MPI queue under every interleaving, and
  what one call does on its own.
- `Libfabric` - dispatch of libfabric completions over several communicators and threads; `LibfabricSafety`,
  `LibfabricShape`, `LibfabricProgress`, `LibfabricStuck` and `LibfabricClear` prove what it keeps, which callbacks can
  still run, and what one clearing of the queues does.
- `CancelSearch` - the cancel queues of the libfabric and UCX backends.
- `SendMulti` - one message to several destinations.
- `PingPong` - termination detection in the multi-threaded benchmark; `PingPongSafety`, `PingPongElection`,
  `PingPongWalk`, `PingPongFinish`, `PingPongDelivery` and `PingPongTagClash` prove that it is right, that it can
  always finish, that every slot can deliver, and when it is not right.
- `SharedPtr`, `UniqueFunction` - the hand-written reference-counted pointer and callable wrapper.
- `Accumulator` - on-line statistics, merging, and the reduction over ranks, over exact reals.
- `Tags`, `TagBits` - packing and matching of tags, bit by bit, and the number of tag bits.
- `Counting`, `Occurrences` - counting over sequences, used by the invariants.

What runs concurrently, or calls back into itself, is a state machine whose steps are the accesses and calls
of the code; a run is any sequence of such steps, and the theorems hold for every reachable state.  What is one
object updated in place is a class whose methods are proved against functions of the old state.  MPI,
libfabric and UCX are oracles: when a request completes, whether a cancel succeeds and in which order
messages arrive is free, within what MPI 3.1 promises (sections 3.5, 3.7.3, 3.8.4 and 5.12.1).  `dafny verify
dfyconfig.toml` checks the whole project.

Some properties that the code suggests do not hold as they stand.  For each there is a concrete failing case and
a statement of exactly when it holds:

- In-place compaction takes every reported request exactly when `MPI_Testsome` reports ascending indices
  (`MpiQueue.Collect`); reported as 1 and 0, one of two is left behind (`OutOfOrderLosesOne`).
- `cancel` removes the right entry exactly when the request is still queued (`CancelExact`).  Seen from the
  caller, every receive that is not ready is queued exactly when no callback of the receive queue is under way
  (`ReceivesQueuedIff`); in a callback, cancelling one receive can remove another (`CancelRemovesAnother`).
- A `progress` call on a queue of null handles uses the undefined count of `MPI_Testsome` as an index.  It is
  defined exactly when the queue is busy, empty or holds a handle that is not null (`ProgressDefinedIff`); one
  receive whose cancel failed is enough to break it (`LoneFailedCancelFaults`).
- A queued receive can still complete exactly when no failed cancel has nulled its handle
  (`QueuedReceiveCanComplete`, `FailedCancelStrands`).  On the shared queue it completes all the same
  (`FailedSharedCancelCompletes`, `FailedCancelStillCompletes`).
- Any operation that is neither done nor cancelled can still complete exactly when it is not such a receive and the
  library is not about to test a receive queue of null handles before user code runs again (`CanCompleteIff`); the
  failing case is the one above (`LoneFailedCancelFaults`).
- A libfabric callback that waits in a queue can still run exactly when not every thread is blocked in a cancel call
  whose target can no longer turn up and whose poll finds no receive to run (`QueuedCanRunIff`).  Cancelling a receive
  whose completion has just been queued blocks for ever, provided `fi_cancel` accepts it (`CancelOfQueuedHangs`).
- The recursion depth of a context stays within the limit plus one exactly when one thread uses it
  (`OneThreadIffLimitKept`); with `T` threads every depth up to the limit plus `T` occurs (`DepthsReached`).
- The size of the shared queue is right at rest exactly when nothing was ever cancelled (`SizeLeaksCancels`); one
  post and one cancel leave it at one (`CancelLeavesSize`).
- The ping-pong termination protocol is right exactly when slot tags stay below the done tag 0xffff
  (`RightIffTagsDistinct`, `SlotTagMeetsDoneTag`).
- libfabric announces 32 tag bits but keeps tags apart exactly up to 24 (`FabricSafeRange`; tags 0 and 2^24 clash).
- Assigning an `unsafe_shared_ptr` to itself empties it (`Pointers.CopyAssign`, `Pointers.MoveAssign`).
- Moving a `unique_function` onto itself is safe exactly when it does not hold a small callable
  (`Wrappers.MoveAssign`).
- The accumulator's maximum is right exactly when some sample reaches the smallest positive normal double
  (`MaximumExact`, `NegativeMaximum`).

## Model

| member | source | states |
|---|---|---|
| `Barrier.StepKeepsInv` | src/barrier.cpp:29-80 | every atomic access of any thread on any rank keeps the barrier invariant: phases of the two counters, one driver per rank, no rank ahead of another's rank barrier |
| `Barrier.NoEarlyExit` | src/barrier.cpp:29-80 | for any number of ranks, threads per rank and rounds, and every interleaving: once a thread has left a round, every thread it synchronises with has entered that round (all ranks for a full round, its own rank for a thread-only round) |
| `Barrier.OneElectionPerRound` | src/barrier.cpp:52-68 | each round elects exactly one thread per rank, at a moment when all the others of the rank spin; both counters stay between zero and the number of threads |
| `Barrier.Mover` | src/barrier.cpp:29-80 | in every state of the invariant in which some thread has rounds left, some thread is not blocked |
| `Barrier.AlwaysCanFinish` | src/barrier.cpp:29-80 | from every reachable state there is a continuation in which all threads on all ranks finish all rounds |
| `RequestQueue.PartitionIsStable` | src/mpi/request_queue.hpp:83-106 | the reference split puts each element after exactly the earlier ones of its own class |
| `RequestQueue.PartitionConserves` | src/mpi/request_queue.hpp:83-106 | the split loses and duplicates nothing |
| `RequestQueue.SwapRemoveConserves` | src/mpi/request_queue.hpp:126-131 | swap-remove takes away exactly the entry at the given position |
| `RequestQueue.PrefixFullIffAscending` | src/mpi/request_queue.hpp:83-105 | the scan can use all reported indices exactly when they ascend |
| `RequestQueue.TakenAsReported` | src/mpi/request_queue.hpp:83-106 | splitting by the ascending prefix of a report yields, in order, the requests at the reported positions, and everything at no such position is kept |
| `RequestQueue.OutOfOrderLosesOne` | src/mpi/request_queue.hpp:83-106 | of two requests reported as 1 and 0 only the second is collected |
| `RequestQueue.MpiQueue.Enqueue` | src/mpi/request_queue.hpp:44-48 | appends the request; every queued request still knows its position |
| `RequestQueue.MpiQueue.Collect` | src/mpi/request_queue.hpp:50-106 | re-entrant calls and an empty queue change nothing, a test without completions only clears the old batch; the call goes wrong if and only if the queue holds null handles only; otherwise the k-th collected request is the one at the k-th reported position, up to where the report stops ascending, every request at no such position stays queued, batch and queue are the two halves of the stable partition, the positions are the compacted ones, and all reported requests are collected if and only if the indices ascend |
| `RequestQueue.MpiQueue.Compact` | src/mpi/request_queue.hpp:83-106 | the in-place scan equals the stable partition by the ascending prefix of the reported indices, and writes exactly the positions of the requests that move up |
| `RequestQueue.PositionsRight` | src/mpi/request_queue.hpp:87-106 | where every queued request knew its position before compaction, every kept one knows its new position after |
| `RequestQueue.PositionsStale` | src/mpi/request_queue.hpp:87-106 | a collected request keeps the position it had |
| `RequestQueue.MpiQueue.EndBatch` | src/mpi/request_queue.hpp:115-116 | ends the batch, so that the next progress may collect again |
| `RequestQueue.MpiQueue.Cancel` | src/mpi/request_queue.hpp:119-136 | for any request that was ever enqueued: out of range exactly when its remembered position is, a failed cancel leaves the queue and nulls the handle there, a successful one removes the entry there and keeps all positions right; that entry is the request if and only if it is still queued |
| `RequestQueue.MpiQueue.Drive` | src/mpi/request_queue.hpp:44-136 | over every sequence of posts, progress calls, ends of batches and cancels up to a fault, the queue goes through exactly the states of the reference functions, and every queued request knows its position |
| `RequestQueue.CancelExact` | src/mpi/request_queue.hpp:119-136 | for every remembered position: an entry is there and removing it takes the right request if and only if that request is still queued |
| `RequestQueue.NcclQueue.Collect` | src/nccl/request_queue.hpp:47-77 | the NCCL loop computes the same stable partition by polling |
| `RequestQueue.NcclQueue.EndBatch` | src/nccl/request_queue.hpp:84-86 | ends the batch |
| `EngineConservation.StepConserves` | src/mpi/communicator.hpp:60-130 | every step of the re-entrant communicator keeps each request in one place and, from right positions before it, leaves right positions |
| `EngineConservation.ExactlyOnePlace` | src/mpi/request_queue.hpp:44-136 | in every reachable state each posted operation is queued, in a ready batch, running, done or cancelled, and in one of these only; its callback starts at most once, and never once the operation is cancelled |
| `EngineConservation.IndicesAlwaysRight` | src/mpi/request_queue.hpp:44-136 | through any nesting of posts, progress and cancels each queued request remembers its own position |
| `EngineConservation.LogsGrow` | src/mpi/communicator.hpp:60-130 | no callback, completion or cancellation is ever undone, so the counts above hold over whole runs |
| `EngineNesting.NestingBounded` | src/communicator_base.hpp:45-50 | each recursion counter is the number of inline callbacks on the stack and at most the limit plus one; a queue runs one callback at a time; callbacks nest at most 2(limit + 1) + 3 deep |
| `EngineNesting.BatchedVersusDrain` | src/mpi/request_queue.hpp:109-115 | on any well-nested stack, a queue's batched callbacks are its loops, less one if the loop is on top |
| `EngineNesting.CallbacksByCaller` | src/mpi/communicator.hpp:64-128 | every callback frame was started inline, inline for the shared receive, or by one of the three queues |
| `EngineNestingWitness.NestingBoundAttained` | src/context_base.hpp:59-64 | for every limit some run reaches the bound, so it cannot be lowered |
| `EngineLifetime.FreedOnceAtLastHandle` | src/mpi/request_state.hpp:44-56 | the reference count is the number of live handles (user, self, local); the object is freed once, when the last one dies, never before its operation is done or cancelled |
| `EngineLifetime.RawPointersLive` | src/mpi/request_queue.hpp:109-132 | every raw pointer in a queue or batch, and the one behind a running callback, refers to an object that is not freed and not ready, whatever handles the user has dropped |
| `EngineScheduled.ScheduledCountsUnfinished` | src/request_state_base.hpp:77-107 | in every reachable state each scheduled counter is the number of request states of its queue that are not ready, which are the queued, the collected and those whose callbacks run |
| `EngineLifetime.WaitAllMeansAllFinished` | include/oomph/communicator.hpp:105-114 | when the counters `wait_all` watches are zero, every request has run its callback to the end or been cancelled |
| `EngineCancel.FailedCancelStrands` | src/mpi/request_queue.hpp:119-136 | after a failed cancel of a receive, in every continuation up to a fault it stays queued, never runs and is never cancelled |
| `EngineCancel.StepStranded` | src/mpi/request.hpp:20-35 | no step of the communicator frees a stranded receive |
| `EngineCancel.StepWaiting` | src/mpi/request_queue.hpp:166-230 | on the shared queue each visit collects the request or moves it strictly forward, and nothing moves it back |
| `EngineCancel.VisitNeverEmpty` | src/mpi/request_queue.hpp:166-201 | while such a request waits, a progress call that reaches the shared queue and is not nested in another cannot find nothing, and collecting the first null handle, no later than the waiting request, is a step it can take |
| `EngineCancel.FailedSharedCancelCompletes` | src/mpi/request_queue.hpp:166-230 | a request at position p whose cancel failed is collected within p + 1 visits of the shared queue |
| `EngineKinds.StepKinds` | src/mpi/communicator.hpp:60-130 | requests stay with the queue they were posted to, also on the call stack, and only receives ever lose their handle |
| `EngineCompletion.ProgressDefinedIff` | src/mpi/request_queue.hpp:73-83 | in every reachable state a progress call that has come to a queue can go on without a fault if and only if the queue is busy, empty or holds a handle that is not null |
| `EngineCompletion.LoneFailedCancelFaults` | src/mpi/request_queue.hpp:73-83 | one receive, its failed cancel and one progress call lead to that fault |
| `EngineCompletion.QueuedReceiveCanComplete` | src/mpi/request_queue.hpp:50-136 | in every reachable state without a fault, whatever is on the call stack, some continuation completes a queued receive if and only if its handle is not null |
| `EngineCompletion.NotReadyMeansQueued` | src/request.cpp:75-81 | while the receive queue is not in progress, every receive that is not ready is queued at the position it remembers |
| `EngineCompletion.ReceivesQueuedIff` | src/request.cpp:75-81 | whenever user code runs, every receive that is not ready is queued if and only if no callback of the receive queue is under way |
| `EngineCompletion.CancelRemovesAnother` | src/mpi/request_queue.hpp:119-136 | a reachable state, inside a callback, in which cancelling a collected receive takes another one out of the queue |
| `EngineLiveness.AnyPost` | src/mpi/communicator.hpp:60-121 | user code can post every kind of operation; it waits in its queue, not ready, with one handle, and it can run inline exactly when the recursion depth is within the limit |
| `EngineLiveness.AnyBatch` | src/mpi/request_queue.hpp:73-113 | at any queue of the communicator that is not busy, for every set of live entries that is not empty, there is a step that moves exactly these to the batch, in order, and keeps all others queued |
| `EngineLiveness.AnyCancel` | src/mpi/request_queue.hpp:119-136 | a queued receive whose handle the user holds can be cancelled with either verdict: it alone leaves its queue, ready and recorded, or it stays with a null handle and nothing else changes |
| `EngineLiveness.ReadyCanBeFreed` | src/request_state_base.hpp:77-107 | user code can always bring a finished request state to be freed, once, by dropping its handles |
| `EngineLiveness.DoomedRun` | src/mpi/request_queue.hpp:73-83 | from a doomed state nothing completes any more: the run only goes on to the fault |
| `EngineLiveness.CanCompleteIff` | src/mpi/request_queue.hpp:50-230 | in every reachable state without a fault, an operation that is neither done nor cancelled, be it a send, a receive or a shared receive, queued, collected or running, can still complete if and only if the state is not doomed and it is not a receive with a null handle; while user code runs the state is never doomed |
| `SharedQueue.SharedConservation` | src/mpi/request_queue.hpp:160-230 | under every interleaving of enqueue, progress and cancel by any threads, each request is in the queue, in one thread's hands, done or cancelled, and in one only; its callback starts at most once and never after a successful cancel |
| `SharedQueue.SizeLeaksCancels` | src/mpi/request_queue.hpp:139-231 | the size counter is what is pending plus every request ever cancelled; at rest it is the queue length if and only if nothing was cancelled |
| `SharedQueue.CancelLeavesSize` | src/mpi/request_queue.hpp:160-230 | one post and one successful cancel leave an empty queue with size one, all threads at rest |
| `SharedQueueProgress.NeverCancelled` | src/mpi/request.hpp:27-35 | once a cancel has failed, no later cancel of the request succeeds, in any continuation |
| `SharedQueueProgress.EveryRequestCanComplete` | src/mpi/request_queue.hpp:160-230 | from every reachable state, whatever the threads are in the middle of, every request that was posted and not cancelled can still complete |
| `SharedQueueProgress.FailedCancelStillCompletes` | src/mpi/request_queue.hpp:160-230 | from every reachable state, whatever the threads are in the middle of, some continuation completes a request whose cancel failed |
| `SharedQueueProgress.FoundWithinPops` | src/mpi/request_queue.hpp:166-201 | while no cancel runs, such a request at position p is found within p + 1 pops by whichever threads |
| `SharedQueueCalls.OnlyTargetTouched` | src/mpi/request_queue.hpp:203-230 | any step of any thread that cancels a request or nulls its handle belongs to a cancel of that very request, finds it at the head of the queue and does just one of the two |
| `SharedQueueCalls.TargetKept` | src/mpi/request_queue.hpp:203-230 | whatever the other threads do, a cancel keeps its target until it has found the queue empty |
| `SharedQueueCalls.TouchedOnRequest` | src/mpi/request_queue.hpp:203-230 | in every run, whatever was cancelled or lost its handle some thread had been asked to cancel |
| `SharedQueueCalls.CancelAlone` | src/mpi/request_queue.hpp:203-230 | a cancel without interference leaves its queued target cancelled and gone, or with a null handle, and every other entry in its old order; with the target not queued it changes nothing |
| `SharedQueueCalls.CancelRuns` | src/mpi/request_queue.hpp:203-230 | such a call exists from every reachable state in which the thread runs user code, with either verdict |
| `SharedQueueCalls.ProgressAlone` | src/mpi/request_queue.hpp:166-201 | a progress without interference finds nothing, all handles being live, and changes nothing, or picks one request that only live handles precede, runs it once, counts it off and moves those before it behind the others in order |
| `SharedQueueCalls.ProgressRuns` | src/mpi/request_queue.hpp:166-201 | every request that only live handles precede can be picked that way, and with live handles only nothing need be found |
| `LibfabricSafety.DispatchConserves` | src/libfabric/operation_context.cpp:19-138 | each operation is being posted, with the fabric, read, queued, running, done or cancelled, and in one only; its callback starts at most once, never for a cancelled operation, and every finished one had a callback |
| `LibfabricSafety.CallbacksStayHome` | src/libfabric/communicator.hpp:349-382 | whichever thread polls a completion, the callback of a non-shared operation runs only inside a call made on the communicator it was issued on |
| `LibfabricSafety.CommunicatorDepthBounded` | src/libfabric/communicator.hpp:175-246 | a communicator's recursion depth is the number of its inline callbacks over all stacks, at most the limit plus one |
| `LibfabricShape.OnlyTargetCancelled` | src/libfabric/communicator.hpp:391-437 | a step cancels an operation only as the target of the stepping thread's own cancel call, popped from the queue that belongs to it |
| `LibfabricClear.ClearAlone` | src/libfabric/communicator.hpp:355-382 | a clearing of the callback queues without interference runs every callback queued for the communicator, sends, then receives, then those of the context, each once and in queue order, leaves these queues empty and changes nothing else |
| `LibfabricProgress.FreeRuns` | src/libfabric/communicator.hpp:349-382 | a thread that is not blocked in a cancel can run any queued callback to its end |
| `LibfabricStuck.StuckRun` | src/libfabric/communicator.hpp:391-437 | when every thread is blocked in a cancel that nothing can end, this stays so and nothing completes |
| `LibfabricStuck.QueuedCanRunIff` | src/libfabric/communicator.hpp:349-437 | in every reachable state, for any number of threads, a callback in a send, receive or context queue can still run to its end if and only if not every thread is blocked that way |
| `LibfabricStuck.CancelOfQueuedHangs` | src/libfabric/communicator.hpp:391-437 | a reachable state in which the cancel of a receive, not ready but with its completion queued, never ends and its callback never runs |
| `LibfabricStuck.FabricCanComplete` | src/libfabric/controller_base.hpp:1385-1401 | from user code every operation that the fabric still has can complete |
| `ContextDepth.StepInv` | src/context_base.hpp:59-64 | every access of the counter by any thread keeps the invariant: the counter is the number of inline callbacks on all stacks, and with the threads that passed the test and have not incremented yet it stays within the limit plus the number of threads |
| `ContextDepth.DepthBounded` | src/mpi/communicator.hpp:107-111 | for any number of threads and every interleaving of tests and increments: the counter is the number of inline callbacks on all stacks, between zero and the limit plus the number of threads, and no stack holds more than the limit plus one |
| `ContextDepth.DepthsReached` | src/context_base.hpp:59-64 | the depths that occur are exactly those from zero to the limit plus the number of threads |
| `ContextDepth.OneThreadIffLimitKept` | src/increment_guard.hpp:15-42 | the counter stays within the limit plus one in all runs if and only if there is one thread |
| `ContextDepth.CanUnwind` | src/increment_guard.hpp:36-39 | from every reachable state all callbacks can return and the counter is back at zero |
| `CancelSearch.FabricCancelQueue.PopUntil` | src/libfabric/communicator.hpp:408-427 | splits the queue and what others push meanwhile at the first occurrence of the target, or at the pop that finds nothing |
| `CancelSearch.FabricCancelQueue.PushBack` | src/libfabric/communicator.hpp:428-434 | everything set aside goes back among what others push; undisturbed, in reverse order behind the rest |
| `CancelSearch.PutBackConserves` | src/libfabric/communicator.hpp:428-434 | putting entries back one by one while others push loses and duplicates nothing |
| `CancelSearch.FabricCancelQueue.Search` | src/libfabric/communicator.hpp:408-434 | with arbitrary pushes by others during the pass: nothing but the found target is lost, and a target queued at the start is found; undisturbed, the new order is the rest followed by the passed-over entries reversed |
| `CancelSearch.AfterSearchConserves` | src/libfabric/context.hpp:100-133 | that new queue is the old one minus one occurrence of the target if it was there |
| `CancelSearch.FabricCancelQueue.CancelRecv` | src/libfabric/communicator.hpp:391-437 | a cancellation the fabric refuses changes nothing; otherwise, over any number of polls and any pushes by others, the queue is its old contents plus arrivals, minus the target once found, and the target is found in the first search at whose start it is there |
| `CancelSearch.UcxCancelQueue.ConsumeAll` | src/ucx/communicator.hpp:453-461 | with arbitrary pushes by others before each pop, the temporary vector becomes the old queue and what arrived meanwhile, in order and without the target, and the target is found exactly when it was among these |
| `CancelSearch.UcxCancelQueue.Restore` | src/ucx/communicator.hpp:463-464 | with arbitrary pushes by others before each push, nothing is lost and the vector is a subsequence of the new queue |
| `CancelSearch.UcxCancelQueue.CancelRecv` | src/ucx/communicator.hpp:453-464 | with arbitrary pushes by others throughout: the new queue holds the old entries and all arrivals, less the target if found; a target that was queued is found; of two old entries other than the target, one still stands before the other if it did; undisturbed, the queue is exactly the old one without the target |
| `CancelSearch.OthersConserve` | src/ucx/communicator.hpp:453-464 | only the target is lost |
| `CancelSearch.OthersKeepOrder` | src/ucx/communicator.hpp:453-464 | one remaining entry stands before another after the search if and only if it did before |
| `CancelSearch.WithinKeepsOrder` | src/ucx/communicator.hpp:463-464 | a subsequence keeps its order in the whole |
| `SendMulti.MultiRequest.constructor` | include/oomph/communicator.hpp:341-347 | a new multi-send has its counter at the number of destinations and no completions |
| `SendMulti.MultiRequest.Complete` | include/oomph/communicator.hpp:352-359 | the counter stays the number of destinations minus completions; the callback runs and the message is handed over exactly at the last one |
| `SendMulti.MultiRequest.PostNext` | include/oomph/communicator.hpp:348-360 | the posting loop never reads the destination list after the callback took it, even when sends complete inline |
| `SendMulti.MultiRequest.Drive` | include/oomph/communicator.hpp:339-494 | for every schedule: as many sends are posted as asked for, up to the number of destinations; each is complete if and only if it completed inside its post or a later completion came; a fresh call runs the callback and hands the message over, once, if and only if the schedule posts all sends and finishes each that did not complete at once |
| `SendMulti.AllBrought` | include/oomph/communicator.hpp:348-360 | all sends are complete exactly when the schedule posts them all and finishes each that did not complete inside its post |
| `PingPongSafety.ExitMeansDrained` | benchmarks/bench_p2p_pp_ft_avail_mt.cpp:252-256 | the loop condition can be met only in a drained rank |
| `PingPongSafety.ExitOnlyWhenDrained` | benchmarks/bench_p2p_pp_ft_avail_mt.cpp:163-256 | once a thread has left the main loop, every data message the peer ever sends has been received, none is in flight, and every slot not yet cancelled holds one outstanding receive |
| `PingPongSafety.CancelSucceeds` | benchmarks/bench_p2p_pp_ft_avail_mt.cpp:270-285 | every slot a thread cancels has its receive outstanding and the cancel cannot fail |
| `PingPongSafety.FinalCountRight` | benchmarks/bench_p2p_pp_ft_avail_mt.cpp:270-295 | after the second barrier the counter of posted receives is exactly what the peer sent |
| `PingPongSafety.NeverThrows` | benchmarks/bench_p2p_pp_ft_avail_mt.cpp:270-295 | no run reaches a throw: no cancel fails, no receive is late, and the final comparison always agrees |
| `PingPongSafety.AnnouncedTotalFinal` | benchmarks/bench_p2p_pp_ft_avail_mt.cpp:202-233 | from the moment a done message exists its sender has sent exactly that many messages and will send no more |
| `PingPongSafety.CheckedTotalRight` | benchmarks/bench_p2p_pp_ft_avail_mt.cpp:234-249 | a rank acts only on the peer's true total |
| `PingPongElection.TotalsExchangedOnce` | benchmarks/bench_p2p_pp_ft_avail_mt.cpp:212-249 | at most one thread per rank exchanges the totals, only once all threads are counted, and once it is done the total has reached the peer or waits for it; a rank acts on a total only after all its threads are counted |
| `PingPongFinish.AlwaysCanFinish` | benchmarks/bench_p2p_pp_ft_avail_mt.cpp:163-295 | from every reachable state of a valid configuration some continuation lets every thread of both ranks finish |
| `PingPongDelivery.EverySlotDelivers` | benchmarks/bench_p2p_pp_ft_avail_mt.cpp:182-198 | for every configuration, sending thread, receiving thread, slot and content some run sends from that slot and completes the receive posted for the same slot by the receiving thread, and no other |
| `PingPongDelivery.ReceiptMatches` | benchmarks/bench_p2p_pp_ft_avail_mt.cpp:182-187 | every counted receipt takes a message, first of its sender and tag, and completes one outstanding receive of the slot with its tag |
| `PingPongDelivery.SendMatches` | benchmarks/bench_p2p_pp_ft_avail_mt.cpp:192-198 | every counted send puts a message with the tag of its slot into the peer's inbox |
| `PingPongTagClash.SlotTagMeetsDoneTag` | benchmarks/bench_p2p_pp_ft_avail_mt.cpp:163-256 | with more than 0xffff slots, any number of threads, data messages of at most four bytes and messages of one sender and tag matched in order, some run gives the slot its first data message, takes the next zero-filled one for the total and acts on a wrong one |
| `PingPongTagClash.RightIffTagsDistinct` | benchmarks/bench_p2p_pp_ft_avail_mt.cpp:163-256 | for any number of threads, ranks always act on the right total if and only if there are at most 0xffff slots |
| `SharedPtr.Pointers.Make` | include/oomph/util/unsafe_shared_ptr.hpp:107-118 | a new object with one pointer; all counts stay the numbers of pointers |
| `SharedPtr.Pointers.FromThis` | include/oomph/util/unsafe_shared_ptr.hpp:203-208 | one more pointer to an object that still lives |
| `SharedPtr.Pointers.CopyConstruct` | include/oomph/util/unsafe_shared_ptr.hpp:123-127 | shares the object, or nothing |
| `SharedPtr.Pointers.MoveConstruct` | include/oomph/util/unsafe_shared_ptr.hpp:129-132 | hands the object on without touching any count |
| `SharedPtr.Pointers.Release` | include/oomph/util/unsafe_shared_ptr.hpp:162-167 | frees the object exactly when this was its only pointer |
| `SharedPtr.Pointers.CopyAssign` | include/oomph/util/unsafe_shared_ptr.hpp:134-140 | copies the other pointer if and only if it is not a self-assignment of a non-empty pointer, which ends up empty |
| `SharedPtr.Pointers.MoveAssign` | include/oomph/util/unsafe_shared_ptr.hpp:142-147 | hands the other pointer over under the same exact condition |
| `SharedPtr.Pointers.Destroy` | include/oomph/util/unsafe_shared_ptr.hpp:149-149 | ends a pointer's life; nothing is freed twice |
| `SharedPtr.Pointers.UseCount` | include/oomph/util/unsafe_shared_ptr.hpp:159-159 | reports the number of pointers that share the object |
| `SharedPtr.Pointers.Run` | include/oomph/util/unsafe_shared_ptr.hpp:101-167 | over every program no pointer points to a freed object, none is freed twice, and once no pointer points anywhere every object has been freed exactly once; the program is carried out operation by operation and stops only at its end or at an operation that is not legal |
| `SharedPtr.AllLive` | include/oomph/util/unsafe_shared_ptr.hpp:57-63 | exact counts imply both halves: pointed-to objects are not freed, objects nobody points to are freed once |
| `UniqueFunction.Wrappers.Make` | include/oomph/util/unique_function.hpp:134-149 | the wrapper reaches the new callable, in the buffer if and only if it is small; others are unaffected |
| `UniqueFunction.Wrappers.MoveConstruct` | include/oomph/util/unique_function.hpp:151-156 | the new wrapper reaches the callable, the old one is empty, others are unaffected |
| `UniqueFunction.Wrappers.MoveAssign` | include/oomph/util/unique_function.hpp:158-165 | no destroyed object is used if and only if this is not a self-move of a small callable; otherwise the target reaches the callable, what it held is destroyed once, and the source is empty |
| `UniqueFunction.Wrappers.Assign` | include/oomph/util/unique_function.hpp:167-186 | what the wrapper held is destroyed once and it reaches the new callable |
| `UniqueFunction.Wrappers.Destroy` | include/oomph/util/unique_function.hpp:188-188 | what the wrapper held is destroyed once |
| `UniqueFunction.Wrappers.TakeOver` | include/oomph/util/unique_function.hpp:219-230 | the effect of the second half of a move on objects and variants, counting uses of destroyed objects |
| `UniqueFunction.Wrappers.Run` | include/oomph/util/unique_function.hpp:126-230 | over every program without self-moves of small callables, no two wrappers reach the same callable, no destroyed object is used, and once all wrappers are empty every object was destroyed exactly once; the program is carried out operation by operation and stops only at its end or at an operation that is not legal |
| `UniqueFunction.CalleesApart` | include/oomph/util/unique_function.hpp:81-84 | two wrappers never carry the same callable |
| `UniqueFunction.AllDestroyed` | include/oomph/util/unique_function.hpp:211-217 | when no wrapper holds anything every object was destroyed once |
| `UniqueFunction.MoveMatched` | include/oomph/util/unique_function.hpp:219-230 | a move keeps live objects and non-empty wrappers in bijection, through the buffer or the heap |
| `Accumulator.OnePassHolds` | benchmarks/accumulator.hpp:73-90 | one pass gives exactly the count, mean, sum of squared deviations and minimum of any samples |
| `Accumulator.MergedHolds` | benchmarks/accumulator.hpp:95-116 | merging gives exactly the statistics of both sets of samples |
| `Accumulator.StatisticsUnique` | benchmarks/accumulator.hpp:82-116 | samples determine all five fields |
| `Accumulator.MergeIsOnePass` | benchmarks/accumulator.hpp:95-116 | merging two accumulators equals, field by field, one pass over the concatenated samples |
| `Accumulator.ReduceIsOnePass` | benchmarks/accumulator.hpp:145-161 | the fold over ranks equals one pass over all samples of all ranks |
| `Accumulator.MaximumExact` | benchmarks/accumulator.hpp:29-31 | the stored maximum is the samples' maximum if and only if some sample reaches the start value |
| `Accumulator.NegativeMaximum` | benchmarks/accumulator.hpp:29-31 | one negative sample is reported with a positive maximum |
| `Accumulator.VarianceUnbiased` | benchmarks/accumulator.hpp:56-59 | the reported variance is the unbiased one about the true mean, and zero below two samples |
| `Accumulator.Accumulator.Add` | benchmarks/accumulator.hpp:82-90 | updates all fields in place to the one-pass update |
| `Accumulator.Accumulator.AddAll` | benchmarks/accumulator.hpp:73-77 | the loop over a range is the repeated update |
| `Accumulator.Accumulator.Merge` | benchmarks/accumulator.hpp:95-116 | updates all fields in place to the merge, also when the other accumulator is the same object |
| `Accumulator.Reduce` | benchmarks/accumulator.hpp:145-161 | the gathered accumulators fold into one that stands for all samples of all ranks |
| `Tags.UcxMatchExact` | src/ucx/communicator.hpp:196-203 | with the shifts, ors and masks of the code on 64-bit words: for all 32-bit tags, negative ones included, and all ranks, a message matches a receive under its mask if and only if the tags are equal and the source is any source or the sender |
| `Tags.CastNegative` | src/ucx/communicator.hpp:135-136 | the cast of a negative tag fills the upper half with ones |
| `Tags.PackedBits` | src/ucx/communicator.hpp:135-136 | the packed word has the 32 bits of the tag above the 32 bits of the rank, whatever the sign of the tag |
| `Tags.FabricTagsCollide` | src/libfabric/communicator.hpp:86-89 | two packed words are equal if and only if the low 24 bits of tags and of context tags agree |
| `Tags.FabricSafeRange` | src/libfabric/context.hpp:136-136 | all tags below a limit stay apart if and only if the limit is at most 2^24, though 32 bits are announced |
| `TagBits.NumTagBits` | src/mpi/context.hpp:50-64 | for every maximum tag the loop yields the greatest number of bits all of whose tags are allowed |

## Left out

- Weak memory: atomic accesses are sequentially consistent; data races outside the atomics are not modelled.
- Exceptions thrown by callbacks and destruction of a communicator with requests outstanding.
- Engine: one communicator on one thread; several threads on the shared queue are `SharedQueue`, several communicators are `Libfabric`.
- Engine: a run ends at a fault; what the code does after writing outside its index array, or after working on another request's entry, is not modelled.
- Engine: `MPI_Testsome` reports ascending indices there; `MpiQueue.Collect` covers any order.
- Engine and SharedQueue: `MPI_Cancel` on a null handle is an erroneous call; it is taken to return, as in builds that ignore MPI errors, and the cancel then fails.
- Barrier.AlwaysCanFinish: says that finishing stays possible, not that every fair schedule finishes; a weak compare-exchange may fail for ever.
- PingPongFinish.AlwaysCanFinish: says that finishing stays possible, not that every fair schedule finishes.
- SharedQueueProgress.FoundWithinPops: no bound is claimed while cancels run, since each cancel takes all requests out of the queue and puts them back.
- CancelSearch.FabricCancelQueue.CancelRecv: the waiting loop is given a finite number of polls; running out of them stands for a call that still waits.
- Libfabric: whether a shared receive runs its callback inline is left free there; the context's depth that it tests is modelled by itself in `ContextDepth`.
- Libfabric: all communicators read one completion queue for sends and one for receives; a refused `fi_cancel` changes nothing and has no step; the poll at the end of `shared_recv` may read sends as well.
- LibfabricClear.ClearAlone: speaks of callbacks that return without calling back into the library.
- EngineLiveness.CanCompleteIff: says that completing stays possible, not that every fair schedule completes the operation; so do the other statements of what can still happen.
- PingPong: the clock and the readiness of sends are free; the number of OpenMP threads is the number the program was started with; `thread_barrier` is used through what `Barrier.NoEarlyExit` proves.
- PingPong: message lengths; the failing run of `SlotTagMeetsDoneTag` needs data messages that fit the four bytes of the done receive.
- SharedPtr: an object that itself holds pointers, so that freeing it releases them, is not modelled; `use_count` of an out-of-scope pointer has no meaning.
- UniqueFunction: calling an empty wrapper ends the program and is not modelled; sizes enter only as small or large.
- Accumulator: exact reals instead of doubles, so rounding and overflow of the statistics are out; samples are at most the largest finite double.
- Counters are unbounded integers; no queue or counter overflows.
- The UCX context's own `cancel_recv`, completion in single-threaded UCX builds, NCCL groups and the CUDA event pool.
- RMA channels, Fortran bindings, message buffers and device guards, controller and endpoint setup, the other benchmarks: thin wrappers, configuration or unfinished code.
