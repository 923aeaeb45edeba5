# Verified model of the actor runtime

The runtime promises that every object runs as if it had one thread and that no job is lost
(README.md:17-29 of the repository). This project models the parts that promise rests on and proves
them for every interleaving, every run and every input: the lock-free queue, its node pool, the
serialized execution of one object, the rotation of queues between workers, and three smaller
stateful cores, the reader-writer lock, packet framing and the block pool.

Concurrent code is modelled twice. First as a machine: each constructor of a thread's program counter
names the next shared access, one access is one step, and theorems range over all sequences of steps
of any number of threads. Second, for the code built from retry loops, as a class whose methods are
those loops, with an arbitrary number of other threads' steps between any two accesses; their
contracts hold for every interleaving because the interference is arbitrary. Each machine keeps one
inductive invariant, preserved by every step. `dafny verify dfyconfig.toml` checks the whole project.

| file | contents |
|---|---|
| `LockFreeQueue`, `LockFreeQueueProofs` | Michael-Scott queue: machine, invariant, refinement of a FIFO, wait-free pops, lock-free pushes |
| `LockFreeQueueObject` | `Push` and `Pop` as the loops they are |
| `LockFreeQueueRecycling` | exactly what the queue demands of its node pool |
| `LockFreeQueueConsumers` | a second consumer: how the queue breaks, exactly when, and for good |
| `FreeList`, `FreeListObject` | tagged Treiber free list under unrestricted reuse, and its two loops |
| `TaskSerializer`, `TaskSerializerProofs` | posters and workers of one object, over the queue machine itself |
| `TaskSerializerObject` | `Post` and `Run` as the code they are |
| `TaskSerializerRuns` | runs that exist: a negative count, the error sentinel and what follows |
| `TaskSerializerSnapshot` | which tasks a run is sure to execute |
| `ContextMachine`, `ContextProofs` | queues circulating between slots, wait queue and workers |
| `ContextPosting` | where posts go, and that what is posted is there |
| `ContextRotation` | iterations one after another: fairness, and the loop body as a class |
| `Runtime` | objects with their tasks and the context that carries them, as one machine |
| `RWLock` | reader-writer lock with sleeping, woken and spuriously woken threads |
| `Framing`, `Receiving`, `NetworkMessage`, `Connection` | wire format, receive side as a function, the block and message classes, the send and receive loops and both ends together |
| `Buckets`, `ByteMemory`, `MemoryPool` | bucket arithmetic, byte memory with links in it, the intrusive free list, the per-thread pools |
| `Task` | the ownership-stealing task box |
| `Bytes`, `Counting`, `Sequences`, `Arithmetic`, `TaggedPointers`, `Wrappers` | numbers as bytes, sums over threads, small facts, tagged pointers, options |

## Where the code falls short of its intent

- **Two consumers of a queue.** `Pop` loads the tail before the head (Core/lockfree/LockFreeQueue.h:67-68).
  With a second consumer the head can move past a lagging tail, which then points to a node that has
  been popped and goes back to the pool: `TwoConsumersPassTheTail` gives the run, and `TailStaysIffNotRemoved` the exact
  condition, a head swap while the tail is on the node removed. Continued by one more push,
  `TwoConsumersLoseAnItem`, the push returns and its item is lost; and from there on, `StuckForGood`,
  the head never moves again and every `Pop` goes round for ever. A task queue has one consumer
  (`OneToken`), but `_waitQue` is popped by every worker (Base/Context.cpp:89); the rotation theorems
  take it as an atomic FIFO, which it is not in every run.
- **Leftover bytes at a block change.** `GetBufInfo` copies the unread bytes into the new block but
  leaves that block's tail at 0 (Base/NetworkMessage.h:43-45), so they no longer count and the next
  receive writes over them. `StreamIsKeptIffSteady` proves that the stream survives exactly if no
  block change finds unread bytes; `StraddlingPacketIsLost` shows an ordinary run, packets of 4000
  bytes read 4096 at a time, that loses some; `SentStreamIsRightUpToTheFirstLoss` says that on a sent
  stream nothing goes wrong before that.
- **Length fields.** `header->size + HeaderSize` is a sum of two `int`s, and `DataBlock::Consume`
  checks only the upper end (Base/NetworkMessage.h:57-62, Base/DataBlock.h:42-49). A header whose
  length is below 0, or above 2^31 - 9 so that the sum wraps, is accepted as soon as it is there, and
  the head does not move on as it should. `AcceptedMovesOnIffGood` gives the exact condition,
  0 <= size <= 2^31 - 9. With size -8 the extraction loop never ends (`MinusEightNeverEnds`); with
  size 2^31 - 1 the head leaves the buffer (`LargestLengthLeavesTheBuffer`); any length can be received
  (`AnyLengthCanArrive`). A sender whose bodies keep to the bound never produces such a header, and
  one that exceeds it is not read back (`DecodeEncoded`).
- **Node reuse in the queue.** Popping returns the old dummy to the pool at once, and both freeing
  and constructing reset its `_next` to tag 0 (Core/lockfree/LockFreeQueue.h:20-21, 53, 91), so the
  tag on the link does not protect a pusher asleep before its link. The queue theorems hold for any
  reuse of memory that is off the chain, in no pusher's hands and not about to be linked behind (the
  guard `Reusable`). `ReuseGuardIsExact` proves that this is exactly the reuse after which links and
  invariant are still right, and `ResetUnderAPusherLosesItsItem` gives a run in which an item is lost
  without it.
- **The error sentinel.** A remainder of exactly 2^60 tasks is taken for the error code and the
  object is not scheduled again (Base/SerializeObject.cpp:10-14). `SentinelIsReached` builds a run
  that leaves 2^60 tasks, `ForgottenForGood` proves that the object then never runs again, and
  `SentinelDropsTheToken` that this is the only way in which token and count part. The run theorems
  therefore speak of runs that link fewer than 2^60 tasks.
- **A push that returns can be overtaken.** `_size` is raised after the link, so a push between the two
  makes a run one task short: a task whose push has returned, and has even been counted, can be left
  to a later run. `RunCoversReturnedIffNoneOvertaken` gives the exact condition, that none was linked
  after a task still out, and `ReturnedPushIsLeftBehind` a run in which it fails. Nothing is lost by it
  (`NoTaskIsLost`): the late poster's count schedules the object again.
- **The unset box.** `AnyTask`'s default constructor does not set `_task` (Core/Task.h:40). A box that
  a successful `Pop` assigns to is safe whatever it held (`Journey`). But `ConsumeOne` declares a box,
  and when its `Pop` fails destroys it as it was (Core/lockfree/LockFreeQueue.h:102-110); every
  `ConsumeAll`, `Clear` and destructor ends that way, and `Clear` proves that this is one deletion
  too many unless the box happened to hold null.

## Model

| member | source | states |
|---|---|---|
| LockFreeQueueProofs.StepRefinesFifo | Core/lockfree/LockFreeQueue.h:63-157 | every atomic step of every thread keeps the whole invariant (list shape, tail last or second-last, one owner per node, size) and is a step of an abstract FIFO: the link appends, the head swap removes and returns the front value, all else is silent |
| LockFreeQueueProofs.FifoHistory | Core/lockfree/LockFreeQueue.h:63-157 | over any interleaving, what came out followed by what is inside equals what was inside followed by what was linked, in order |
| LockFreeQueueProofs.LoadSeesEmptiness | Core/lockfree/LockFreeQueue.h:69-76 | the popper's load of `head->_next` is null if and only if the FIFO is empty at that moment |
| LockFreeQueueProofs.LinkTarget | Core/lockfree/LockFreeQueue.h:139-145 | a link swap that finds null is on the true last node and the tail still points there |
| LockFreeQueueProofs.LinkInv | Core/lockfree/LockFreeQueue.h:142-146 | a successful link keeps the invariant and appends exactly the pusher's item |
| LockFreeQueueProofs.TailAdvances | Core/lockfree/LockFreeQueue.h:78-79 | a tail swap that succeeds moves the tail from the second-last node to the last |
| LockFreeQueueProofs.PopMoveHeadChain | Core/lockfree/LockFreeQueue.h:83-94 | the consumer's head swap always succeeds; the value stolen before it is the front, and the rest of the contents is untouched |
| LockFreeQueueProofs.ChainIsDetermined | Core/lockfree/LockFreeQueue.h:17-26 | the node sequence used in the proofs is the only null-terminated path from the head in memory |
| LockFreeQueueProofs.PopOutcome | Core/lockfree/LockFreeQueue.h:63-99 | `Pop` returns a value it dequeued, or false only after a load that saw the FIFO empty |
| LockFreeQueueProofs.PopIsWaitFree | Core/lockfree/LockFreeQueue.h:65-98 | with one consumer `Pop` ends within 12 of its own accesses; no pusher can set it back |
| LockFreeQueueProofs.PushIsLockFree | Core/lockfree/LockFreeQueue.h:130-157 | each own access of a push brings it nearer its end; a step of another thread sets it back by a bounded amount |
| LockFreeQueueProofs.PushBudget | Core/lockfree/LockFreeQueue.h:130-157 | over any run, one push makes at most 15 accesses plus 15 for each step that others take meanwhile |
| LockFreeQueueProofs.CanStep | Core/lockfree/LockFreeQueue.h:69-142 | no reachable access dereferences memory that does not exist |
| LockFreeQueueProofs.InitInv | Core/lockfree/LockFreeQueue.h:32-39 | the constructed queue satisfies the invariant and is empty |
| LockFreeQueueObject.StepPaced | Core/lockfree/LockFreeQueue.h:79-146 | every link is matched by one tail move, so the tail's tag plus its lag counts the items linked |
| LockFreeQueueObject.Queue.Pop | Core/lockfree/LockFreeQueue.h:63-99 | the loop under interference: a value returned is the next in link order; None only if at some moment of the call everything linked had been taken; it terminates whatever the others do |
| LockFreeQueueObject.Queue.Push | Core/lockfree/LockFreeQueue.h:51-157 | the loop under interference: the item is linked exactly once, after what this thread linked before; failed rounds are fewer than twice the items linked during the call; it terminates because the others' steps are finite in number |
| LockFreeQueueObject.Queue.ConsumerSwapHead | Core/lockfree/LockFreeQueue.h:86-92 | the head swap never fails and hands over the value taken before it |
| LockFreeQueueObject.Queue.ProducerLink | Core/lockfree/LockFreeQueue.h:139-143 | the link swap appends the thread's item, or fails because another thread linked or moved the tail since it was loaded |
| LockFreeQueueObject.Queue.constructor | Core/lockfree/LockFreeQueue.h:32-39 | one dummy node, head and tail on it, nothing in or out |
| LockFreeQueueRecycling.LinkSurvivesReset | Core/lockfree/LockFreeQueue.h:20-21 | a pending link is safe across the reset of a popped node if and only if the pusher does not hold that node |
| LockFreeQueueRecycling.ReuseGuardIsExact | Core/lockfree/LockFreeQueue.h:91 | resetting a node that is off the chain and in nobody's hands leaves every pending link and the invariant right if and only if no pusher is about to link behind it, which is the guard of all queue theorems |
| LockFreeQueueRecycling.ResetUnderAPusherLosesItsItem | Core/lockfree/LockFreeQueue.h:91 | a concrete run after which such a reset makes a link succeed behind a popped node; from there on, in every run, exactly the items linked later come out |
| LockFreeQueueConsumers.TwoConsumersPassTheTail | Core/lockfree/LockFreeQueue.h:67-95 | a concrete run of two consumers after which the tail points to a popped node |
| LockFreeQueueConsumers.TailStaysIffNotRemoved | Core/lockfree/LockFreeQueue.h:86-87 | a head swap, by whichever consumer, leaves the tail on the chain if and only if the tail was not on the node removed |
| LockFreeQueueConsumers.TwoConsumersLoseAnItem | Core/lockfree/LockFreeQueue.h:67-95 | that run continued: a push returns and its item is off the links from the head |
| LockFreeQueueConsumers.StuckForGood | Core/lockfree/LockFreeQueue.h:63-99 | from that state on, whatever pushers and both consumers do, the head stays with a null link and a `Pop` that is going round never returns |
| FreeList.SwapIsAbaSafe | Core/lockfree/free_list.hpp:77-80 | when the allocating swap succeeds, the successor read earlier is the real one now, and the node belongs to nobody |
| FreeList.StepInv | Core/lockfree/free_list.hpp:63-98 | every step of any thread, writes of owners and nodes passed from one thread to another included, keeps the list threaded, duplicate-free and apart from owned nodes |
| FreeList.NodesHaveOneOwner | Core/lockfree/free_list.hpp:63-98 | in every reachable state, whoever allocates a node and whoever frees it, each node is listed once or owned by one thread |
| FreeList.AllocationIsExclusive | Core/lockfree/free_list.hpp:63-82 | what `allocate` hands out, from the list or the system, belonged to nobody and is the caller's alone |
| FreeList.TagIsNeeded | Core/lockfree/free_list.hpp:77-79 | a reachable state in which a swap comparing pointers alone would put an owned node on the list |
| FreeList.FreedNodeIsReused | Core/lockfree/free_list.hpp:63-98 | a node freed by one thread is the one the next undisturbed allocation, by any thread, is given; no memory is added |
| FreeList.TakesNode | Core/lockfree/free_list.hpp:63-82 | an undisturbed allocation with nodes on the list takes the top, never a new one |
| FreeList.TakesSpare | Core/lockfree/free_list.hpp:68-75 | an undisturbed allocation with the list empty is served by the system |
| FreeList.FreesNode | Core/lockfree/free_list.hpp:84-98 | an undisturbed deallocation makes the node the top |
| FreeListObject.FreeListStack.Allocate | Core/lockfree/free_list.hpp:63-82 | the loop under interference: a node that is nobody else's, beside those others hand over meanwhile; failed rounds are no more than the changes of the top that other threads made; it terminates because the others' steps are finite in number |
| FreeListObject.FreeListStack.Deallocate | Core/lockfree/free_list.hpp:84-98 | the loop under interference: the node, whoever allocated it, leaves the caller's hands and is the top; failed rounds are fewer than changes of the top, of which the last is its own; it terminates because the others' steps are finite in number |
| TaskSerializerProofs.StepInv | Core/TaskSerializer.cpp:6-27 | every step of posters and workers keeps the invariant, unless it hands the sentinel to `OnRun` |
| TaskSerializerProofs.NoTaskIsLost | Core/TaskSerializer.h:20-32 | every posted task is linked once or still in its poster's hands; `_taskCount` equals linked unexecuted tasks plus executed but unsubtracted ones minus uncounted posts; tasks run in link order; with no token and no post in flight the queue is empty, the count 0 and exactly the posted tasks have run, each once |
| TaskSerializerProofs.PostedIsWhatWasPosted | Core/TaskSerializer.h:20-32 | the record of posted tasks is exactly what the posters did |
| TaskSerializerProofs.OneToken | Base/SerializeObject.cpp:8-36 | the object is scheduled, about to be, or running in at most one place, and in one if and only if `_taskCount >= 1`; so no two workers run it and the queue has one consumer |
| TaskSerializerProofs.RunsDrainTheirSnapshot | Core/TaskSerializer.cpp:11-25 | a run starts with `_size >= _taskCount >= 1` and takes `_size` as its snapshot, every pop succeeds so the `break` is unreachable, it executes exactly its snapshot, and runs never outnumber tasks |
| TaskSerializerProofs.RunExecutesWhatSizeCounts | Core/TaskSerializer.cpp:11-24 | over any run of the machine from the start of a worker's run to its subtraction: it has executed exactly its snapshot, which is at least what `_size` was at the start |
| TaskSerializerSnapshot.RunCoversReturnedIffNoneOvertaken | Core/lockfree/LockFreeQueue.h:142-155 | a run executes every task whose push has returned when it reads `_size` if and only if none of them was linked after a task not yet sized |
| TaskSerializerSnapshot.ReachedRunCovers | Core/lockfree/LockFreeQueue.h:142-155 | the same in every reachable state; with no push between link and size all are executed |
| TaskSerializerSnapshot.ReturnedPushIsLeftBehind | Core/TaskSerializer.cpp:11-24 | a run that leaves a task whose push had returned, and been counted, before it began |
| TaskSerializerRuns.CountGoesNegative | Core/TaskSerializer.cpp:24 | a reachable state with `_taskCount == -1`, two tasks run, nobody scheduled and one poster yet to count |
| TaskSerializerProofs.SnapshotCoversCount | Core/TaskSerializer.cpp:11 | `_size >= _taskCount >= 1` when the snapshot is read |
| TaskSerializerProofs.RunIsWaitFree | Core/TaskSerializer.cpp:12-24 | once the snapshot is read the run ends within a bound no poster can push back |
| TaskSerializerProofs.RemainderIsBounded | Core/TaskSerializer.cpp:24 | what `OnRun` is handed never exceeds the number of tasks linked |
| TaskSerializerProofs.SentinelDropsTheToken | Base/SerializeObject.cpp:10-21 | at the end of a run token and count agree if and only if the remainder is not 2^60 |
| TaskSerializerRuns.SentinelIsReached | Base/SerializeObject.cpp:10-14 | a run from the start in which `OnRun` is handed exactly 2^60 and the object is left counted and unscheduled |
| TaskSerializerRuns.ForgottenForGood | Base/SerializeObject.cpp:23-36 | after that no further task runs, whatever is posted |
| TaskSerializerProofs.RunInv | Core/TaskSerializer.cpp:6-27 | the invariant holds throughout every run linking fewer tasks than the sentinel |
| TaskSerializerObject.Serializer.Run | Core/TaskSerializer.cpp:6-27 | the method under interference: executes at least as many tasks as `_size` said, or were counted, at the call, that is all tasks then linked but as many as were not yet sized; they are the next ones in link order; on leaving the object is scheduled exactly if the count is positive |
| TaskSerializerObject.Serializer.Pop | Core/TaskSerializer.cpp:15 | `_que.Pop` inside a run always comes back with a task |
| TaskSerializerObject.Serializer.GetSize | Core/TaskSerializer.cpp:11 | the snapshot is `_size` at that moment, positive, and covers every task sized or counted at the call |
| TaskSerializerObject.Serializer.Subtract | Core/TaskSerializer.cpp:24-25 | after the subtraction and `OnRun` the worker is gone and the object is scheduled exactly if the count is positive |
| TaskSerializerObject.Serializer.Post | Core/TaskSerializer.h:20-32 | the method under any interference: this call links the task once, after what this poster linked before, and the invariant survives the gap between linking and counting, unless a worker meets the sentinel meanwhile, for which 2^60 tasks must be linked; it terminates because the others' steps are finite in number |
| Runtime.EveryObjectIsServed | Base/SerializeObject.cpp:8-36 | objects and context together, in every interleaving: each object is in the context, being scheduled or running in exactly one place while its count is positive and nowhere otherwise; with tasks and in nobody's hands it waits in a queue still in circulation; at rest everything posted has run, once |
| Runtime.PoppedObjectIsReady | Base/Context.cpp:23-29 | whatever a worker pops is an object that its own protocol has scheduled and that no other worker runs |
| Runtime.ContextStep | Base/Context.cpp:19-121 | posts and pops are the only steps that change what is on its way through the context, by one object each |
| Runtime.StepInv | Base/Context.cpp:19-121 | every step of every thread keeps the context holding each object as often as the object's protocol says it is scheduled |
| ContextProofs.StepInv | Base/Context.cpp:75-121 | every step of workers and posters keeps every queue in one place and every object accounted for |
| ContextProofs.QueuesCirculate | Base/Context.cpp:66-93 | in every reachable state each queue is in exactly one slot, wait position or worker's hands; the wait queue holds one per slot plus one per empty-handed worker; nobody shares a held queue |
| ContextProofs.WaitQueueServes | Base/Context.cpp:88-89 | `_waitQue.Pop` in `Run` never fails |
| ContextProofs.NoScheduleIsDropped | Base/Context.cpp:116-121 | objects posted = run + stored + in posters' hands, as multisets; a queue loaded by a poster is still in circulation when it pushes, however far it has moved |
| ContextProofs.OnlyTheDrainerTakes | Base/Context.cpp:19-41 | any step leaves a queue's contents a prefix of what they become, or is its drainer taking the front |
| ContextProofs.DrainTerminates | Base/Context.cpp:19-34 | while a worker drains a queue, contents plus posts already bound for it shrink with each pop and nobody else's step enlarges them |
| ContextPosting.PostsTakeTurns | Base/Context.cpp:118 | in any interleaving every post is given a slot, and consecutive posts consecutive ones |
| ContextPosting.WorkersTakeTurns | Base/Context.cpp:84 | and so are the workers' swaps |
| ContextPosting.ConsecutiveSlotsDiffer | Base/Context.cpp:84-118 | any N consecutive tickets name N different slots |
| ContextPosting.TicketsAreEven | Base/Context.cpp:118 | k consecutive tickets name each of N slots k / N times, rounded up or down |
| ContextPosting.PostsSpreadEvenly | Base/Context.cpp:116-121 | k posts with no swap between lengthen each slot's queue by k / N, rounded up or down |
| ContextPosting.PostsAreStored | Base/Context.cpp:116-121 | everything posted is stored, in addition to what was there |
| ContextPosting.DrainBalances | Base/Context.cpp:19-34 | draining a queue removes exactly what is run and stores exactly what that posts |
| ContextRotation.TurnPermutes | Base/Context.cpp:84-89 | an iteration only permutes the queues |
| ContextRotation.DrainedFromSlot | Base/Context.cpp:84-93 | a queue whose slot's ticket comes up in d iterations is drained in iteration d + N exactly, whichever workers take them |
| ContextRotation.DrainedFromWaitQueue | Base/Context.cpp:88-93 | the k-th waiting queue is drained in iteration k |
| ContextRotation.SlotIsDrainedWithinTwoRounds | Base/Context.cpp:84-93 | a queue in any slot is drained within the next 2N iterations |
| ContextRotation.TurnIsFiveSteps | Base/Context.cpp:84-93 | five atomic steps of an undisturbed worker in the machine are one such turn |
| ContextRotation.Context.constructor | Base/Context.cpp:66-73 | N queues in slots, N waiting, one per worker, all different and empty |
| ContextRotation.Context.Post | Base/Context.cpp:116-121 | the object goes to the end of the queue in the slot of the counter, every other queue is as it was, and the counter moves on by one |
| ContextRotation.Context.PostAll | Base/Context.cpp:116-121 | several posts: each at the end of the queue of the next slot, every slot's queue k / N longer, rounded up or down |
| ContextRotation.Context.Drain | Base/Context.cpp:19-34 | runs exactly what was in the queue, in order, and ends although objects post themselves and any others while they run; the queues are then those in which all that was posted has gone, in order, to the slots of the counter |
| ContextRotation.Context.Iterate | Base/Context.cpp:84-95 | the loop body performs one turn and drains the queue it obtained, which is in no slot; all that its objects post is in the queues of the slots |
| ContextRotation.Context.Run | Base/Context.cpp:75-121 | iterations by any workers one after another drain the queues the rotation says; as multisets, stored plus run equals stored before plus everything posted by what was run; after two rounds everything that was in any slot's queue has been run, in the order it was posted |
| RWLock.StepInv | Core/lock/RWLockObject.h:52-89 | every critical section and every spurious wake-up keeps counters and wake-ups right |
| RWLock.Exclusion | Core/lock/RWLockObject.h:52-89 | in every reachable state a writer excludes all others; `_readerCount` counts live read guards, `_writerCount` waiting and active writers |
| RWLock.NoReaderOvertakesAWriter | Core/lock/RWLockObject.h:52-60 | while a writer is registered no new reader is admitted, over any run: whoever reads at its end read at its start |
| RWLock.NoLostWakeup | Core/lock/RWLockObject.h:73-89 | whenever the lock is free and some thread is inside `LockRead` or `LockWrite`, one is awake and will get it; a sleeping reader implies a registered writer |
| RWLock.ReaderEntersIffNoWriter | Core/lock/RWLockObject.h:55-58 | a reader that calls or wakes is reading after that step if and only if no writer is registered, and else sleeps |
| RWLock.WriterEntersIffFree | Core/lock/RWLockObject.h:64-69 | a writer that calls or wakes is writing after that step if and only if the lock is free, and else sleeps |
| RWLock.ReadersShare | Core/lock/RWLockObject.h:52-60 | from any state without writers all threads outside can come in, one after the other, and then all read at once |
| RWLock.NoReaderWaitsForReaders | Core/lock/RWLockObject.h:52-60 | in every reachable state without writers no reader sleeps, and any that calls or wakes gets in |
| RWLock.RWLockObject.LockRead | Core/lock/RWLockObject.h:52-60 | from a call or a wake-up: the thread reads, one more reader, exactly if no writer is registered, however many readers are inside; otherwise it sleeps |
| RWLock.RWLockObject.LockWrite | Core/lock/RWLockObject.h:62-71 | from a call or a wake-up: the thread writes exactly if the lock is free, otherwise it sleeps; it registers once, not again on waking |
| RWLock.RWLockObject.UnLockRead | Core/lock/RWLockObject.h:74-79 | the last reader wakes some sleeping writer if there is one |
| RWLock.RWLockObject.UnLockWrite | Core/lock/RWLockObject.h:81-89 | wakes some sleeping writer while writers remain, else all sleeping readers |
| Framing.ParsedIsPrefixOfSent | Base/NetworkMessage.h:51-64 | parsing any prefix of a stream of packets with bodies of at most 2^31 - 9 bytes yields a prefix of the packets with the same types and bodies, and all of them from all of it, meeting good headers only |
| Framing.ParsedReencodes | Base/NetworkMessage.h:51-64 | for any bytes, the packets found up to the first bad header, encoded again, followed by the remainder are those bytes |
| Framing.ParseInPieces | Base/NetworkMessage.h:51-64 | parsing in pieces is parsing at once |
| Framing.IntRoundTrip | Base/NetworkMessage.h:56-57 | a 32-bit header field survives encoding and decoding, negative values included |
| Framing.FieldBytes | Base/Header.h:16-20 | byte i of a field is x / 256^i mod 256, negative values included |
| Framing.WireFormat | Base/Packet.h:15-21 | on the wire: the body's length, then the type, least significant byte first, then the body |
| Framing.EncodeInvertsFirst | Base/Packet.h:15-21 | the packet found at the front of some bytes encodes to exactly those bytes |
| Framing.DecodeEncoded | Base/Packet.h:15-21 | an encoded packet is found at the front, as it was sent, if and only if its body is at most 2^31 - 9 bytes |
| Framing.AcceptedMovesOnIffGood | Base/NetworkMessage.h:53-62 | whenever a packet is found, the head moves on by at least a header within the data if and only if 0 <= size <= 2^31 - 9; every other header is accepted as soon as it is there |
| Framing.SaneLoopEnds | Base/Connection.cpp:192-198 | with good headers only, the extraction loop goes round exactly once for each packet |
| Framing.FoundInEveryRound | Base/Connection.cpp:192-198 | the packets found in n rounds of the loop number n if and only if the loop goes round n times |
| Framing.MinusEightNeverEnds | Base/Connection.cpp:192-198 | with a length of -8 it goes round for ever |
| Framing.LargestLengthLeavesTheBuffer | Base/NetworkMessage.h:57-62 | with a length of 2^31 - 1 the head leaves any buffer |
| Framing.AnyLengthCanArrive | Base/NetworkMessage.h:56 | any length field can be received |
| Receiving.SteadyRunParsesTheStream | Base/Connection.cpp:171-199 | without loss, receiving in any chunks delivers what parsing the whole stream delivers |
| Receiving.DeliveredIsPrefixOfSent | Base/Connection.cpp:124-199 | however a sent stream is cut, if block changes leave nothing unread then only good headers are met, the delivered packets are a prefix of the sent ones, and all once every byte has arrived |
| Receiving.BytesBalance | Base/NetworkMessage.h:34-64 | in every run, bytes arrived = bytes delivered + bytes unread + bytes dropped at block changes |
| Receiving.StreamIsKeptIffSteady | Base/NetworkMessage.h:41-46 | in every run, what is delivered and unread makes up what arrived if and only if no block change finds unread bytes |
| Receiving.SentStreamIsRightUpToTheFirstLoss | Base/NetworkMessage.h:41-46 | a sent stream that loses bytes has a first block change that does; before it only good headers are met and what is delivered is a prefix of the packets sent |
| Receiving.WholePacketsAreSteady | Base/NetworkMessage.h:41-46 | chunks that end at packet boundaries never lose anything |
| Receiving.StraddlingPacketIsLost | Base/NetworkMessage.h:43-45 | a family of ordinary runs that lose bytes |
| DataBlocks.DataBlock.Consume | Base/DataBlock.h:42-49 | moves the head by the size if it is not above what is unread, refuses otherwise; the cursors stay in order exactly while the head does not leave the buffer |
| DataBlocks.DataBlock.Update | Base/DataBlock.h:51-59 | moves the tail if it stays within the buffer, refuses otherwise |
| NetworkMessages.NetworkMessage.GetBufInfo | Base/NetworkMessage.h:34-49 | room for one packet size; the block is kept if it has that, and if it is replaced it is untouched and its unread bytes are copied to the front of the new one, whose cursors stay at zero |
| NetworkMessages.NetworkMessage.Fill | Base/NetworkMessage.h:29-32 | a receive of at most one packet size is never refused, follows the unread bytes and changes nothing before the old tail |
| NetworkMessages.NetworkMessage.GetNetMessage | Base/NetworkMessage.h:51-64 | for every input: found exactly if the two tests pass; the head moves by the wrapped sum, and on by at least a header within the data if and only if 0 <= size <= 2^31 - 9; then the packet at the front is consumed alone and the view handed out shows it |
| PacketHelpers.Buffers | Base/Packet.h:15-21 | header and body buffers concatenate to the encoded packet |
| PacketHelpers.PacketHelper.Init | Base/Connection.cpp:84-89 | the buffer list concatenates to the encoded packet |
| PacketHelpers.PacketHelper.Update | Base/Connection.cpp:92-113 | drops exactly the first n bytes of the concatenation; the list is empty exactly when all are dropped |
| Connections.Sender.Send | Base/Connection.cpp:130-138 | a queued packet is the last of what remains to be sent, and changes nothing already there |
| Connections.Sender.Pump | Base/Connection.cpp:128-165 | for any partial write, exactly the bytes accepted of the front packet go on the wire, and it is done exactly if all that was left of it was accepted; the wire stays a prefix of the queued stream and is all of it once nothing is pending |
| Connections.Recv.Extract | Base/Connection.cpp:191-198 | the inner loop delivers exactly the complete packets up to the first bad header, in order, leaves the rest, and says whether it met one |
| Connections.Recv.ExtractRounds | Base/Connection.cpp:191-198 | the inner loop on any input, bad headers included: for any number of rounds it finds the packets where the code does and leaves the head where the code does, as long as the head is inside the buffer |
| Connections.Recv.Round | Base/Connection.cpp:176-198 | one round is one step of the receive function; older bytes of the block are undisturbed |
| Connections.Recv.RoundKeeping | Base/Connection.cpp:176-198 | every view handed out before a round still shows its packet after it |
| Connections.Recv.Run | Base/Connection.cpp:171-199 | the whole loop up to the first bad header, if any: the views delivered, however early, all show their packets at the end |
| Connections.Transmit | Base/Connection.cpp:124-199 | both ends together: for any partial writes the wire carries all that was queued but what the writes leave unsent, and everything after as many writes of a packet's length as packets were queued; for any reads, if block changes find nothing unread the packets delivered are those complete in the bytes read, a prefix of those queued, and all of them once everything is read |
| Connections.EnoughWritesDrain | Base/Connection.cpp:141-165 | if the last writes are at least as many as packets were queued and each accepts a packet's length, nothing is left unsent |
| Buckets.IndexNamesBucket | Core/memory/MemoryPool.h:130-145 | 2^(index+2) is the bucket size, which holds the size, is a multiple of 8 and has the size's own index |
| Buckets.BucketIsTight | Core/memory/MemoryPool.h:136-137 | the bucket is less than twice the size, or 8 |
| Buckets.SameIndexIffSameBucket | Core/memory/MemoryPool.h:130-145 | two sizes share an index if and only if they share a bucket size |
| MemoryPools.ReleaseValid | Core/memory/MemoryPool.h:63-66 | releasing a block in use keeps the list threaded through byte memory, duplicate-free and apart from blocks in use, whose bytes stay |
| MemoryPools.UserWriteValid | Core/memory/MemoryPool.h:49-66 | no byte a user writes inside a block in use harms the pool or another block |
| MemoryPools.GrownShape | Core/memory/MemoryPool.h:74-106 | a new chunk's blocks join aligned and without overlap |
| MemoryPools.HandOutValid | Core/memory/MemoryPool.h:55-60 | what is handed out was not in use, is an aligned place in a chunk and overlaps no block in use |
| MemoryPools.BlocksAreAligned | Core/memory/MemoryPool.h:88-105 | every block, listed or in use, is aligned to 8 and holds its link inside itself |
| ByteMemory.StoreLoad | Core/memory/MemoryPool.h:99 | an address written as eight bytes is read back, and no other byte changes |
| MemoryPools.ChunksMatchPeak | Core/memory/MemoryPool.h:49-122 | chunks = ceil(peak / COUNT), the peak being the greatest number of blocks in use after any call so far; free + in use = COUNT * chunks |
| MemoryPools.MemoryPool.LinkBlocks | Core/memory/MemoryPool.h:88-105 | the loop threads all blocks of a chunk, last block first, down to null, and writes nothing outside the chunk |
| MemoryPools.MemoryPool.Alloc | Core/memory/MemoryPool.h:74-122 | a new chunk becomes a free list of COUNT aligned blocks, apart from all others, and no byte of a block in use changes |
| MemoryPools.MemoryPool.Get | Core/memory/MemoryPool.h:49-61 | an aligned block that was not in use and overlaps none in use, of which no byte changes; the list loses exactly it, growing by one chunk only when empty |
| MemoryPools.MemoryPool.Release | Core/memory/MemoryPool.h:63-70 | the block becomes the front of the list and the other blocks in use keep every byte |
| ThreadPools.TLSMemoryPools.Get | Core/memory/MemoryPool.h:148-157 | the pool found by index serves exactly the type's bucket size, which holds it; the block is aligned and overlaps no block in use of any pool of the thread, and none of their bytes change |
| ThreadPools.TLSMemoryPools.Release | Core/memory/MemoryPool.h:159-162 | the block goes back to the pool it came from; every other block in use, of any pool, keeps its bytes |
| ThreadPools.TLSMemoryPools.UserWrite | Core/memory/MemoryPool.h:148-162 | a byte written inside a block in use harms no pool of the thread and no other block |
| MemoryPools.OtherPoolStays | Core/memory/MemoryPool.h:128 | what one pool does inside its chunks leaves every other pool valid and its blocks' bytes unchanged |
| Tasks.AnyTask.From | Core/Task.h:41-50 | the new box has the task and the old one is empty |
| Tasks.AnyTask.Assign | Core/Task.h:51-62 | the task moves over and the source is emptied |
| Tasks.AssignKeepsOwnership | Core/Task.h:51-62 | a task stays in at most one box, and is lost exactly if the box assigned to held it, by overwriting or by assignment to itself |
| Tasks.Journey | Core/Task.h:41-90 | on the way from post to execution a task runs once and is deleted once, whatever the caller's box held before |
| Tasks.ConsumeOne | Core/lockfree/LockFreeQueue.h:102-110 | takes and deletes the first task, or on an empty queue deletes what its unset box happens to hold |
| Tasks.Clear | Core/lockfree/LockFreeQueue.h:113-127 | every task left is deleted once and never run, and whatever the last unset box holds is deleted as well |

## Left out

- Weak memory order and spurious failure of weak compare-and-swap: every atomic access is one
  sequentially consistent step that fails only if the value differs.
- Tag wrap-around: tags are unbounded; the code's wrap at 65535 in the compressed form.
- Node reuse outside the guard `Reusable`: the queue machine does not let the pool reset a node about
  to be linked behind, which the code does; the free list itself is proved under any reuse.
- More than one consumer of a `LockFreeQueue` in the queue theorems: the single-consumer discipline is
  the one stated at Core/TaskSerializer.h:34. `_waitQue` is an atomic FIFO here, and so is the queue
  inside `SerializerQueue`.
- Integer widths of counters: `_size`, `_taskCount`, the ticket counters, the reader and writer
  counts and the loop's `int i` are unbounded, except for the sentinel 2^60.
- Exceptions escaping tasks, `Stop`, teardown of the context, logging and the executed-task counter.
- Coroutines, sockets, accept and connect, `Connection::Close`, Redis and `NetworkContext`: TCP is a
  reliable byte stream, a write accepts any number of the bytes offered, and an error ends the run.
- FlatBuffers: a body is a sequence of bytes; `RecvPacket::Get`, which refuses a body at the very
  end of a block, is not modelled. UDP packets are not modelled.
- `TSharedPtr` and `ObjectPool` reference counts: objects and blocks that are used stay alive.
- Connections.Recv.Extract: stops in front of a bad header, and so do Connections.Recv.Round,
  RoundKeeping and Run. How the loop goes on is `ExtractRounds`; what it reads once its head has left
  the buffer is not modelled.
- `malloc`: its answer is a parameter, aligned and apart from every chunk of every pool of the thread; the chunk header's own
  bytes and the walk to the end of the chunk list are not modelled, the list is a sequence.
- Block sizes that are not multiples of 8: `BucketSize_v`, the only source of sizes, yields none.
- Release of a block on another thread than the one that got it: one set of pools is one thread's.
- The worker loop under interleaving, and objects and context together, are step machines on values,
  not classes; the class `Context` takes iterations one after another.
- `DateTime`, RTTI, identifiers, singletons and the object manager: easy members.
