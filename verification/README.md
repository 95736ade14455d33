# Verified models of the event-passing queues

This project models, in Dafny, the concurrent protocols by which the repository's applications pass
events from manager threads to a router, and proves what they promise:

| module | models |
|---|---|
| `FreeList`, `FreeListCalls` | the CAS stack of `ConcurrentQueue` that avoids ABA with a reference count and a flag bit |
| `OptimisticDequeue`, `OptimisticCalls` | the three counters by which consumers of a `ConcurrentQueue` producer claim indices |
| `Epochs`, `BlockIndex`, `BlockGlance`, `BlockCounter`, `BlockCalls`, `CounterCalls` | the circular block index of that producer: enqueue, block reuse, index doubling, dequeue; dequeues of nothing; blocks that count instead of flagging |
| `ReaderWriterQueue`, `ReaderWriterCalls` | the ring of ring buffers with cached indices and blocks inserted on the fly |
| `Semaphore`, `SemaphoreCalls` | the many-thread `LightweightSemaphore` with timeouts that undo a decrement |
| `SpscSemaphore`, `CircularBuffer` | the single-waiter semaphore, and the blocking circular buffer built on two of them |
| `Tickets`, `AtomicQueue`, `AtomicQueueWrap`, `AtomicQueueSpsc` | 32-bit tickets plus the four-state slots, for any threads, at the wrap of the tickets, and for one producer and one consumer |
| `LockeFreeQueue` | the linked list with an exchanged tail and one draining consumer |
| `SpscQueue`, `SpscCalls`, `WakeUp` | `SPSCQueue`, and the flag-and-pipe wake-up protocol of `app12` on top of it |
| `EventRouter`, `Application`, `EventualDelivery` | the router of `app12` (registrations and the three nested delivery loops), and the whole program of managers, pipes and router |
| `Bits`, `Masks` | power-of-two rounding, index remapping, masks, comparison of wrapped counters |
| `Counting`, `Modular` | sums over threads, multiset balances, remainders |

## How the protocols are modelled

Each protocol is a step system: a `State` with the shared variables, one program counter per
thread, and one step per atomic load, store, exchange, CAS or fetch-and-add. Accesses to variables
that only one thread uses go with the neighbouring step. A run is any finite sequence of steps from
an initial state, so every theorem about `run[i]` holds for every interleaving. Threads are held in a
sequence of any length unless the code fixes one producer or one consumer. `EventRouter`, which is
sequential, is a class with the source's fields and loops; the loops of constructors and of
`new_block_index` are methods.

Each module states an inductive invariant, proves that every step keeps it, and derives the promises
from it. The modules whose names end in `Calls` say what single calls answer: when they may come back empty or
refused, how much they take, that they are about the value they were called with, and that they can take
their next step. Fields such as `enq`, `log`, `pushed` or `granted` record history; no step reads them.

Assumptions, common to all modules:

- Atomics are sequentially consistent. Weak orderings and fences are not modelled.
- 64-bit counters and `size_t` indices are unbounded. `Bits.CircularLessExact` says exactly when the
  wrapped comparison of `ConcurrentQueue` agrees with the unbounded one. 32-bit words are modelled as
  such: the reference word of the free list, with fewer than 2^31 - 1 threads, and the tickets of the
  AtomicQueue family, compared as signed differences. Their bounds and deadlock freedom are proved for
  attempts during which a counter does not make a full turn between its load and its CAS.
- epoll is a readiness test, the pipe a number of bytes, the kernel semaphore a counter, and a
  timeout may happen at any moment of a timed wait.
- Memory allocation succeeds or fails freely where the code handles failure. A block handed out by the
  pool is not already in the producer's ring, which `FreeList.TakenIsInNobodysRing` shows for blocks
  from the free list.

## Where the code falls short of its promise

- `ReaderWriterQueue(0)` builds a block of size one, which can hold nothing. Once a second block exists
  the producer takes the first for free space, the element disappears, and the consumer's assert fails
  (`AssertsFailAtZero`). The asserts hold in every run exactly when the queue is built for at least one
  element (`AssertsHoldIff`).
- `spsc_sema::LightweightSemaphore::signal(0)` is admitted by its assert, but posts to a sleeping waiter
  and so grants a unit nobody put in (`ZeroSignalOverGrants`). The accounts are kept exactly when the
  signal is of at least one unit or nobody is owed a post (`SignalKeepsIff`, `ConservedIff`).
- `waitMany(max)` of `LightweightSemaphore` asserts that it acquires something, but admits `max == 0`
  (`WaitForNothing`); it acquires something exactly when asked for something (`WaitsForSomethingIff`).
- The tickets of AtomicQueue2 wrap at 2^32. If the number of slots does not divide 2^32, which
  `MINIMIZE_CONTENTION = false` allows, two tickets of one lap meet in one slot at the wrap
  (`LapsAreFairIff`), and one thread using only try_push and try_pop gets stuck (`StuckAtWrap`,
  `ThreeSlotsGetStuck`). No run gets stuck exactly when the size divides 2^32, or is at least 2^31, where
  no call ever takes a ticket (`SomeoneCanStepIff`).
- A queue of the AtomicQueue family with 2^31 slots or more refuses its first try_push, because the size
  is compared as a negative number; a fresh queue accepts it exactly below 2^31 slots
  (`FreshAcceptsIff`). AtomicQueueB2 asked for more than 2^30 and at most 2^31 elements is such a queue
  (`SizeIsSafe`), and asked for more than 2^31 it silently gets its least size (`RoomAsked`).
- A try_push that stalls between its two loads until its head is more than 2^31 tickets behind the tail
  may refuse an empty queue (`StalledIsRefused`); what it answers in every try-only run is `GivesUpIff`.
- Rounding up to a power of two gives zero for zero and for everything above the largest power of two
  that fits the word, and the least power of two exactly otherwise (`Masks.RoundUpIsLeast`,
  `Bits.RoundUpIsLeast`).
- A bulk dequeue of at most zero elements claims nothing but still looks the head up in the block index.
  It reads the entry of the block that holds the head exactly when the head is not at the end of the tail
  block, which does happen (`UsedUpBlock`); otherwise it reads the slot the producer fills next
  (`EmptyClaimReads`). It always stays inside the arrays (`GlanceIsInRange`).
- The router delivers an event twice to a consumer whose type list names the type twice; delivery is
  exactly once for every trace if and only if no type lists the consumer twice (`ExactlyOnceIff`).
- When `AddProducer` throws, because the descriptor is already watched or epoll does not accept it, it has
  registered the producer all the same: the registrations are as they were exactly if the descriptor
  already had this producer (`Router.AddProducer`). A producer that thereby loses its only descriptor, or
  has only descriptors that are not watched, is never drained (`OrphanIsNeverDrained`,
  `UnwatchedIsNeverDrained`).
- `PipedEvent` does nothing when its source is descriptor zero, and then an event is lost (`LostAtZero`);
  none is lost in any run exactly when the source is another descriptor (`NothingIsLostIff`).
- `SPSCQueue::size` called by a third thread is exact exactly when the counts at its two loads are at most
  a capacity apart (`SizeFromTwoLoads`).

## Model

| member | source | states |
|---|---|---|
| `FreeList.StepKeeps` | concurrentqueue/concurrentqueue.h:1630-1727 | every step of add, try_get and add_knowing_refcount_is_zero by any thread keeps the invariant that gives each node one place |
| `FreeList.RunKeeps` | concurrentqueue/concurrentqueue.h:1630-1727 | the invariant holds in every state of every run |
| `FreeList.Exclusive` | concurrentqueue/concurrentqueue.h:1630-1727 | each node is in exactly one of: owned by a caller, on the chain, in the hands of one thread, flagged and waiting with a reference holder |
| `FreeList.TakeIsExclusive` | concurrentqueue/concurrentqueue.h:1663-1675 | a successful try_get returns a node nobody owns, with the flag clear as the code asserts, that no other thread has in hand |
| `FreeList.HeldNextIsStable` | concurrentqueue/concurrentqueue.h:1648-1668 | while a thread holds a counted reference, no step of any thread changes that node's next pointer |
| `FreeList.CasRemovesFirst` | concurrentqueue/concurrentqueue.h:1663-1675 | a successful CAS on the head removes exactly the first node of the chain, even if it was taken and added again since it was read |
| `FreeList.Acyclic` | concurrentqueue/concurrentqueue.h:1699-1727 | following next pointers from the head ends, in a chain without repetitions |
| `FreeList.LeadsUnique` | concurrentqueue/concurrentqueue.h:1694-1727 | the chain from the head is determined by the next pointers |
| `FreeList.TakenIsInNobodysRing` | concurrentqueue/concurrentqueue.h:1644-1687 | with any number of producers over one pool, a block handed out is in nobody's ring before, in the taker's ring after, and rings stay disjoint |
| `FreeList.NothingLost` | concurrentqueue/concurrentqueue.h:1630-1727 | with no operation in flight the chain holds exactly the nodes added and not taken, each with reference word 1 |
| `FreeListCalls.NullWasEmpty` | concurrentqueue/concurrentqueue.h:1644-1687 | in every run try_get returns null only if the head was null, and so the list empty, at a moment of the call |
| `FreeListCalls.GetAlone` | concurrentqueue/concurrentqueue.h:1644-1687 | with no other operation in flight try_get takes the first node of a non-empty list and leaves the rest |
| `FreeListCalls.AddAlone` | concurrentqueue/concurrentqueue.h:1630-1640 | with no other operation in flight add puts its node in front of the list |
| `FreeListCalls.NeverStuck` | concurrentqueue/concurrentqueue.h:1630-1727 | every call in flight can take its next step, whatever the other threads do |
| `OptimisticDequeue.StepKeeps` | concurrentqueue/concurrentqueue.h:2205-2332 | every step of the producer and of any consumer keeps the ticket-ordered accounting of attempts |
| `OptimisticDequeue.RecheckKeeps` | concurrentqueue/concurrentqueue.h:2250-2272 | granting a ticket what the reloaded tail leaves beyond its count keeps the accounting, in which the bounds of all tickets up to one that gets something fit below the tail |
| `OptimisticDequeue.TookBelowTail` | concurrentqueue/concurrentqueue.h:2205-2332 | if the bounds of the tickets up to every successful one fit below the tail, so does the sum of all claims |
| `OptimisticDequeue.BoundBelowWant` | concurrentqueue/concurrentqueue.h:2205-2250 | what a prefix of the tickets may still claim, plus what it gave back, is at most what it over-claimed |
| `OptimisticDequeue.ClaimsAreSafe` | concurrentqueue/concurrentqueue.h:2205-2332 | headIndex never exceeds tailIndex and the ranges held by different consumers are disjoint, in every run |
| `OptimisticDequeue.ClaimedOnce` | concurrentqueue/concurrentqueue.h:2579-2701 | over a whole run no index is claimed twice, by single or bulk dequeues, and every claimed index is below the tail |
| `OptimisticDequeue.HeadMonotone` | concurrentqueue/concurrentqueue.h:2205-2332 | head and tail only grow |
| `OptimisticDequeue.CountersSettle` | concurrentqueue/concurrentqueue.h:2205-2332 | with no attempt in flight, optimistic count minus overcommit is the head |
| `OptimisticCalls.ClaimsAtMostMax` | concurrentqueue/concurrentqueue.h:2579-2701 | no call, single or bulk, ever claims more than the maximum it began with |
| `OptimisticCalls.DequeueAlone` | concurrentqueue/concurrentqueue.h:2579-2701 | with no other attempt in flight a dequeue claims exactly min(max, tail - head) elements from the head on, and comes back without a claim only if there are none |
| `OptimisticCalls.TurnsAwayOnlyIfSpokenFor` | concurrentqueue/concurrentqueue.h:2579-2600 | among any other attempts, a dequeue turns away at its first look only if the elements it saw enqueued are claimed, spoken for by other attempts in flight, or no more than others have given back since it looked |
| `OptimisticCalls.GetsNothingOnlyIfSpokenFor` | concurrentqueue/concurrentqueue.h:2586-2625 | and it gets nothing for its ticket only if that holds, at the moment it took the ticket, of the tail it reloads afterwards |
| `OptimisticCalls.NeverStuck` | concurrentqueue/concurrentqueue.h:2205-2332 | every consumer inside a call can take its next step |
| `BlockIndex.StepKeeps` | concurrentqueue/concurrentqueue.h:2085-2202 | every step of enqueue, of new_block_index and of any dequeue keeps the invariant of ring, index, flags and data, for every block size |
| `BlockIndex.IndexListsRing` | concurrentqueue/concurrentqueue.h:2085-2202 | the last used index entries list the block ring in order with consecutive bases, ending at the tail block |
| `BlockIndex.SlotOfOffset` | concurrentqueue/concurrentqueue.h:2271-2293 | the offset arithmetic from the index tail finds the entry of the claimed index's block |
| `BlockIndex.DequeuedIsEnqueued` | concurrentqueue/concurrentqueue.h:2271-2332 | the value a consumer gets for index k is the k-th enqueued value |
| `BlockIndex.DeliveredOnce` | concurrentqueue/concurrentqueue.h:2579-2701 | a consumer about to move element k finds it in its slot, and nobody has delivered k before |
| `BlockIndex.OldestDone` | concurrentqueue/concurrentqueue.h:2085-2100 | when the flags of the oldest block are all set, no claimed or unclaimed index below the next block is unfinished |
| `BlockIndex.ReuseIsSafe` | concurrentqueue/concurrentqueue.h:2085-2110 | a block is reused only when no consumer is still moving or marking an element of it |
| `BlockIndex.FlagIsClear` | concurrentqueue/concurrentqueue.h:1789-1810 | the empty flag a consumer sets was clear, as the code asserts |
| `BlockIndex.GrownHeaderOk` | concurrentqueue/concurrentqueue.h:2717-2760 | the doubled index array lists the same blocks at the same bases in the same order |
| `BlockIndex.CopyEntries` | concurrentqueue/concurrentqueue.h:2717-2745 | the copy loop unrolls the used entries of the circular array, oldest first, into the new array |
| `BlockIndex.EmptyClaimReads` | concurrentqueue/concurrentqueue.h:2620-2660 | the slot that the offset arithmetic gives for the head is the entry of the listed block that holds it if and only if the head is not at the end of the tail block; otherwise everything is claimed and it is the slot filled next |
| `BlockGlance.GlanceIsInRange` | concurrentqueue/concurrentqueue.h:2579-2701 | every array access of a bulk dequeue that claimed nothing is in range, and something had been enqueued when it claimed |
| `BlockCounter.UsedUpBlock` | concurrentqueue/concurrentqueue.h:2579-2701 | a run, for every block size, that ends with the head at the end of the tail block |
| `BlockCounter.FullIff` | concurrentqueue/concurrentqueue.h:1757-1786 | the counter of finished elements reaches the block size exactly when every flag would be set |
| `BlockCounter.CounterRunIsRun` | concurrentqueue/concurrentqueue.h:1757-1880 | every state of a run with counters is a state of a run with flags, so what is proved of the one holds of the other |
| `BlockCounter.CounterIsExact` | concurrentqueue/concurrentqueue.h:1817-1842 | set_many_empty adds exactly the elements of the part and never passes the block size, as the code asserts |
| `BlockCounter.ResetIsZero` | concurrentqueue/concurrentqueue.h:1857-1875 | reset_empty makes the counter of the block zero and touches no other |
| `BlockCounter.CounterDequeuesEnqueued` | concurrentqueue/concurrentqueue.h:2271-2332 | with counters too, the value a consumer gets for index k is the k-th enqueued value |
| `BlockIndex.NothingLost` | concurrentqueue/concurrentqueue.h:2271-2332 | with no dequeue in flight exactly the claimed indices have been delivered |
| `BlockCalls.EnqueueIsOfItsValue` | concurrentqueue/concurrentqueue.h:2085-2202 | an enqueue is about one value until it returns, and has then appended it, or nothing if it was refused a block |
| `BlockCalls.EnqueueBegins` | concurrentqueue/concurrentqueue.h:2085-2202 | an enqueue can begin with any value, and is then about it |
| `BlockCalls.BlockAheadInUse` | concurrentqueue/concurrentqueue.h:2085-2110 | the producer asks for a block instead of reusing the one ahead exactly when it sees the flag of an element of that block whose dequeue is not finished |
| `BlockCalls.ProducerNeverStuck` | concurrentqueue/concurrentqueue.h:2085-2202 | an enqueue can always take its next step without being refused: an index slot, a doubled index or a block is there |
| `BlockCalls.ClaimIsDelivered` | concurrentqueue/concurrentqueue.h:2579-2701 | a dequeue that returns has delivered the enqueued value of every index it claimed |
| `BlockCalls.WalkShrinks` | concurrentqueue/concurrentqueue.h:2579-2701 | every step of a dequeue after its claim lowers a count of remaining steps that the claim alone bounds, whatever producer and consumers do |
| `BlockCalls.ConsumerNeverStuck` | concurrentqueue/concurrentqueue.h:2271-2332 | every dequeue in flight can take its next step: the index, block and element accesses are always possible |
| `CounterCalls.ConsumerNeverStuck` | concurrentqueue/concurrentqueue.h:1817-1842 | with counters in place of flags every dequeue in flight can take its next step |
| `CounterCalls.ProducerNeverStuck` | concurrentqueue/concurrentqueue.h:1757-1875 | with counters in place of flags an enqueue can always take its next step without being refused |
| `ReaderWriterQueue.InitialRoom` | readerwriterqueue/readerwriterqueue.h:121-133 | the ceiling division leaves (blocks - 1) * (block size - 1) at least the size asked for |
| `ReaderWriterQueue.InitialLeast` | readerwriterqueue/readerwriterqueue.h:121-133 | the constructor takes no more than it needs: one block of at most twice the block size, or blocks of the block size of which one fewer would leave too little room |
| `ReaderWriterQueue.BuildRing` | readerwriterqueue/readerwriterqueue.h:134-151 | the constructor's loop links the blocks into one ring in order |
| `ReaderWriterQueue.CeilIsRoundUp` | readerwriterqueue/readerwriterqueue.h:653-664 | the rounding used by the constructor is what the shifts of ceilToPow2 compute |
| `ReaderWriterQueue.Construct` | readerwriterqueue/readerwriterqueue.h:110-160 | the constructor establishes the initial state of the runs, for every size |
| `ReaderWriterQueue.StepKeeps` | readerwriterqueue/readerwriterqueue.h:283-645 | every producer and consumer step keeps the invariant of blocks, caches, ring, fill and contents |
| `ReaderWriterQueue.RefinesSequence` | readerwriterqueue/readerwriterqueue.h:283-645 | in every reachable state, block insertion included, the blocks from front to tail concatenate to what was enqueued and not dequeued; blocks after the front up to the tail are non-empty and the others empty |
| `ReaderWriterQueue.FirstInFirstOut` | readerwriterqueue/readerwriterqueue.h:283-376 | what has been dequeued is a prefix of what has been enqueued |
| `ReaderWriterQueue.AssertsAlwaysHold` | readerwriterqueue/readerwriterqueue.h:283-645 | the emptiness asserts of try_dequeue, peek and inner_enqueue hold in every run of a queue built for at least one element |
| `ReaderWriterQueue.AssertsFailAtZero` | readerwriterqueue/readerwriterqueue.h:121-160 | a queue built for no elements loses one in a concrete run, and the assert fails |
| `ReaderWriterQueue.AssertsHoldIff` | readerwriterqueue/readerwriterqueue.h:121-160 | the asserts hold in all runs if and only if the queue is built for at least one element |
| `ReaderWriterQueue.OldestIsReturned` | readerwriterqueue/readerwriterqueue.h:283-425 | peek returns and a dequeue removes the oldest element, on the direct path and across blocks |
| `ReaderWriterQueue.PeekIsNextDequeue` | readerwriterqueue/readerwriterqueue.h:380-425 | what peek shows is what the next dequeue returns, whatever the producer does in between |
| `ReaderWriterQueue.EmptyWasEmpty` | readerwriterqueue/readerwriterqueue.h:303-376 | a dequeue or peek comes back empty only if the queue was empty at a moment of the call |
| `ReaderWriterQueue.RefusedWhenFull` | readerwriterqueue/readerwriterqueue.h:554-637 | an enqueue that may not allocate, or whose allocation fails, is refused only if at least the constructed size was present at a moment of the call |
| `ReaderWriterCalls.ConsumerAnswer` | readerwriterqueue/readerwriterqueue.h:283-425 | a dequeue returns and removes the oldest element, a peek returns it and removes nothing, and either fails only having seen an empty queue |
| `ReaderWriterCalls.ConsumerCall` | readerwriterqueue/readerwriterqueue.h:283-425 | a call that begins as a dequeue or a peek stays one, and removes nothing before it returns |
| `ReaderWriterCalls.ProducerAnswer` | readerwriterqueue/readerwriterqueue.h:554-637 | an enqueue is about one value until it returns, and has then appended it or been refused with at least the constructed size present |
| `ReaderWriterCalls.EnqueueBegins` | readerwriterqueue/readerwriterqueue.h:554-560 | an enqueue can begin with any value, and is then about it |
| `ReaderWriterCalls.TryNeverGrows` | readerwriterqueue/readerwriterqueue.h:554-637 | a try_enqueue never makes a block |
| `ReaderWriterCalls.FailedWasEmpty` | readerwriterqueue/readerwriterqueue.h:303-425 | in every run a dequeue or peek that fails has, at an earlier moment of the same call, found nothing enqueued that was not dequeued |
| `ReaderWriterCalls.RefusedWasFull` | readerwriterqueue/readerwriterqueue.h:554-637 | in every run an enqueue that is refused had at least the constructed size present at an earlier moment of the same call |
| `ReaderWriterCalls.WaitFree` | readerwriterqueue/readerwriterqueue.h:283-645 | every step of a call lowers its count of remaining steps, which is at most eight, and leaves the other side's position alone |
| `ReaderWriterCalls.ProducerNeverStuck` | readerwriterqueue/readerwriterqueue.h:554-637 | an enqueue can always take its next step, and one that may allocate is refused only if allocation fails |
| `ReaderWriterCalls.ConsumerNeverStuck` | readerwriterqueue/readerwriterqueue.h:283-425 | a dequeue or peek can always begin and take its next step |
| `Semaphore.StepKeeps` | concurrentqueue/lightweightsemaphore.h:262-400 | every step of waits, bulk waits, timeouts, undo loops and signals keeps the accounts |
| `Semaphore.WaitersAreAccounted` | concurrentqueue/lightweightsemaphore.h:262-400 | unresolved waiters = kernel count + posts still to be made + max(-m_count, 0) |
| `Semaphore.UnitsAreConserved` | concurrentqueue/lightweightsemaphore.h:262-400 | units returned, held by returning calls, free, in the kernel and pending sum to initial plus signalled |
| `Semaphore.NeverOverGranted` | concurrentqueue/lightweightsemaphore.h:262-400 | calls never return more units than initial plus signalled, timeouts included |
| `Semaphore.NeverMoreThanWanted` | concurrentqueue/lightweightsemaphore.h:302-391 | no call returns more than its maximum |
| `Semaphore.WaitsForSomethingIff` | concurrentqueue/lightweightsemaphore.h:387-391 | waitMany without a timeout acquires something, as it asserts, exactly when max is positive |
| `Semaphore.WaitForNothing` | concurrentqueue/lightweightsemaphore.h:387-391 | a run in which waitMany(0) returns nothing, so that its assert fails |
| `Semaphore.NoLostWakeUp` | concurrentqueue/lightweightsemaphore.h:276-299 | with a count of at least zero and no post pending, the kernel holds one token per waiter |
| `Semaphore.TimedOutIsCovered` | concurrentqueue/lightweightsemaphore.h:285-299 | a timed-out waiter that sees a count of at least zero is covered by a token posted or about to be posted |
| `Semaphore.QuietCount` | concurrentqueue/lightweightsemaphore.h:262-400 | when all calls have returned, the count is exactly what was put in and not taken |
| `SemaphoreCalls.AnswerIsGreedy` | concurrentqueue/lightweightsemaphore.h:262-391 | a call that returns takes, besides what it won by waiting, exactly the smaller of what it still wants and what the count shows at that moment |
| `SemaphoreCalls.TryTakesWhatIsThere` | concurrentqueue/lightweightsemaphore.h:347-377 | tryWait and tryWaitMany return min(want, count), so nothing only if the count was at most zero at a moment of the call |
| `SemaphoreCalls.TryHoldsNothing` | concurrentqueue/lightweightsemaphore.h:347-377 | in every run a try never sleeps and holds nothing before it returns |
| `SemaphoreCalls.NothingOnlyAfterTimeout` | concurrentqueue/lightweightsemaphore.h:262-391 | a call other than a try comes back with nothing only after its time is up |
| `SemaphoreCalls.SpinTakesWhatItSees` | concurrentqueue/lightweightsemaphore.h:262-345 | a waiter that sees units while it spins can take min(want, count) of them and return without sleeping |
| `SemaphoreCalls.CallKeepsItsWant` | concurrentqueue/lightweightsemaphore.h:262-391 | a call keeps its maximum and its mode until it returns |
| `SemaphoreCalls.CallBegins` | concurrentqueue/lightweightsemaphore.h:347-391 | a call can begin with any maximum and mode |
| `SemaphoreCalls.NeverStuck` | concurrentqueue/lightweightsemaphore.h:262-400 | every call and every signal in flight can take its next step, except an untimed wait with no token in the kernel |
| `SpscSemaphore.SignalKeepsIff` | readerwriterqueue/atomicops.h:759-766 | a signal keeps the accounts if and only if it adds at least one or nobody is owed a post; the count it finds is at least -1 |
| `SpscSemaphore.UnitsAreConserved` | readerwriterqueue/atomicops.h:698-766 | with signals of at least one, grants, free units, kernel count and pending post sum to initial plus signalled, through the increment/decrement timeout loop |
| `SpscSemaphore.CountFloor` | readerwriterqueue/atomicops.h:759-763 | the assert in signal holds |
| `SpscSemaphore.NoLostWakeUp` | readerwriterqueue/atomicops.h:714-741 | a sleeper facing a count of at least zero has its token in the kernel or about to be posted |
| `SpscSemaphore.GivingUpLeavesNoTrace` | readerwriterqueue/atomicops.h:729-741 | between waits the count is exactly what was put in and not taken, and no token is left in the kernel |
| `SpscSemaphore.ZeroSignalOverGrants` | readerwriterqueue/atomicops.h:759-766 | a run in which a signal of zero grants a unit that was never put in |
| `SpscSemaphore.ConservedIff` | readerwriterqueue/atomicops.h:698-766 | no run over-grants if and only if signals add at least one |
| `SpscSemaphore.FailsWhenNothing` | readerwriterqueue/atomicops.h:698-757 | a wait or try comes back without a unit only at a moment when all units have been granted |
| `SpscSemaphore.GivesUpOnlyAfterTimeout` | readerwriterqueue/atomicops.h:698-757 | a try decides at once, and a wait comes back without a unit only after its time is up |
| `SpscSemaphore.SpinTakesWhatItSees` | readerwriterqueue/atomicops.h:698-727 | a waiter that sees a unit while it spins can take it and return without sleeping |
| `SpscSemaphore.TokenIsTaken` | readerwriterqueue/atomicops.h:714-741 | once a token has been posted, every step of the waiter, timed out or not, brings it closer to returning with it, which it does after at most four |
| `SpscSemaphore.WaiterStep` | readerwriterqueue/atomicops.h:698-757 | a wait in flight can always take its next step |
| `CircularBuffer.StepKeeps` | readerwriterqueue/readerwritercircularbuffer.h:99-280 | every step, inside either semaphore or outside, keeps the invariant of permits and data |
| `CircularBuffer.Bounded` | readerwriterqueue/readerwritercircularbuffer.h:268-280 | nextSlot minus completed dequeues never exceeds maxcap, which the mask computed from it always holds |
| `CircularBuffer.NoOverwrite` | readerwriterqueue/readerwritercircularbuffer.h:268-280 | no write lands on a slot that holds an item or is being read |
| `CircularBuffer.FirstInFirstOut` | readerwriterqueue/readerwritercircularbuffer.h:268-280 | the values dequeued are a prefix of the values enqueued |
| `CircularBuffer.PeekIsNextDequeue` | readerwriterqueue/readerwritercircularbuffer.h:244-248 | what peek shows is what the next dequeue returns |
| `CircularBuffer.EnqueueFailsWhenFull` | readerwriterqueue/readerwritercircularbuffer.h:99-160 | an enqueue, timed or not, fails only at a moment when maxcap slots are in use |
| `CircularBuffer.DequeueFailsWhenEmpty` | readerwriterqueue/readerwritercircularbuffer.h:195-226 | a dequeue, timed or not, fails only at a moment when every published item has been taken |
| `CircularBuffer.SizeIsExact` | readerwriterqueue/readerwritercircularbuffer.h:261 | with no dequeue under way the item count is published minus taken |
| `CircularBuffer.PeekFailsIff` | readerwriterqueue/readerwritercircularbuffer.h:244-248 | peek comes back empty exactly at a moment when every published item has been taken |
| `CircularBuffer.EnqueueIsOfItsValue` | readerwriterqueue/readerwritercircularbuffer.h:99-160 | an enqueue writes the value it was called with, and only with a permit |
| `CircularBuffer.CallsBegin` | readerwriterqueue/readerwritercircularbuffer.h:99-226 | every call can begin, an enqueue with any value |
| `CircularBuffer.IndexIsMasked` | readerwriterqueue/readerwritercircularbuffer.h:42-48 | the array is as long as the index mask plus one in every state |
| `CircularBuffer.NeverStuck` | readerwriterqueue/readerwritercircularbuffer.h:99-280 | every call in flight can take its next step |
| `AtomicQueue.StepKeeps` | atomic_queue/include/atomic_queue/atomic_queue.h:257-382 | every step of push, pop, try_push and try_pop by any thread keeps the invariant of slots, 32-bit tickets and values, for every size |
| `AtomicQueue.SlotIsExclusive` | atomic_queue/include/atomic_queue/atomic_queue.h:257-313 | at most one thread accesses a slot's element at a time |
| `AtomicQueue.NoOverwriteNoDoubleRead` | atomic_queue/include/atomic_queue/atomic_queue.h:257-313 | an element is written only into a cell without a live value and moved only out of one with it |
| `AtomicQueue.ValuesAreConserved` | atomic_queue/include/atomic_queue/atomic_queue.h:257-382 | multiset pushed = popped + carried by threads + stored in slots |
| `AtomicQueue.CountsStayClose` | atomic_queue/include/atomic_queue/atomic_queue.h:354-382 | whatever is called, pushes and pops begun differ by at most the slots plus the threads |
| `AtomicQueue.PushFailsWhenFull` | atomic_queue/include/atomic_queue/atomic_queue.h:316-334 | below 2^31 slots and for attempts not 2^31 tickets behind, try_push fails exactly when the tickets it knows of fill the queue, and then the queue is full at that moment |
| `AtomicQueue.PopFailsWhenEmpty` | atomic_queue/include/atomic_queue/atomic_queue.h:336-352 | under the same conditions try_pop fails exactly when it knows of nothing to pop, and then no push is ahead of the pops at that moment |
| `AtomicQueue.FreshAcceptsIff` | atomic_queue/include/atomic_queue/atomic_queue.h:316-334 | a fresh queue accepts its first try_push if and only if it has fewer than 2^31 slots |
| `AtomicQueue.CountersInBounds` | atomic_queue/include/atomic_queue/atomic_queue.h:316-352 | in try-only use 0 <= head - tail <= size in every state, as counts and as the signed difference of the stored words |
| `AtomicQueue.SomeoneCanStep` | atomic_queue/include/atomic_queue/atomic_queue.h:316-352 | in try-only use with a size that divides 2^32, while an operation is in flight some operation in flight can step |
| `AtomicQueue.CanStepHasStep` | atomic_queue/include/atomic_queue/atomic_queue.h:257-352 | a thread that can step has a step that changes its position, and a CAS on an unchanged counter takes its ticket |
| `AtomicQueue.MeetingMoves` | atomic_queue/include/atomic_queue/atomic_queue.h:257-313 | in any use, a push and a pop waiting at the same slot never block each other |
| `AtomicQueue.QuietSlots` | atomic_queue/include/atomic_queue/atomic_queue.h:316-352 | with nothing in flight, exactly the slots of the tickets between tail and head hold values |
| `AtomicQueue.PushIsOfItsValue` | atomic_queue/include/atomic_queue/atomic_queue.h:316-334 | a try_push is about one value until it gives up or takes a ticket, and its ticket puts exactly that value in |
| `AtomicQueue.CallsBegin` | atomic_queue/include/atomic_queue/atomic_queue.h:316-382 | each of the four calls can begin, the pushes with any value |
| `AtomicQueueWrap.StuckAtWrap` | atomic_queue/include/atomic_queue/atomic_queue.h:483-494 | for every size below 2^31 that does not divide 2^32, a run of one thread ends with its push stuck and nothing in flight able to step |
| `AtomicQueueWrap.ThreeSlotsGetStuck` | atomic_queue/include/atomic_queue/atomic_queue.h:483-494 | with three slots this happens at the first ticket after the wrap, behind the one element of the ticket before it |
| `AtomicQueueWrap.SomeoneCanStepIff` | atomic_queue/include/atomic_queue/atomic_queue.h:316-352 | deadlock freedom of try-only use holds in all runs if and only if the size divides 2^32 or is at least 2^31 |
| `AtomicQueueWrap.GivesUpIff` | atomic_queue/include/atomic_queue/atomic_queue.h:316-325 | in every try-only run, try_push gives up if and only if the queue is full by what it loaded, or its load is more than half a turn behind the tail |
| `AtomicQueueWrap.StalledIsRefused` | atomic_queue/include/atomic_queue/atomic_queue.h:316-325 | a run of two threads in which a stalled try_push is refused by an empty queue |
| `Tickets.LapsAreFairIff` | atomic_queue/include/atomic_queue/atomic_queue.h:654-664 | every lap of tickets has at most one per slot if and only if the size divides 2^32 |
| `Tickets.OneTicketPerLap` | atomic_queue/include/atomic_queue/atomic_queue.h:654-664 | for such sizes, among the tickets of one lap at most one names a given slot |
| `Tickets.DifferenceExact` | atomic_queue/include/atomic_queue/atomic_queue.h:316-352 | the signed difference of two wrapped counters is right if and only if they are within half a turn |
| `AtomicQueueSpsc.PopsInPushOrder` | atomic_queue/include/atomic_queue/atomic_queue.h:257-382 | with one producer and one consumer the k-th pop returns the k-th push, with and without the SPSC option, for every size and across the wrap of the tickets |
| `AtomicQueueSpsc.ElementsApart` | atomic_queue/include/atomic_queue/atomic_queue.h:257-313 | the two threads never access the same element |
| `AtomicQueueSpsc.Bounded` | atomic_queue/include/atomic_queue/atomic_queue.h:257-382 | completed pushes are never more than the slots ahead of completed pops, also when push and pop do not look |
| `AtomicQueueSpsc.PushFailsIff` | atomic_queue/include/atomic_queue/atomic_queue.h:316-334 | for every size, try_push gives up exactly when the slots not given back are all used, or, from 2^31 slots on, as long as fewer than 2^31 are used |
| `AtomicQueueSpsc.PopFailsIff` | atomic_queue/include/atomic_queue/atomic_queue.h:336-352 | for every size, try_pop gives up exactly when no push is ahead of it, or 2^31 or more are |
| `AtomicQueueSpsc.PushIsOfItsValue` | atomic_queue/include/atomic_queue/atomic_queue.h:257-334 | a push is about one value until it returns, and has then appended it unless it gave up |
| `AtomicQueueSpsc.CallsBegin` | atomic_queue/include/atomic_queue/atomic_queue.h:316-382 | each of the four calls can begin, the pushes with any value |
| `AtomicQueueSpsc.WaitsOnlyFor` | atomic_queue/include/atomic_queue/atomic_queue.h:257-313 | a push waits exactly while its slot is that of a completed push not yet popped, and a pop exactly while everything pushed has been popped |
| `AtomicQueueSpsc.NeverBothWait` | atomic_queue/include/atomic_queue/atomic_queue.h:257-313 | a push and a pop in flight never wait for each other, for every size and across the wrap |
| `LockeFreeQueue.StepKeeps` | inc/LockeFreeQueue.h:35-53 | every step of any producer and of the drainer keeps the chain of nodes in exchange order, gaps included |
| `LockeFreeQueue.OutputIsPrefix` | inc/LockeFreeQueue.h:35-53 | what swap has handed out is a prefix of the order of tail exchanges |
| `LockeFreeQueue.NoStoreAfterDelete` | inc/LockeFreeQueue.h:35-40 | no producer stores into a deleted node, even while the chain is broken |
| `LockeFreeQueue.NoReadAfterDelete` | inc/LockeFreeQueue.h:42-53 | the drainer touches only nodes that are not deleted |
| `LockeFreeQueue.DrainIsComplete` | inc/LockeFreeQueue.h:42-53 | a drain ends short of the last exchange exactly when its node is not the tail, and then a producer is about to link behind it |
| `LockeFreeQueue.QuietDrain` | inc/LockeFreeQueue.h:42-53 | with no emplace_back under way a drain hands out everything and leaves only the dummy node |
| `LockeFreeQueue.SwapTakesAll` | inc/LockeFreeQueue.h:42-53 | from every reachable state with no emplace_back under way, a swap comes to its end and has then handed out every value |
| `LockeFreeQueue.ProducerNeverStuck` | inc/LockeFreeQueue.h:35-40 | an emplace_back can always take its next step, and logs the value it was called with |
| `LockeFreeQueue.DrainStep` | inc/LockeFreeQueue.h:42-53 | a swap can always take its next step |
| `SpscQueue.StepKeeps` | SPSCQueue/include/rigtorp/SPSCQueue.h:105-191 | every step of either side keeps indices, caches and contents in step |
| `SpscQueue.BoundedFifo` | SPSCQueue/include/rigtorp/SPSCQueue.h:105-191 | popped is a prefix of pushed, at most capacity() behind |
| `SpscQueue.CachesArePast` | SPSCQueue/include/rigtorp/SPSCQueue.h:122-177 | each cached index is a past value of the index, inside the current cyclic window |
| `SpscQueue.NoOverwrite` | SPSCQueue/include/rigtorp/SPSCQueue.h:122-140 | a write never touches a queued slot, however stale the cache |
| `SpscQueue.FrontThenPop` | SPSCQueue/include/rigtorp/SPSCQueue.h:168-191 | front hands out the oldest element, pop removes it, and pop's assert holds |
| `SpscQueue.DropsWhenFull` | SPSCQueue/include/rigtorp/SPSCQueue.h:122-140 | try_emplace fails only at a moment when capacity() elements are queued |
| `SpscQueue.NullWhenEmpty` | SPSCQueue/include/rigtorp/SPSCQueue.h:168-177 | after a refresh front returns null exactly when the queue is empty, and never after empty() said it was not |
| `SpscQueue.SizeFromTwoLoads` | SPSCQueue/include/rigtorp/SPSCQueue.h:193-200 | for two loads at any two moments, size() is the difference of the counts up to whole laps, and exact if and only if that is from zero to the capacity |
| `SpscQueue.SizeIsExact` | SPSCQueue/include/rigtorp/SPSCQueue.h:193-205 | at one moment size() is the number of queued elements, and empty() tests for none |
| `SpscCalls.PushBegins` | SPSCQueue/include/rigtorp/SPSCQueue.h:105-140 | a push of any value can begin, and loads the read index only if the writes are a full lap ahead of the past value in the cache |
| `SpscCalls.ProducerAnswer` | SPSCQueue/include/rigtorp/SPSCQueue.h:105-140 | a push is about one value until it returns, having published it; an emplace stays where it is only on a full queue, and a try_emplace on a full queue returns at once |
| `SpscCalls.OnlyTryDrops` | SPSCQueue/include/rigtorp/SPSCQueue.h:105-140 | only a try_emplace drops an element: emplace never does |
| `SpscCalls.ProducerNeverStuck` | SPSCQueue/include/rigtorp/SPSCQueue.h:105-140 | a push can take its next step, which brings it closer to its end unless it is an emplace on a full queue |
| `SpscCalls.ConsumerAnswer` | SPSCQueue/include/rigtorp/SPSCQueue.h:168-191 | front hands out the oldest element and comes back with nothing only on an empty queue, and pop removes the oldest element |
| `SpscCalls.ConsumerNeverStuck` | SPSCQueue/include/rigtorp/SPSCQueue.h:168-191 | front and pop can always take their next step |
| `WakeUp.StepKeeps` | inc/PipedEvent.h:40-56 | every step of push, Fire, Consume and drain keeps flag, pipe and queue consistent |
| `WakeUp.AtMostOneByte` | inc/PipedEvent.h:40-45 | the pipe never holds more than one byte |
| `WakeUp.ConsumeNeverBlocks` | inc/PipedEvent.h:50-56 | Consume finds the flag set and never reads an empty pipe |
| `WakeUp.NoLostWakeUp` | app12.cpp:106-140 | for a source other than descriptor zero, with both sides idle a non-empty queue has an unread byte and the router can wake; with no byte everything has been drained |
| `WakeUp.NothingIsLostIff` | inc/PipedEvent.h:40-56 | no run leaves an event with both sides idle and no byte if and only if the source is not descriptor zero |
| `WakeUp.LostAtZero` | inc/PipedEvent.h:40-45 | a run in which, with descriptor zero as the source, the first event is lost |
| `WakeUp.DrainedInOrder` | app12.cpp:131-140 | the events drained are a prefix of the events published |
| `WakeUp.FrontNeverNull` | app12.cpp:135-138 | in the drain loop the pointer from front is never null |
| `WakeUp.FiresIffPushed` | app12.cpp:106-130 | the pipe is fired exactly after the queue took the event |
| `WakeUp.EmitBegins` | app12.cpp:106-130 | a manager that is out can emit any event |
| `WakeUp.ConsumedBeforeDrain` | inc/PipedEvent.h:50-56 | the router starts to drain only after the byte has been read and the flag cleared |
| `WakeUp.EventuallyDrained` | app12.cpp:131-140 | from every reachable state with the manager out and a source other than descriptor zero, the router by itself comes to wait again with every published event drained |
| `WakeUp.ManagerNeverStuck` | inc/PipedEvent.h:40-45 | a manager inside Emit or Fire can take its next step, never waiting for the router |
| `EventRouter.Router.AddProducer` | app12.cpp:237-247 | succeeds exactly when the descriptor was not watched and epoll accepts it; after a failure the watched set is unchanged, and the registrations are unchanged exactly if the descriptor already had this producer |
| `EventRouter.UnwatchedIsNeverDrained` | app12.cpp:237-262 | a producer none of whose descriptors is watched is never drained |
| `EventRouter.OrphanIsNeverDrained` | app12.cpp:237-262 | a producer whose only descriptor was given to another is never drained again |
| `EventRouter.Router.AddConsumer` | app12.cpp:248-253 | every type's list grows by the consumer, once per occurrence of the type |
| `EventRouter.RegisteredOnceIff` | app12.cpp:248-253 | after AddConsumer the consumer is listed at most once per type if and only if earlier listings and given types come to at most one each; the others are as before |
| `EventRouter.Router.Dispatch` | app12.cpp:264-275 | every inbox grows by its share of the event |
| `EventRouter.Router.WaitAndRoute` | app12.cpp:254-281 | a pass drains a producer exactly if it lives and a ready descriptor is registered for it, takes what it drains in order, and every inbox grows by what its consumer gets of those events |
| `EventRouter.TakenThenRemaining` | app12.cpp:254-263 | what a pass takes from a producer, followed by what remains, is exactly what was there, in order |
| `EventRouter.DrainedIff` | app12.cpp:254-263 | what remains of a producer is nothing if it lives and some ready descriptor is registered for it, and all of it otherwise |
| `EventRouter.DeadReceiveNothing` | app12.cpp:264-276 | a consumer that no longer lives receives nothing |
| `EventRouter.DeliveredIsFiltered` | app12.cpp:262-276 | listed at most once per type, a living consumer gets the in-order filter of the events by its types, minus its own |
| `EventRouter.ExactlyOnceIff` | app12.cpp:248-276 | delivery is the filter for every trace if and only if no type lists the consumer twice |
| `EventRouter.DeliveredAppend` | app12.cpp:262-276 | what two batches deliver is what their concatenation delivers |
| `EventRouter.RunIsExact` | app12.cpp:254-281 | over any run of publishing and passes, what a producer published is what was routed from it followed by what waits, and a consumer has received exactly the filter of all events routed |
| `Application.RunKeeps` | app12.cpp:131-281 | with any number of managers, queues and pipes and one router, what was drained is routed or in the list being collected, in every state of every run |
| `Application.RoutedInOrder` | app12.cpp:131-281 | what has been routed from a manager is a prefix of what it has published |
| `Application.EverythingIsDelivered` | app12.cpp:254-330 | when all managers and the router are idle and no pipe is readable, everything published and nothing else has been routed, in order, and every consumer has received exactly the filter of it |
| `EventualDelivery.EventuallyDelivered` | app12.cpp:106-330 | from every reachable state in which no pipe has descriptor zero as its source the application can go on, with no new event emitted, until every event published has been routed in order and every consumer has received exactly the filter of them |
| `EventualDelivery.RouterAdvances` | app12.cpp:131-281 | while the managers are out and a pipe or queue is not empty, the router has a step, and after it less is left to do |
| `EventualDelivery.ManagerAdvances` | app12.cpp:106-130 | a manager in the middle of an emit has a step that brings it closer to its end |
| `Bits.RoundUpIsLeast` | atomic_queue/include/atomic_queue/atomic_queue.h:135-138 | in 32 bits, round_up_to_power_of_2 is the least power of two at least its argument exactly for 1 to 2^31, and zero otherwise |
| `Masks.RoundUpIsLeast` | atomic_queue/include/atomic_queue/atomic_queue.h:140-143 | in words of any width, among them 64 bits, rounding up gives the least power of two at least the argument exactly where there is one, and zero otherwise |
| `Masks.CeilToPow2` | readerwriterqueue/readerwriterqueue.h:653-664 | the loop form of the shifts computes the same number |
| `Masks.SmearIsOnes` | concurrentqueue/concurrentqueue.h:623-629 | the shifts set every bit below the highest and no other |
| `Masks.MaskForHolds` | readerwriterqueue/readerwritercircularbuffer.h:42-48 | one more than the mask is the least power of two that holds the capacity; a capacity of zero gets the mask of all ones |
| `Masks.MaskIsRemainder` | readerwriterqueue/readerwritercircularbuffer.h:268-272 | masking with a power of two less one takes the remainder |
| `Masks.RoomAsked` | atomic_queue/include/atomic_queue/atomic_queue.h:685-688 | AtomicQueueB2 has the room asked for exactly up to 2^31 elements, and beyond that gets its least size |
| `Masks.SizeIsSafe` | atomic_queue/include/atomic_queue/atomic_queue.h:685-688 | its size always divides 2^32, and is below 2^31 except when more than 2^30 and at most 2^31 elements are asked for |
| `Bits.RemapInvolution` | atomic_queue/include/atomic_queue/atomic_queue.h:81-92 | remap_index, which exchanges the two groups of bits (`RemapSwaps`), is its own inverse for every shuffle the library uses |
| `Bits.RemapSwaps` | atomic_queue/include/atomic_queue/atomic_queue.h:81-92 | for every number of bits from 0 to 8 the lowest bits of the remapped index are the next ones of the index, the next ones its lowest, and the rest is unchanged |
| `Bits.NeighboursSpread` | atomic_queue/include/atomic_queue/atomic_queue.h:81-92 | two different indices of one group of 2^bits cells are remapped into different groups, so neighbours fall on different cache lines |
| `Bits.RemapPermutes` | atomic_queue/include/atomic_queue/atomic_queue.h:81-92 | remap_index is a permutation of the slots of every array large enough for the bits |
| `Bits.SizesFit` | atomic_queue/include/atomic_queue/atomic_queue.h:59-71 | the sizes of AtomicQueue2, exactly for 1 to 2^31, and of AtomicQueueB2, always, are large enough for the bits they shuffle; a size that is large enough stays and is shuffled |
| `Bits.CircularLessExact` | concurrentqueue/concurrentqueue.h:595-602 | for counters less than a turn apart, the wrapped comparison is right if and only if they are within half a turn |

## Left out

- Weak memory orderings, fences, padding and alignment: atomics are sequentially consistent here.
- Exception paths and bulk enqueue of `ConcurrentQueue`: the block index is proved for single-item enqueue of elements whose construction does not throw.
- `ImplicitProducer`, the implicit-producer hash table and the producer list of `ConcurrentQueue`: a separate study.
- Consumer tokens and the choice among producers in `ConcurrentQueue::try_dequeue`: heuristics without a promise beyond the per-producer ones.
- `ReaderWriterQueue::size_approx` and `max_capacity`, move and swap: approximate or sequential.
- BlockingReaderWriterQueue and BlockingConcurrentQueue: thin wrappers over the queues and semaphores modelled.
- AtomicQueue and AtomicQueueB, which mark empty cells with a reserved element: the slot protocol proved is that of AtomicQueue2 and AtomicQueueB2. Slots are numbered before remapping, which `Bits` shows to be a permutation.
- Wrap-around of 64-bit counters inside the step systems: unbounded there; only `Bits.CircularLessExact` treats it.
- Liveness under a scheduler: no fairness is assumed. What is proved is that calls can take their next step, in how few of their own steps the wait-free ones return, and that a drain left alone ends with everything drained.
- `AutoId`: identities are taken as distinct numbers, as its atomic counter hands out.
- `EventRouter`: which descriptors epoll reports is an argument; the managers' queues and pipes join it in `Application`, where every manager stays alive as a producer and the router takes one readable pipe at a time.
- app5 to app8, which order the drain and the consumption of the event differently.
- Prometheus, benchmarks, huge pages, CPU topology, scripts and build files.
