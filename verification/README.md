# Lock-free queues and their memory protocols, in Dafny

A model of the library's queues and of the memory recycling around them, and proofs of
what they promise.  Nothing here is executed; every statement is a Dafny contract.

**Concurrent models.**  A protocol is a total function `Next` from a state and a scheduling
choice to the next state, one step per access to a shared word (a double-width
compare-and-swap, a fetch-and-add, an exchange or a block under a mutex is one step).  A
*run* is a sequence of choices, so a statement about every run is a statement about every
interleaving of any number of threads.  Weak compare-and-swap and try-lock may fail at any
time.  History variables (logs, clocks, who placed what) record what happened and never
influence a step.  Memory is sequentially consistent.

| modules | what they model |
|---|---|
| `Ring`, `MachineWord` | slots, cycles and the cache-line remapping; the 64-bit words behind them |
| `TicketQueue`, `TicketSafety`, `TicketOrder`, `TicketEmpty` | the ticket protocol of SCQ and of SCQP in pointer mode |
| `TicketCalls`, `TicketFates` | tickets and calls: each committed ticket has exactly one enqueue call, with the scheduled argument; what a call is bound to do |
| `TicketSerial` | the same protocol called by one thread at a time: it answers as a FIFO of the ring's size |
| `TicketSteps`, `TicketValve`, `TicketAlone`, `TicketGiveUp` | exactly when the retry valve loses an element, and exactly when an empty result misses one |
| `TicketFull`, `TicketRefusal` | what the answer "full" counts, and exactly when it is about the slots |
| `IndexQueue`, `IndexRefinement`, `IndexDelivery`, `IndexValve`, `IndexRefusal` | SCQP in index mode, with its side array of pointers, refining pointer mode |
| `FifoHistory`, `Ncq`, `MsQueue`, `MsQueueProofs`, `MsQueueFree` | linearizability, NCQ, and the Michael-Scott queue with its deferred freeing |
| `NcqSolo`, `MsQueueSolo` | their calls running alone from any reachable state |
| `Ebr`, `EbrAccounting`, `EbrAdvance`, `EbrDrain`, `EbrManager` | epoch-based reclamation: concurrently, and as the class with its loops |
| `ClosingGate` | the counter-and-flag gate of the object pool map and of the LSCQ destructor |
| `PoolShard`, `ObjectPool` | the shared tier of the object pools |
| `TlsPool`, `TlsInvariant`, `TlsConservation` | the three-tier thread-local pool with concurrent clearing |
| `TlsSolo`, `TlsGet`, `TlsPut`, `TlsClear`, `TlsExit` | its calls running alone from any reachable state |
| `RingState`, `Scqp`, `Scq` | the rings as classes, one call at a time |
| `NodeList`, `RingNodes`, `Lscq` | the unbounded queue over recycled ring nodes, one call at a time |

**Reading the run theorems.**  `Run(..., sch)` is the state after schedule `sch`; `g` in the
ticket protocol is the history: `commit` maps an enqueue ticket to the value its CAS2 stored,
`taken` a dequeue ticket to the value it removed, `dead` holds tickets whose dequeuer left
without an element, `abandoned` those given up by the 1024-retry valve, and `log` lists calls
and returns.

**Calls running alone.**  Where a state machine leaves open what a call achieves, the `Solo`
modules say it: from every state of every run, with the other threads stopped wherever they
are, `Steps` and `Leads` follow one thread whose compare-and-swaps do not fail spuriously.

**Where code and comments differ,** the code is modelled and the exact condition is proved.

- NCQ's header says an enqueue spins when the ring is full; the code overwrites.
  `Ncq.IntactIffNotOverfull` gives the condition, `Ncq.OverfillOverwrites` the run.
- EBR's comment says a node is freed when its epoch is below the current one minus two; the
  code frees at exactly two.  For any number of reclaimers the grace period holds in every run
  in which no two reclaim calls are between the scan and the increment of the epoch at once
  (`Ebr.GracePeriod`); sweeps and deletions may overlap.  Two calls that meet there can free a
  node under an active thread (`Ebr.OverlapBreaksGrace`).
- The gate excludes operations if and only if no two reopening clearers can meet
  (`ClosingGate.ExcludesIffOneClearer`).
- SCQ reports empty when its threshold is used up, whatever is stored.  With two threads it
  can miss a value whose enqueue has long returned (`TicketGiveUp.ScqGivesUp`); in every run
  of k threads each such value was claimed during the call if and only if the queue is SCQP
  or k is at most one (`TicketGiveUp.MissesNothingIff`).
- SCQP's valve gives up a stored element after 1024 retries, and the element of a returned
  enqueue is then lost for good (`TicketValve.ValveLoses`).  No run with at most c consumers
  does so if and only if c is at most one (`TicketValve.NeverAbandonsIff`).
- SCQP's enqueue answers "full" by comparing counters of completed calls.  With two threads it
  can do so although a slot is empty during the whole call (`TicketRefusal.RefusedWithRoom`);
  every refusal has a moment with all slots full if and only if there is at most one thread
  (`TicketRefusal.RefusesOnlyFullIff`).
- SCQP holds as many elements as the ring has slots, not half as many (`Scqp.Serve`).
- SCQ's enqueue on a full ring never returns (`Scq.Queue.Enqueue`); rounding a ring
  size above 2^63 never returns (`MachineWord.RoundingEndsIff`).
- NCQ's capacity is zero for the three largest requests (`MachineWord.NcqCapacityIsLeast`).

## Model

| member | source | states |
|---|---|---|
| `Ring.RemapInjective` | src/scq.cpp:87-97 | the cache-line remapping sends distinct indices of a ring to distinct slots |
| `Ring.Unmap` | src/scqp.cpp:202-212 | the remapping is onto: every slot has an index that is mapped to it |
| `Ring.RemapIsProduct` | src/ncq.cpp:50-60 | the recursive remapping is offset times lines plus line |
| `Ring.TicketGeometry` | src/scqp.cpp:239-241 | a ticket's cycle and position are its quotient and remainder by the ring size |
| `Ring.SameSlotOrder` | src/scqp.cpp:239-247 | two tickets of one slot are at least a ring apart and ordered by their cycles |
| `Ring.ConsecutiveTicketsDistinctSlots` | src/scq.cpp:114-117 | any ring-size many consecutive tickets use pairwise different slots |
| `Ring.TicketOfSlot` | src/scq.cpp:87-97 | every slot is used by some ticket of every window of ring-size many tickets |
| `MachineWord.MachineTicket` | src/scq.cpp:114-117 | for every 64-bit ticket and power-of-two ring of at least four slots, shift, mask and remapping give the model's cycle and slot, the cycle survives packing, and comparing wrapped cycles compares the numbers |
| `MachineWord.MaskIsModulo` | src/scqp.cpp:165-165 | AND with a power of two minus one is the remainder, bit by bit |
| `MachineWord.ShiftIsDivision` | src/scq.cpp:110-116 | a right shift is division by the power of two |
| `MachineWord.RemapBitsIsRemap` | src/scq.cpp:93-96 | the bit form of the remapping is the arithmetic one |
| `MachineWord.PackRoundTrip` | include/lscq/scq.hpp:124-132 | unpacking returns the flag always and the cycle if and only if it is below 2^63 |
| `MachineWord.CycleLessExact` | src/scq.cpp:17-20 | the signed wrapped comparison equals the plain one if and only if the cycles are less than half a word apart |
| `MachineWord.OrWithBottom` | src/scq.cpp:186-188 | OR with bottom turns every storable index into bottom |
| `MachineWord.PowerTest` | src/scq.cpp:22-22 | v AND v-1 is zero exactly for the powers of two |
| `MachineWord.RoundUpPow2` | src/scq.cpp:24-36 | the result is the least power of two not below the request, with the wrap of the doubling written out |
| `MachineWord.RoundingEndsIff` | src/scq.cpp:31-35 | the doubling loop can end if and only if the request is at most 2^63 |
| `MachineWord.CountTrailingZeros` | include/lscq/detail/bit.hpp:31-42 | counting trailing zeros of a power of two gives its exponent |
| `MachineWord.NcqCapacityIsLeast` | src/ncq.cpp:13-32 | for every 64-bit request NCQ's capacity holds it if and only if the request is at most 2^64 - 4, and is then the least multiple of four that does; for the rest the addition wraps and it is zero |
| `TicketSafety.InvNext` | src/scqp.cpp:228-373 | every atomic step of SCQ and SCQP keeps the slot invariant: stored values are the committed, untaken ones, dead tickets stay barred, and no two threads hold a ticket |
| `TicketSafety.RunInv` | src/scq.cpp:99-253 | that invariant holds in every interleaving |
| `TicketSafety.CommitPc` | src/scqp.cpp:247-259 | a committing CAS2 leaves every other thread's stale load harmless |
| `TicketSafety.MarkCore` | src/scqp.cpp:321-333 | advancing a cycle or clearing IsSafe keeps every stored element and bars the ticket |
| `TicketSafety.OccupiedIsCommitted` | src/scqp.cpp:301-318 | an occupied slot of cycle h holds the value committed under ticket h |
| `TicketOrder.ReturnedOnceAndAsCommitted` | src/scq.cpp:167-189 | in every run a value returned under ticket h was committed under enqueue ticket h, and no ticket is returned twice |
| `TicketOrder.TicketFifo` | src/scqp.cpp:239-263 | if enqueue a returned before enqueue b was called and both tickets were claimed by dequeuers, a's was claimed first |
| `TicketCalls.EnqueueStarts` | src/scq.cpp:99-108 | an idle thread scheduled to enqueue logs a call with exactly the scheduled argument and is in that call; it stays idle with nothing logged exactly for a null argument or, in SCQ, one of at least n - 1 |
| `TicketCalls.StoredIsArgument` | src/scq.cpp:114-133 | in every run the value stored under a committed ticket is the argument with which the scheduler started the enqueue call of that ticket |
| `TicketCalls.ReturnedIsArgument` | src/scq.cpp:99-189 | in every run what is returned under an enqueue call's ticket is the argument with which the scheduler started that call |
| `TicketFates.SeenEnds` | src/scqp.cpp:336-371 | in every continuation of every run a dequeue that has seen the tail not past its ticket draws no other: it is on its way out or has answered empty |
| `TicketFates.TicketIsKept` | src/scq.cpp:119-139 | an enqueue works on its ticket until it has stored its own argument under it, and drops it only if the slot has no place for it or the head has passed it |
| `TicketSerial.EnqueueAlone` | src/scqp.cpp:228-265 | between calls, with room and whatever the threshold is, an enqueue running alone ends, appends its argument under the first ticket not behind the head, and restores the threshold law |
| `TicketSerial.RefusedAlone` | src/scqp.cpp:231-237 | between calls SCQP refuses on a full ring and changes nothing |
| `TicketSerial.TakenAlone` | src/scqp.cpp:268-318 | between calls a dequeue running alone ends and returns the oldest element; a used-up threshold is reset |
| `TicketSerial.EmptyAtOnce` | src/scqp.cpp:272-286 | with the threshold used up an empty queue answers without drawing a ticket and changes nothing |
| `TicketSerial.EmptyAlone` | src/scqp.cpp:321-371 | otherwise it answers after one ticket, with one off the threshold, or with tail and threshold anew once the threshold is used up and the tail a ring behind |
| `TicketSerial.Serve` | src/scq.cpp:99-253 | any calls of any threads, one at a time, are answered by the concurrent protocol as by a FIFO of the ring's size, for SCQ and both modes of SCQP, and leave it under the threshold law |
| `TicketCalls.CommittedByOneCall` | src/scq.cpp:114-133 | in every run each committed ticket belongs to exactly one enqueue call, returned or on its way out, each taken one to a dequeue call, and no enqueue call commits two tickets or is refused besides |
| `TicketEmpty.DeadTicketsStayDead` | src/scqp.cpp:321-334 | once the dequeuer of ticket h left its slot without an element, no enqueue ever commits ticket h, stale loads and the head check included |
| `TicketEmpty.CommittedIsKept` | src/scqp.cpp:297-334 | a committed value was taken under its own ticket, or is still in its slot with the ticket unclaimed, in work, or given up by the valve |
| `TicketEmpty.EmptyIsJustified` | src/scqp.cpp:336-371 | every empty result of SCQP has a moment inside the call with tail at most head, when every committed ticket was claimed; SCQ's results too unless they took its extra exit |
| `TicketEmpty.SingleConsumerLosesNothing` | src/scqp.cpp:268-373 | with one consumer no slot is ever unsafe, the valve never fires, and each empty result has a moment at which everything committed had been taken |
| `TicketEmpty.RunAccounted` | src/scqp.cpp:288-334 | in every run each claimed dequeue ticket is taken, dead, abandoned, or held by one thread |
| `TicketValve.ValveFires` | src/scqp.cpp:308-314 | for every ring size and both SCQP variants a run of two consumers and one producer whose only enqueue has returned, whose element was not taken and whose ticket the valve gave up |
| `TicketValve.AbandonedIsLost` | src/scqp.cpp:308-314 | a ticket the valve gave up holds a committed element, and no continuation of the run ever takes or returns it |
| `TicketValve.ValveLoses` | src/scqp.cpp:297-318 | from that run on, whatever the threads do, no dequeue returns the value of the returned enqueue |
| `TicketValve.NeverAbandonsIff` | src/scqp.cpp:297-334 | no run with at most c consumers gives an element up if and only if the queue is SCQ or c is at most one |
| `TicketAlone.AloneSees` | src/scq.cpp:143-253 | with one thread every empty result of SCQ has a moment inside the call with the tail not past the head |
| `TicketGiveUp.ScqGivesUp` | src/scq.cpp:232-251 | for every ring size and any two or more threads a run with everybody outside a call, a value whose enqueue has returned, and then a dequeue call that returns empty although that value's ticket is unclaimed and the tail ahead of the head at every moment of the call |
| `TicketGiveUp.SeenAnswers` | src/scqp.cpp:336-371 | a moment with tail at most head answers for every enqueue that returned before the call |
| `TicketGiveUp.MissesNothingIff` | src/scq.cpp:143-253 | in every run of k threads each value whose enqueue returned before an empty dequeue call began was claimed at some moment of that call, if and only if the queue is SCQP or k is at most one |
| `TicketFull.CountersAreExact` | src/scqp.cpp:228-259 | SCQP's success counters equal the numbers of returned enqueues and dequeues in every run |
| `TicketFull.RefusalIsCounted` | src/scqp.cpp:231-237 | every refusal of every run had at least n more enqueues returned than dequeues at an earlier moment of the call; only as many slots can be empty then as dequeues had taken an element and not returned, and without such a dequeue all slots are full |
| `TicketFull.OccupiedCount` | src/scqp.cpp:239-259 | as many slots are occupied as tickets are committed and not taken |
| `TicketRefusal.RefusedWithRoom` | src/scqp.cpp:231-237 | for every ring size and any two or more threads a run in which an enqueue is refused although a slot is empty at every moment of the call |
| `TicketRefusal.RefusesOnlyFullIff` | src/scqp.cpp:228-259 | every refusal in every run of k threads has a moment of its call with all slots full, if and only if the queue is SCQ, which never refuses, or k is at most one |
| `IndexRefinement.IndexModeRefines` | src/scqp.cpp:376-533 | every index-mode run is, under the abstraction, the pointer-mode run of the mapped schedule |
| `IndexRefinement.ValueBranchGetsCommitted` | src/scqp.cpp:460-479 | a dequeuer in the value branch faces and gets exactly the pointer committed under its ticket |
| `IndexRefinement.RollbackRemovesOwnPointer` | src/scqp.cpp:398-417 | a failed committer's rollback removes its own pointer and changes nothing else |
| `IndexRefinement.IndexModeFifo` | src/scqp.cpp:376-424 | index mode inherits ticket order and exactly-once return |
| `IndexRefinement.IndexModeEmptyIsJustified` | src/scqp.cpp:496-533 | index mode's empty results have a moment with tail at most head |
| `IndexRefinement.IndexModeSingleConsumer` | src/scqp.cpp:427-533 | index mode with one consumer loses nothing and never marks a slot unsafe |
| `IndexDelivery.IndexModeReturnsArgument` | src/scqp.cpp:376-479 | index mode: in every run what is returned under an enqueue call's ticket is the argument with which the scheduler started that call |
| `IndexDelivery.IndexEnqueueStarts` | src/scqp.cpp:214-220 | index mode: an idle thread scheduled to enqueue logs a call with exactly the scheduled argument, and stays idle exactly for null |
| `IndexDelivery.IndexModeOneCall` | src/scqp.cpp:376-424 | index mode: each committed ticket belongs to exactly one enqueue call and no call commits two |
| `IndexDelivery.IndexModeKeeps` | src/scqp.cpp:460-493 | a committed pointer was taken under its own ticket, or its entry still names its cell and the pointer is there or with the dequeuer that exchanged it, the ticket unclaimed, in work, or given up |
| `IndexDelivery.IndexModeDeadStaysDead` | src/scqp.cpp:480-493 | once a dequeuer left its slot without a pointer, no enqueue ever commits its ticket |
| `IndexValve.IndexValveFires` | src/scqp.cpp:467-473 | index mode has the run in which the valve gives up the pointer of a returned enqueue, for every ring size |
| `IndexValve.IndexAbandonedIsLost` | src/scqp.cpp:467-473 | such a pointer is never taken or returned in any continuation |
| `IndexValve.IndexNeverAbandonsIff` | src/scqp.cpp:460-493 | in index mode no run with at most c consumers gives a pointer up if and only if c is at most one |
| `IndexRefusal.IndexRefusalIsCounted` | src/scqp.cpp:379-385 | index mode: the same account of every refusal, over entries that name a cell |
| `IndexRefusal.IndexRefusedWithRoom` | src/scqp.cpp:379-385 | index mode: a refusal with an unused entry at every moment of the call, for every ring size and any two or more threads |
| `IndexRefusal.IndexRefusesOnlyFullIff` | src/scqp.cpp:376-424 | index mode: every refusal has a moment with all entries used if and only if there is at most one thread |
| `FifoHistory.RealTimeOrder` | src/msqueue.cpp:55-108 | the linearization points respect the real-time order of calls |
| `FifoHistory.QuietBijection` | src/msqueue.cpp:54-108 | a linearizable history without open calls has exactly one completed effect for each log entry |
| `Ncq.NcqLinearizable` | src/ncq.cpp:62-125 | every run is a linearizable FIFO: the log replays as a queue, each completed call has its place in it between invocation and return, and the entries are in bijection with the completed effects and those of open calls; enqueue takes effect at its CAS2, dequeue at its head CAS, empty at the slot load; head is at most one past tail |
| `Ncq.NcqQuiet` | src/ncq.cpp:62-125 | with every thread idle the log is in bijection with the completed enqueues and dequeues: nothing is delivered twice or invented |
| `Ncq.CarriesArgument` | src/ncq.cpp:62-99 | whatever the others do, from its start to its return an enqueue call carries the argument it was scheduled with, retries included |
| `Ncq.CallHasArgument` | src/ncq.cpp:62-99 | in every run each step of an enqueue call that logs an effect logs an enqueue of the argument the call was scheduled with, and its return records that effect with the moment of the call |
| `Ncq.IntactIffNotOverfull` | src/ncq.cpp:85-92 | all stored elements are still in their slots if and only if no more than n are stored |
| `Ncq.DequeueAtHead` | src/ncq.cpp:105-124 | at the current head a dequeuer meets its element, empty, or an overwritten slot exactly as 0 < stored <= n, stored = 0, or stored > n |
| `Ncq.EnqueueNeverWaits` | src/ncq.cpp:63-99 | from any resting state an enqueue running alone completes in five steps, however full the ring is |
| `Ncq.OverfillOverwrites` | src/ncq.cpp:85-96 | for every k, k enqueues in a row all return; for k > n an unread element is overwritten |
| `NcqSolo.EnqueueAlone` | src/ncq.cpp:62-99 | from every reachable state an enqueue running alone stores its argument, moves the tail past it and returns, within eight steps |
| `NcqSolo.DequeueAlone` | src/ncq.cpp:101-125 | with at most n stored a dequeue running alone returns within four steps: the oldest element, or empty exactly when nothing is stored |
| `NcqSolo.DequeueStuck` | src/ncq.cpp:105-118 | with more than n stored a dequeue running alone never returns |
| `MsQueueProofs.MsQueueLinearizable` | src/msqueue.cpp:54-108 | every run is a linearizable FIFO: the log replays as a queue, each completed call has its place in it, and the entries are in bijection with the completed effects and those of open calls; head never passes tail, tail lags the last node by at most one, and the linked values are the abstract queue |
| `MsQueueProofs.MsQueueQuiet` | src/msqueue.cpp:54-108 | with every thread idle the log is in bijection with the completed enqueues and dequeues |
| `MsQueueProofs.ArgumentIsKept` | src/msqueue.cpp:54-58 | in every run the node of an enqueue call keeps that call's argument, so the logged enqueue is the one that was called |
| `MsQueueProofs.CallHasArgument` | src/msqueue.cpp:54-78 | in every run the effect that an enqueue call records, and the log entry it stands for, have the argument the call was scheduled with |
| `MsQueueProofs.InvNext` | src/msqueue.cpp:54-108 | every atomic step keeps the chain, the history and each thread's stale pointers sound |
| `MsQueueProofs.LinkStep` | src/msqueue.cpp:66-72 | a successful link CAS, with the node and the enqueue it appends, keeps the whole invariant for every thread's stale pointers |
| `MsQueueProofs.UnlinkStep` | src/msqueue.cpp:101-106 | a successful head CAS keeps the invariant, so the value read before it was the oldest of the abstract queue |
| `MsQueueSolo.EnqueueAlone` | src/msqueue.cpp:54-78 | from every reachable state an enqueue running alone links its node last, moves the tail to it and returns, within ten steps |
| `MsQueueSolo.DequeueAlone` | src/msqueue.cpp:80-108 | from every reachable state a dequeue running alone returns within fifteen steps: the oldest element, with the old head on the retired stack, or empty exactly when the queue is |
| `MsQueueFree.RunFreeInv` | src/msqueue.cpp:21-32 | in every run each node passed by head is on the retired stack once or in the hands of one retiring thread |
| `MsQueueFree.RetiredAndChainPartition` | src/msqueue.cpp:13-52 | after quiescence the retired list and the chain from head are disjoint and together hold every allocated node |
| `MsQueueFree.DeleteRetired` | src/msqueue.cpp:44-52 | the loop visits the retired stack in order, reading each node before deleting it |
| `MsQueueFree.DeleteChain` | src/msqueue.cpp:34-42 | the loop visits the chain from head to its end |
| `MsQueueFree.Destroy` | src/msqueue.cpp:13-19 | the destructor deletes every allocated node exactly once |
| `MsQueueFree.QuietRunCanBeDestroyed` | src/msqueue.cpp:13-52 | every quiesced run meets the destructor's precondition |
| `Ebr.GracePeriod` | src/ebr.cpp:58-100 | for any number of reclaimers, in every run in which no two reclaim calls are between scan and increment at once, no node whose retire began after a thread became active is deleted while it stays active, and the epoch rises by at most one meanwhile |
| `Ebr.OverlapBreaksGrace` | src/ebr.cpp:130-138 | two overlapping reclaims can free a node under an active thread: a concrete schedule for any number of at least two |
| `Ebr.GraceIffNoOverlap` | src/ebr.cpp:130-173 | the grace period holds in all runs of a number of reclaimers if and only if none of those runs has such an overlap, which is so if and only if there is at most one reclaimer |
| `EbrAccounting.EachNodeInOnePlace` | src/ebr.cpp:71-173 | in every run, overlapping reclaims included, each retired node is in exactly one place, is deleted at most once, and sits in the bucket of its epoch modulo three |
| `EbrAccounting.Destroy` | src/ebr.cpp:14-23 | from any quiet reachable state the destructor completes the deletions: each node exactly once |
| `EbrAdvance.FreeScanAdvances` | src/ebr.cpp:90-100 | in every interleaving a scan that meets no active thread of an older epoch ends in the increment of the epoch |
| `EbrAdvance.AdvancesIff` | src/ebr.cpp:90-138 | a reclaim call running alone moves the epoch on by one if and only if no active thread is in an older epoch |
| `EbrDrain.RunDrainInv` | src/ebr.cpp:71-138 | in every run no pending node is tagged ahead of the epoch, and the threads mutex is held by a scanning reclaim |
| `EbrDrain.QuietDrain` | src/ebr.cpp:130-173 | after any concurrent run that has come to rest with no thread in a critical section, two calls of any reclaimer empty all buckets, and every node ever retired has been deleted exactly once |
| `EbrDrain.LeaveAndDrain` | src/ebr.cpp:65-173 | with no call in progress, whatever threads are in critical sections: once each has left, by its one step, two reclaim calls delete every node ever retired exactly once |
| `EbrManager.Manager.Retire` | src/ebr.cpp:71-88 | null is ignored; otherwise exactly one pending node is added, with the pointer, the deleter flag and the current epoch, in the bucket of that epoch, and the invariant is kept |
| `EbrManager.RetireAdds` | src/ebr.cpp:79-87 | a retire adds one to the pending deleter calls of its own pointer if it has a deleter, and nothing else |
| `EbrManager.Manager.GetOrCreateState` | src/ebr.cpp:39-56 | a thread with a state here keeps it, any other gets the next place, inactive |
| `EbrManager.Manager.EnterCritical` | src/ebr.cpp:58-63 | a thread that is new to the manager is registered; the thread becomes active in the current epoch and nothing else changes |
| `EbrManager.Manager.ExitCritical` | src/ebr.cpp:65-69 | a thread that is new to the manager is registered; the thread becomes inactive and nothing else changes |
| `EbrManager.Manager.CanAdvanceEpoch` | src/ebr.cpp:90-100 | false exactly when some active thread has an epoch below the global one |
| `EbrManager.Split` | src/ebr.cpp:148-160 | the i-th node goes to the due ones exactly when its epoch is at most the safe one, at the place that the number of due nodes before it gives, and to the kept ones otherwise, at its place among those |
| `EbrManager.Manager.ReclaimBucket` | src/ebr.cpp:147-169 | one bucket keeps exactly the young nodes; for each pointer as many deleter calls are made as due nodes with a deleter carry it, and the other buckets and the epoch stay |
| `EbrManager.Manager.TryReclaim` | src/ebr.cpp:130-173 | the epoch moves on exactly if no active thread is in an older one; for each pointer the calls made are the pending nodes with a deleter whose epoch is at least two behind the one reached, calls plus pending are conserved, and the result counts the calls |
| `EbrManager.ReclaimCalls` | src/ebr.cpp:140-169 | for each pointer a reclaim calls the deleters of exactly the due pending nodes that have one, once each, and what it does not call stays pending |
| `EbrManager.ReclaimKeeps` | src/ebr.cpp:140-160 | a reclaim keeps every node in the bucket of its epoch |
| `EbrManager.SurvivesIffYoung` | src/ebr.cpp:144-159 | a pending node survives a reclaim if and only if the epoch reached is less than two above its own |
| `EbrManager.TwoReclaims` | src/ebr.cpp:130-173 | two reclaims leave nothing pending if and only if every pending node is two epochs behind the epoch they reach |
| `EbrManager.TwoQuietReclaims` | src/ebr.cpp:134-145 | with no active thread two reclaims always leave nothing pending |
| `EbrManager.LaggardBlocks` | src/ebr.cpp:94-99 | a thread active in an older epoch freezes the epoch, and a second reclaim frees nothing more |
| `EbrManager.Manager.HasPending` | src/ebr.cpp:179-187 | true exactly when some bucket is not empty |
| `EbrManager.Drain` | src/ebr.cpp:130-187 | two calls on a manager without active threads empty it |
| `ClosingGate.CounterIsExact` | include/lscq/object_pool_map.hpp:161-183 | in every run, whatever the clearers do, the counter is the number of threads between increment and decrement |
| `ClosingGate.RunInv` | src/lscq.cpp:70-108 | with one clearer, or with clearers that never reopen, no operation is past its re-check while a clearing section runs |
| `ClosingGate.TwoClearersBreak` | include/lscq/object_pool_map.hpp:121-140 | two clearers that reopen let an operation in while one of them is clearing |
| `ClosingGate.ExcludesIffOneClearer` | include/lscq/object_pool_map.hpp:121-183 | exclusion holds in all runs if and only if there is no operation, at most one clearer, or no reopening |
| `ClosingGate.WaitShrinks` | src/lscq.cpp:71-76 | while the flag is up every operation step that changes anything brings the end of the wait nearer |
| `ClosingGate.WaitEnds` | include/lscq/object_pool_map.hpp:123-126 | with no such work left the waiting clearer gets through at its next look |
| `PoolShard.Shard.GetBatch` | include/lscq/detail/object_pool_shard.hpp:20-36 | the last objects come out in reverse, as many as asked for or as there are, the others stay in order, and the size counter stays exact |
| `PoolShard.Shard.PutBatch` | include/lscq/detail/object_pool_shard.hpp:38-57 | the k-th object appended is the k-th non-null pointer, the result is their number, and each object is stored once more for every place at which the batch has it |
| `PoolShard.Shard.TryStealBatch` | include/lscq/detail/object_pool_shard.hpp:59-78 | with the lock it takes the last objects in reverse like a local get, without it nothing changes |
| `PoolShard.TakeCounts` | include/lscq/detail/object_pool_shard.hpp:26-31 | what is taken and what is left together are what was there |
| `PoolShard.CountIsMultiplicity` | include/lscq/detail/object_pool_shard.hpp:26-52 | the occurrences of an object that the pool theorems count are multiplicities |
| `ObjectPool.Core.GetShared` | include/lscq/detail/object_pool_core.hpp:47-65 | the newest object of the first stocked shard in stealing order, or, exactly when all shards are empty, what the factory gives: a new object, or null without a factory |
| `ObjectPool.Core.GetSharedBatch` | include/lscq/detail/object_pool_core.hpp:67-84 | what comes out is the start, as long as asked for or as there is, of all objects in order: the own shard first, then the others in stealing order, each newest first; nothing else changes |
| `ObjectPool.Core.PutShared` | include/lscq/detail/object_pool_core.hpp:86-91 | null is ignored, any other object joins the caller's shard |
| `ObjectPool.Core.PutSharedBatch` | include/lscq/detail/object_pool_core.hpp:93-98 | the caller's shard gets the k-th non-null object as its k-th new one, as many as there are non-null ones, and no other shard changes |
| `ObjectPool.Core.ClearShared` | include/lscq/detail/object_pool_core.hpp:100-106 | every stored object is deleted exactly as often as it was stored, and all shards are empty |
| `ObjectPool.Core.SizeApprox` | include/lscq/detail/object_pool_core.hpp:108-114 | one call at a time, the approximate size is the exact total |
| `ObjectPool.RoundRobinCovers` | include/lscq/detail/object_pool_core.hpp:57-62 | the stealing order reaches every shard |
| `ObjectPool.RoundRobinIsModulo` | include/lscq/detail/object_pool_core.hpp:57-62 | the shard of a round is the home index plus the round, modulo the number of shards |
| `ObjectPool.TotalUpdate` | include/lscq/detail/object_pool_core.hpp:108-114 | the total changes by exactly what one shard changes by |
| `ObjectPool.TotalEmpty` | include/lscq/detail/object_pool_core.hpp:108-114 | the total of empty shards is zero |
| `TlsPool.ShardAtIsModulo` | include/lscq/detail/object_pool_core.hpp:78-81 | the shard of a round is the home index plus the round, modulo the number of shards |
| `TlsInvariant.GetLocal` | include/lscq/object_pool_tls_v2.hpp:81-128 | every step of Get on its own cache keeps the cache facts: scanned slots are empty, indices in bounds, the count at most the capacity |
| `TlsInvariant.PutLocal` | include/lscq/object_pool_tls_v2.hpp:130-167 | the same for every step of Put |
| `TlsInvariant.RobbedLocal` | include/lscq/object_pool_tls_v2.hpp:419-437 | a clearer that empties slots or zeroes the count of another thread's cache breaks none of these facts |
| `TlsInvariant.RunInv` | include/lscq/object_pool_tls_v2.hpp:81-182 | in every interleaving these facts hold, and the registry lists exactly the caches in use, each once |
| `TlsInvariant.EffectiveBounds` | include/lscq/object_pool_tls_v2.hpp:514-523 | the stored batch size is used if it is between one, half the template's size and twice that size, and the nearest of these bounds otherwise |
| `TlsInvariant.ClampIsUnused` | include/lscq/object_pool_tls_v2.hpp:367-372 | in every interleaving the batch count stays within the capacity without the clamp |
| `TlsGet.GetAlone` | include/lscq/object_pool_tls_v2.hpp:81-128 | from every reachable state a get running alone ends and hands out the fast slot's object if there is one; else one of the batch; else one from the shards, the own shard first, with the rest of what it took in the batch; it makes a new object or returns nothing exactly when all of these are empty |
| `TlsGet.PopAlone` | include/lscq/object_pool_tls_v2.hpp:329-365 | the batch gives the highest occupied slot below the count, or the lowest occupied one, and only that slot is emptied |
| `TlsGet.HomeIsWaitedFor` | include/lscq/detail/object_pool_core.hpp:47-84 | a refused try-lock never costs the own shard |
| `TlsPut.PutAlone` | include/lscq/object_pool_tls_v2.hpp:130-167 | from every reachable state a put running alone ends with the object in the fast slot if that was empty; else in the batch slot at the count, or the lowest free one below the limit; else in the own shard, last after the whole batch in slot order |
| `TlsClear.ClearAlone` | include/lscq/object_pool_tls_v2.hpp:169-182 | from every reachable state with the registry free a clear running alone ends with every registered cache of the pool and every shard empty, and changes no other cache, no thread and nothing in use |
| `TlsExit.ExitAlone` | include/lscq/object_pool_tls_v2.hpp:480-512 | a thread that exits while running alone leaves its objects in its own shard, the fast slot's first and then in slot order, and an empty cache that is off the registry; nothing else changes |
| `TlsConservation.EachObjectInOnePlace` | include/lscq/object_pool_tls_v2.hpp:81-182 | in every interleaving of gets, puts, clears and thread exits each object is in exactly one slot, shard, operation's or caller's hands, or deleted list, whatever the batch count says |
| `TlsConservation.RefillAndBounds` | include/lscq/object_pool_tls_v2.hpp:105-124 | a refill stores only into empty slots, and every index into the batch and the local arrays is in bounds |
| `TlsConservation.ClearReachesLiveCaches` | include/lscq/object_pool_tls_v2.hpp:419-437 | Clear never touches the cache of a thread that has gone, and such a cache is empty and unregistered |
| `TlsConservation.NothingLostAtExit` | include/lscq/object_pool_tls_v2.hpp:480-512 | when all threads have exited each object is with a caller, in a shard, or deleted, exactly one of these |
| `TlsConservation.DrainCount` | include/lscq/object_pool_tls_v2.hpp:401-417 | draining moves each object from its slot to the local array without loss |
| `RingState.EnqueueHolds` | src/scqp.cpp:239-262 | storing at the tail of a ring that is not full appends to the contents |
| `RingState.TakeHolds` | src/scqp.cpp:301-318 | emptying the head's slot removes the oldest element |
| `RingState.AdvanceHolds` | src/scqp.cpp:321-333 | a failed dequeue advances the head and one slot's cycle and leaves an empty ring |
| `RingState.BehindHead` | src/scqp.cpp:243-262 | a tail ticket that the head has passed finds its cycle used up |
| `RingState.CatchUpHolds` | src/scqp.cpp:536-552 | the tail may move up to the head of an empty ring |
| `Scqp.Queue.constructor` | src/scqp.cpp:137-197 | a new ring is empty, of the least power of two that is at least four and the request |
| `Scqp.Queue.Enqueue` | src/scqp.cpp:214-220 | false exactly for null or a full ring, which is then unchanged; otherwise the element is appended; the threshold law is kept |
| `Scqp.Queue.EnqueuePtr` | src/scqp.cpp:227-265 | the retry loop ends, with the distance from tail to head as measure, and appends |
| `Scqp.Queue.EnqueueIndex` | src/scqp.cpp:375-424 | the same in index mode, with the side array in step |
| `Scqp.Queue.Dequeue` | src/scqp.cpp:222-225 | null exactly when empty, otherwise the oldest element; fixState moves the tail exactly when the threshold would reach zero |
| `Scqp.Queue.DequeuePtr` | src/scqp.cpp:267-373 | pointer mode: oldest element or null, one round, no unsafe slot |
| `Scqp.Queue.DequeueIndex` | src/scqp.cpp:426-533 | index mode: the same through the side array |
| `Scqp.Queue.Penalise` | src/scqp.cpp:336-351 | after an empty attempt the threshold drops by one, or is reset together with the tail |
| `Scqp.Queue.FixState` | src/scqp.cpp:535-552 | the tail moves to the head exactly when the head is more than a ring ahead |
| `Scqp.Queue.IsEmpty` | src/scqp.cpp:554-559 | one call at a time the success counters tell emptiness exactly |
| `Scqp.Queue.NoResidue` | src/scqp.cpp:569-585 | true exactly when no slot holds a payload |
| `Scqp.Queue.ResetForReuse` | src/scqp.cpp:561-607 | succeeds exactly on an empty ring and leaves it in the state of a new one; otherwise changes nothing |
| `Scqp.Serve` | src/scqp.cpp:214-607 | any sequence of enqueues, dequeues and resets, in either mode, is answered as by a bounded FIFO of the ring's size, and leaves head, tail and threshold under the threshold law |
| `Scq.Queue.constructor` | src/scq.cpp:40-82 | a new ring is empty, of the least power of two that is at least four and the request |
| `Scq.Queue.Enqueue` | src/scq.cpp:99-141 | watched for any number of rounds of its loop: false exactly for a value the ring cannot store; true, with the value appended and the threshold law kept, exactly when the ring is not full and the rounds reach the head; otherwise it is still running, has drawn one ticket a round and changed no entry |
| `Scq.Queue.Dequeue` | src/scq.cpp:143-253 | kEmpty exactly when empty, otherwise the oldest value; fixState moves the tail exactly when the threshold would reach zero |
| `Scq.Queue.Take` | src/scq.cpp:173-207 | consuming ORs the index to bottom and keeps cycle and flag |
| `Scq.Queue.IsEmpty` | src/scq.cpp:274-277 | one call at a time head and tail tell emptiness exactly |
| `Scq.FullRefusesEveryTicket` | src/scq.cpp:114-140 | on a full ring no ticket, however late, finds a free slot |
| `Scq.Serve` | src/scq.cpp:99-253 | any sequence of calls is answered as by a FIFO up to the first enqueue of a storable value on a full ring, and leaves head, tail and threshold under the threshold law |
| `NodeList.ChainExtends` | src/lscq.cpp:119-141 | linking a fresh node behind the finalized tail gives a list again |
| `NodeList.FlatFirst` | src/lscq.cpp:169-176 | what the first ring gives up is the front of the whole queue |
| `RingNodes.Nodes.Prepare` | src/lscq.cpp:24-37 | whatever state the node was in, it ends unlinked, open, and with its ring in the initial state |
| `Lscq.Queue.constructor` | src/lscq.cpp:51-63 | a new queue is empty and has one node |
| `Lscq.Queue.NewNode` | src/lscq.cpp:123-125 | a node from the pool or the factory, in neither list nor pool, that cannot be told from one just made |
| `Lscq.Queue.Extend` | src/lscq.cpp:119-141 | the full tail is finalized, an empty node linked and made tail, and the contents stay |
| `Lscq.Queue.Enqueue` | src/lscq.cpp:93-150 | a non-null pointer is always accepted while the queue is open, in at most two of the 16 rounds, and appended |
| `Lscq.Queue.Dequeue` | src/lscq.cpp:152-234 | the oldest element, or null exactly when the queue is empty or closing; drained nodes go to the pool |
| `Lscq.Queue.DropFirst` | src/lscq.cpp:198-226 | a drained, finalized head moves from the list to the pool and the contents stay |
| `Lscq.Queue.Destroy` | src/lscq.cpp:70-91 | every node ever made is deleted exactly once |
| `Lscq.Serve` | src/lscq.cpp:51-234 | any sequence of calls from any threads, one at a time, is answered as by an unbounded FIFO, and the nodes made are then deleted once each |

## Left out

- Weak memory orderings, fences and data races on plain fields: the models are sequentially consistent.
- The inside of the double-width compare-and-swap, of the slot loads and of the atomic OR and exchange: each is one step.
- Progress under contention: lock-freedom, yields and spinning.  Completion is stated of calls that run alone, for the ticket protocol from states between calls; SCQ's dequeuer may spin on an unsafe slot forever.
- LSCQ under concurrent calls: nodes are recycled without a grace period, so the queue is modelled one call at a time.
- Scqp.Queue.Dequeue: the retry round, the unsafe-slot valve and failed compare-and-swaps need a second thread; here they are shown not to be reached, and the concurrent ticket model has them.
- Lscq.Queue.Enqueue: the lost races for finalizing and linking need a second thread and are shown not to be reached.
- Lscq.Queue.Dequeue: the waiting branches for a node that is finalized but not linked need a second thread and are shown not to be reached.
- TicketEmpty.EmptyIsJustified: for SCQ's extra exit, taken with the tail ahead, no moment is claimed, because there need not be one.
- Tickets beyond 2^64: the counters are unbounded in the protocol models.
- Ticket counters of is_empty seen from other threads: they lag the slots, so exactness is stated one call at a time only.
- The thread-local pool's destructor, its timed waits, the adaptive batch-size arithmetic (any stored size is allowed) and NUMA placement.
- The gets and puts of the object pool map on its per-thread slot: they are the fast-slot steps of the thread-local pool; only its gate is modelled.
- Thread registration in EBR under concurrency, and min_active_epoch and reclaim_generation, which nothing calls.
- ObjectPoolTLS version 1, the mutex queue, benchmarks, examples and tools.
