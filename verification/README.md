# A verified model of the Rhino kernel, its containers, the key-value store and the inter-core link

The model covers four parts of the firmware.

1. The Rhino kernel for one core with mutex priority inheritance: tasks, run queue, wait lists, tick list, mutexes,
   semaphores, events, buffer queues. `Kernel.Kernel` holds the state of the kernel; a field of a control block is a map
   from tasks or objects to the value of that field, and each method is one critical section of the source. The
   invariant `Valid()` says that states and lists agree, that wait lists are sorted by priority and the tick list by true
   due times, that nobody waits for something that is there, that mutex lists, owners and the links between mutexes agree,
   that every task has the priority it inherits, and that the scheduler runs the right task. `KernelSteps` says what the
   calls do, as relations between the data before and after: which task stands where in which ring, wait list and tick
   list. `KernelEffects` puts these together to one transition relation, and `KernelRuns.Run` shows that every sequence of
   calls and ticks follows it and keeps the invariant. `KernelRuns.Watch` says when a timeout ends in such a run,
   `KernelTurns` how tasks of the same priority take turns, `PriorityInheritance` what the local equation means for whole
   chains of owners, and `KernelScenarios` has runs that end where one would not expect.
2. The heap (`HeapBlocks`, `HeapLists`, `Heaps`), the red-black tree with its user, the CFS queue (`RbTrees`, `RbLinks`,
   `RbTreeOps`), and the ring buffer under the buffer queues (`RingBuffers`). Block headers, tree links and buffer bytes
   are modelled at their addresses; the specifications are a set of disjoint blocks, a sorted sequence and a FIFO. Which
   block the heap hands out, and how blocks are cut and joined, is stated exactly (`Heaps.Given`, `Heaps.Freed`).
3. The log-structured key-value store in flash (`KvNodes`, `KvMaps`, `KvStores`), from the bytes of a node to a map,
   with a log of the flash after every single write or erase: two entries that follow each other differ by one node
   written to erased flash, one erase word, or one erased block (`KvStores.Chain`), and the last one is what is there.
   What each call does to the nodes, and what it answers, is stated exactly (`KvMaps.SetDone`, `KvMaps.RmDone`,
   `KvMaps.BootDone`). `KvCrashes.CrashAnywhere` cuts any run of the store at any of these points and boots from the
   bytes that are left.
4. The inter-core link: the fragment and reassembly loops (`IpcPackets`), and a state machine whose steps are the atomic
   actions of senders, dispatcher and service tasks (`Ipc`), for every interleaving.

Where the code does not do what one would expect, the model follows the code and states exactly when:

- A relative timeout fires on time if and only if it is at most half of the tick range
  (`TickLists.FiresOnTimeIffWithinHalfRange`).
- A mutex handed over by a deleted task keeps the nesting depth of the dead owner (`KernelRuns.UnlockAfterDeletion`);
  `KernelScenarios.DepthInherited` is a run to an heir that cannot release its mutex with one unlock.
- The links of a deleted task stay behind and change as others lock and unlock. Deleting the task again keeps ownership
  consistent if and only if no mutex they lead to is in use (`Kernel.Kernel.TaskDel`); `KernelScenarios.DeletedTwice` is a
  run in which it is not.
- Inherited priorities are unique if and only if every deadlocked task has priority 0 or such a task behind it
  (`PriorityInheritance.UniqueIffDeadlocksTopped`). In a deadlock they can stay more urgent than any task involved
  (`KernelScenarios.StaleUrgency`).
- The room a message needs in a ring buffer is computed in 32 bits, so the longest messages are taken for very short ones
  (`RingBuffers.RefusedIffNoRoom`).
- A crash in a garbage collection can leave the key-value store without a spare block. The next start repairs the map all
  the same, and pairs are stored as long as a block has room. After that the source would look for a victim with its
  block number -1, in front of its first block; the model stops there and answers -2 (`KvScenarios.SpareLost`).
- A memory region shorter than its own alignment gap wraps to a very long one (`Heaps.FitInside`).
- The rounding of a heap request wraps near 2^32 (`Heaps.RoundUpCovers`). The comment about levels in the heap code is off
  by one against its computation; the model computes what the code does (`HeapLists.LevelMeaning`).
- A key that contains `=` and a line break is taken for a read-only text when the block is read again
  (`KvNodes.Search`, `KvNodes.TextKey`).

## Model

| member | source | states |
|---|---|---|
| PriorityInheritance.PropagationCases | components/rhino/k_task.c:613-641 | One round of the priority walk: after the task out of place is set right, either every task satisfies the inheritance equation, or only the owner it waits for may not, and the three tests of the source tell these cases apart. |
| PriorityInheritance.FollowerLoses | components/rhino/k_task.c:626-635 | When a waiter gets less urgent, an owner that ran at its old priority can only get less urgent too. |
| PriorityInheritance.OwnerAsUrgentAsWaiters | components/rhino/k_mutex.c:191-281 | At the fixpoint an owner is at least as urgent as every task that waits for it through any chain of mutexes. |
| PriorityInheritance.FixIsTransitiveMinimum | components/rhino/k_mutex.c:191-281 | Away from deadlocks the local equation means: the priority is the least base priority of the task and of all tasks that wait for it, directly or not, and one of them has it. |
| PriorityInheritance.FixUnique | components/rhino/k_mutex.c:191-281 | Without deadlock there is exactly one assignment of priorities that satisfies the equation. |
| PriorityInheritance.DeadlockNotUnique | components/rhino/k_task.c:564-654 | With a deadlock cycle, from any solution of the equation there is one in which the cycle has priority 0, so the condition of `FixUnique` cannot be dropped unless 0 is forced anyway. |
| PriorityInheritance.UniqueIffDeadlocksTopped | components/rhino/k_task.c:564-654 | The equation has exactly one solution if and only if every deadlocked task has base priority 0 or a task of base priority 0 waits for it, directly or through others. |
| RunQueues.RunQueue.AddTail | components/rhino/k_sched.c:245-269 | The ring of that priority gets the task behind its last one; bitmap and highest priority stay right. |
| RunQueues.RunQueue.AddHead | components/rhino/k_sched.c:271-280 | The same at the head. |
| RunQueues.RunQueue.Rm | components/rhino/k_sched.c:385-431 | The task leaves its ring; bit and highest priority follow when the ring becomes empty. |
| RunQueues.RunQueue.HeadToTail | components/rhino/k_sched.c:433-436 | A cyclic shift of the ring. |
| RunQueues.RunQueue.Preferred | components/rhino/k_sched.c:481-486 | The head of the ring that the bitmap finds is a ready task of least priority number among all ready tasks. |
| Lists.RotationVisitsAll | components/rhino/k_sched.c:433-436 | n shifts bring item n to the front, and a full round restores the ring, so round robin serves each of n tasks once. |
| WaitLists.PendListAdd | components/rhino/k_pend.c:7-20 | The scan inserts behind all tasks that are at least as urgent. |
| WaitLists.EnqueueSorted | components/rhino/k_pend.c:7-20 | What it inserts into stays sorted, and the place is exactly behind the tasks of the same or a more urgent priority (FIFO among equals). |
| TickLists.TickListPriInsert | components/rhino/k_tick.c:12-33 | The scan over wrapped remaining times inserts in the order of the true due times, for waits of any length the counter can hold. |
| TickLists.FiresOnTimeIffWithinHalfRange | components/rhino/k_tick.c:67-71 | With a wrapping counter the expiry test first succeeds on the t-th tick if and only if t is at most half the counter range. |
| TickLists.SleepForeverEndsAtOnce | components/rhino/k_task.c:339-377 | A sleep of the "wait forever" length is over at the next tick. |
| KernelState.LookAndUnlink | components/rhino/k_mutex.c:222-263 | One pass over the mutex list takes off the released mutex and returns the least of the base priority and the first waiters of the mutexes that remain. |
| KernelState.MutexPriLimit | components/rhino/k_mutex.c:191-220 | The least of the wanted priority and the first waiters of all mutexes held, although the source carries the priority of one mutex over to the next. |
| Kernel.Kernel.Reorder | components/rhino/k_pend.c:101-108 | The task is taken out of its wait list and inserted again by its new priority; the list stays sorted. |
| Kernel.Kernel.SetPrio | components/rhino/k_task.c:571-612 | One task moves: to the head of its new ring if it is running, to the tail if it is ready, to its place among the waiters if it is pending; nothing else changes. |
| Kernel.Kernel.TaskPriChange | components/rhino/k_task.c:564-654 | The walk ends on every wait-for graph, cycles included, at the inheritance fixpoint; it only raises tasks to the new priority or only lowers tasks from the old one; ready rings and wait lists follow. Exactly one task after the other moves, each once, along the owners: the running task to the head of its new ring, ready ones to the tail, pending ones to their place in the wait list. |
| Kernel.Kernel.MutexTaskPriReset | components/rhino/k_mutex.c:265-281 | After a waiter has left, the owner it waited for and everyone behind that owner are back at the fixpoint. |
| Kernel.Kernel.PendToBlkObj | components/rhino/k_pend.c:50-71 | The task leaves the ready queue for the wait list and, with a timeout of any length, for the tick list, due at now + ticks; exactly the one wait-for edge is new, and other due times stay. Rings, wait lists and tick list are exact: the task stands behind those of the same urgency. |
| Kernel.Kernel.Unpend | components/rhino/k_pend.c:22-48 | The task leaves wait list and tick list, and becomes ready, or suspended if it was pending-suspended. |
| Kernel.Kernel.MutexLock | components/rhino/k_mutex.c:283-378 | Each result exactly when it is due (free, nested, overflow, no wait, scheduler locked, blocked); a free mutex becomes the first on the list of the running task, and links to the one before; a blocking lock lends the priority along the whole chain; refused calls change nothing; the kernel invariant holds. What a lock does to rings, wait lists, tick list, owners and links is exact. |
| Kernel.Kernel.MutexUnlock | components/rhino/k_mutex.c:380-451 | Each result exactly when it is due; the first waiter becomes the owner at depth 1, goes on and is told that its wait is over, or the mutex becomes free and keeps its link; nobody else is told anything. The running task and those it waits for lose exactly the priority they had inherited through the mutex. Rings, lists and links are exact, and the kernel invariant, with the fixpoint, holds. |
| Kernel.Kernel.MutexDel | components/rhino/k_mutex.c:62-109 | Anyone may delete: all waiters are released with the delete reason, the owner loses what it had inherited through this mutex only, and the fixpoint holds. They go on in the order of the wait list. |
| Kernel.Kernel.TaskSleep | components/rhino/k_task.c:339-377 | Errors exactly when due; a sleeping task has the due time now + ticks and has left the ready queue. |
| Kernel.Kernel.TaskYield | components/rhino/k_task.c:379-389 | The ring of the running task is shifted by one and the head runs. |
| Kernel.Kernel.Suspend | components/rhino/k_task.c:403-462 | The state gains a suspension in each of the three states that can, the count goes up, and a refused call (deleted, count full) changes nothing. |
| Kernel.Kernel.TaskSuspend | components/rhino/k_task.c:464-475 | Each of the four errors exactly when it is due, in the order of the source; otherwise state and count of the switch; priorities stay at the fixpoint though a suspended task keeps its mutexes. |
| Kernel.Kernel.TaskResume | components/rhino/k_task.c:477-532 | Errors exactly when due; every resume takes one off the count, and the last one takes the suspension off the state. |
| Kernel.Kernel.TaskChangePriority | components/rhino/k_task.c:656-704 | The base priority changes, the effective one follows to the fixpoint over the whole chain; errors exactly when due. |
| Kernel.Kernel.TaskWaitAbort | components/rhino/k_task.c:706-761 | Whatever it waited for, the task is ready with the abort reason, and owners it had lent its priority to are back at the fixpoint; nobody moves if all would run at the same priority without it. It goes to the end of its ring. |
| Kernel.Kernel.TaskMutexFree | components/rhino/k_task.c:763-793 | Following the links, every mutex of a dying task goes to its first waiter, which goes on and is told so, or becomes free; only these waiters wake up, in the order of the list, and only their links change. |
| Kernel.Kernel.TaskDel | components/rhino/k_task.c:795-892 | Deletion in any state, also of a task that was deleted before: errors exactly when due; each mutex goes to its first waiter, which goes on, or becomes free; lists are left, chains behind the task return to the fixpoint. The invariant holds afterwards unless the task was dead and its links lead to a mutex in use; then no assignment of mutex lists agrees with owners and links. |
| Kernel.Kernel.FreeStale | components/rhino/k_task.c:763-793 | The walk along the links of a dead task ends, whatever others have done with the mutexes since. It changes nothing that counts if none of them is owned or waited for; otherwise some live task is left with a link to a mutex it does not own, whatever the rest of the walk does. |
| Kernel.Kernel.IsHarmless | components/rhino/k_task.c:763-793 | Whether a second deletion would do harm, decided by following the links. |
| MutexLinks.StaleChain | components/rhino/k_mutex.c:222-263 | The links from any mutex come to an end, although unlocking never resets them: a mutex that is free links to one that was freed later or is owned. |
| MutexLinks.UnlinkFrom | components/rhino/k_mutex.c:222-263 | Taking one mutex out of the linked list leaves exactly the others, in order, and the link of the mutex itself. |
| KernelScenarios.DeletedTwice | components/rhino/k_task.c:763-793 | A run from the started system: a task that owns a mutex is deleted, another one locks two mutexes and unlocks one, the first task is deleted again, and owners, lists and links agree no more. |
| KernelScenarios.StaleUrgency | components/rhino/k_task.c:564-654 | A run from the started system: two tasks of base priorities 7 and 5 wait for each other, a third one lends them priority 3 and gives up, and both stay at 3, which no task that waits for them has. |
| Kernel.Kernel.TaskCreate | components/rhino/k_task.c:47-195 | Priority limits exactly as checked; a new task is ready or suspended at its priority and owns nothing; the invariant holds. Time slice and total are the ones asked for, or the default. |
| Kernel.Kernel.ExpireAll | components/rhino/k_tick.c:60-108 | The loop over the head of the list releases exactly the tasks whose due time has come, and those whose wait is longer than half the range once no shorter wait is under way, with the timeout reason for pending ones; priorities return to the fixpoint after each timeout. |
| Kernel.Kernel.TimeSliceUpdate | components/rhino/k_sched.c:490-545 | A task that shares its ring loses a tick of its slice; when it is used up the ring is shifted and the slice restored; otherwise nothing changes. |
| Kernel.Kernel.Tick | components/rhino/k_time.c:7-18 | A tick of any counter value: waits that are over end, one after the other from the head of the tick list, and then the slice of the running task is used up by one, with a turn of its ring after the last tick of the slice. Nothing else changes, and nobody else is told anything. |
| Kernel.Kernel.SchedDisable | components/rhino/k_sched.c:33-55 | Counts up, refuses at the limit. |
| Kernel.Kernel.SchedEnable | components/rhino/k_sched.c:57-84 | Counts down, refuses at zero, and schedules when the count reaches zero. |
| Semaphores.SemGive | components/rhino/k_sem.c:160-235 | With waiters the first one (or all) wakes up and the count stays; without, the count goes up by one; overflow exactly at the limit. Who wakes goes to the end of its ring; all lists are exact. |
| Semaphores.SemTake | components/rhino/k_sem.c:237-290 | Succeeds exactly when the count is positive and then takes one; otherwise refuses or blocks as asked. A blocked task stands behind those of the same urgency. |
| Semaphores.SemCountSet | components/rhino/k_sem.c:292-330 | Refused exactly while a task waits; otherwise sets the count and lifts the peak. |
| Semaphores.SemDel | components/rhino/k_sem.c:51-88 | All waiters are released with the delete reason. |
| Events.EventGet | components/rhino/k_event.c:160-247 | Succeeds exactly when the AND or OR condition is met by the flags, returns them and clears the wanted ones if asked; otherwise refuses or blocks. A blocked task has recorded exactly what it asked for, and stands behind those of the same urgency. |
| Events.EventSet | components/rhino/k_event.c:249-323 | Setting flags wakes exactly the waiters whose condition the new flags meet; AND-masking wakes nobody; no waiter is left whose condition the remaining flags meet. They go on in the order of the wait list, and learn the flags. |
| Events.WakeMatching | components/rhino/k_event.c:283-318 | The pass over the wait list: who wakes, what each is told, and which flags are left. |
| Events.LeftOverBits | components/rhino/k_event.c:283-318 | A flag survives the pass if and only if no woken waiter that asked for clearing had asked for it. |
| Events.EventDel | components/rhino/k_event.c:47-87 | All waiters are released with the delete reason. |
| BufQueues.Send | components/rhino/k_buf_queue.c:209-281 | A waiting reader gets the message directly, otherwise it is stored; each refusal exactly when it is due, and then nothing changes. The result without a reader is the one of the ring. All lists are exact. |
| BufQueues.Recv | components/rhino/k_buf_queue.c:291-361 | Returns the oldest message exactly when there is one, otherwise refuses or blocks. A blocked task stands behind those of the same urgency. |
| BufQueues.Ring.Post | components/rhino/k_buf_queue.c:233-268 | On the ring buffer itself: the result that `Send` promises for a queue of messages, and `cur_num` is the number of messages in the ring. |
| BufQueues.Ring.Fetch | components/rhino/k_buf_queue.c:316-327 | The oldest message of the ring, exactly when there is one, with `cur_num` following. |
| BufQueues.BufQueueDel | components/rhino/k_buf_queue.c:71-110 | All waiters are released with the delete reason. |
| RingBuffers.RingBuffer.Push | components/rhino/k_ringbuf.c:23-101 | For every position of head and tail, with the length or the data split at the end of the buffer: the message is appended to a FIFO of byte strings, or refused exactly when the 32-bit sum of prefix and length exceeds the room; it overruns the buffer exactly when that sum wraps and fits. |
| RingBuffers.RefusedIffNoRoom | components/rhino/k_ringbuf.c:49-52 | The test refuses exactly the messages that do not fit if and only if the length is at most 2^32 - 5 or the wrapped sum is refused too; above that the sum is at most 2. |
| RingBuffers.RingBuffer.Pop | components/rhino/k_ringbuf.c:103-169 | Returns the oldest message byte for byte. |
| RingBuffers.RingBuffer.IsEmpty | components/rhino/k_ringbuf.c:185-192 | Exactly when the FIFO is empty. |
| RingBuffers.RingBuffer.IsFull | components/rhino/k_ringbuf.c:171-183 | Exactly when no message of any length fits. |
| RingBuffers.RingBuffer.Reset | components/rhino/k_ringbuf.c:194-201 | The FIFO is empty. |
| RingBuffers.FlatAppend | components/rhino/k_ringbuf.c:23-101 | The bytes in use are the concatenation of length prefixes and messages, and their number the sum over the messages. |
| KernelRuns.Run | components/rhino/k_task.c:564-654 | Every sequence of API calls and ticks from the started system, second deletions that do no harm included: each call that is allowed makes the transition of `KernelEffects.Effect`, which fixes rings, wait lists, tick list, priorities, owners, objects, reasons and slices; other calls change nothing. All states in between satisfy the invariant (lists agree with states, wait lists sorted, tick list sorted by true due times, no lost wakeup, ownership, fixpoint) and run the head of the most urgent ring. |
| KernelRuns.Step | components/rhino/k_tick.c:60-108 | Every single call makes its transition, and keeps the invariant and the due time of every task on the tick list; only ticks move time. |
| KernelRuns.Watch | components/rhino/k_tick.c:60-108 | Over any run of calls a task on the tick list stays there with the same due time until a call takes it off before that time, or a tick takes it off at that time exactly; only a wait of more than half the counter range can end early. |
| KernelRuns.WaitAndWatch | components/rhino/k_tick.c:12-108 | A call to sleep, or for a mutex, semaphore, event or message, followed by any run. It blocks exactly when there is nothing to be had. With a timeout of n ticks the caller is then on the tick list, due n ticks later, and stays there until a call takes it off before the n-th tick of the run or the n-th tick does; only waits of more than half the counter range can end early by a tick. |
| KernelRuns.WaitThenSet | components/rhino/k_event.c:160-323 | A task waits for flags and others are set: it goes on, and learns the flags, if and only if its condition is met then; otherwise it still waits. |
| KernelTurns.TakeTurns | components/rhino/k_sched.c:490-545 | Over any number of ticks at which no wait ends, tasks of the same priority with slices of s ticks run in turn, s ticks each, the first one for what is left of its slice. |
| KernelTurns.QuietTick | components/rhino/k_time.c:7-18 | A tick at which nobody is due does nothing but update the slice of the running task. |
| KernelRuns.RunsTheMostUrgent | components/rhino/k_sched.c:167-231 | Unless scheduling is locked, no ready task is more urgent than the running one. |
| KernelRuns.NoInversion | components/rhino/k_mutex.c:283-378 | While the task at the end of a chain of owners is ready, no less urgent task runs: the running task is at least as urgent as everyone who waits in the chain. |
| KernelRuns.RunsAtInheritedPriority | components/rhino/k_mutex.c:222-263 | In every reachable state a task not behind a deadlock has the least base priority of all tasks that wait for it, transitively. |
| KernelRuns.InOrder | components/rhino/k_buf_queue.c:209-361 | Over whole runs the messages received from a queue are a prefix of those sent, the rest is stored, and a reader waits only when all were received. |
| KernelRuns.UnlockAfterDeletion | components/rhino/k_task.c:764-793 | The first waiter for a mutex of a deleted task inherits the nesting depth. If it runs next, its first unlock releases the mutex if and only if the dead owner had locked it once; whoever else runs is refused. |
| KernelScenarios.DepthInherited | components/rhino/k_task.c:763-793 | A run from the started system: the owner of a mutex locks it twice, another task waits for it, the owner is deleted; the heir runs, and its unlock does not release the mutex. |
| HeapBlocks.Tiling | components/rhino/k_mm.c:66-113 | Every address of a region lies in exactly one block. |
| HeapBlocks.JoinKeeps | components/rhino/k_mm.c:572-604 | Joining a block with its neighbour keeps tiling, flags, back links and sizes. |
| HeapBlocks.CarveKeeps | components/rhino/k_mm.c:484-504 | So does splitting one. |
| HeapLists.LevelMeaning | components/rhino/k_mm.c:116-136 | The level of a size is its power of two, clamped below and refused above. |
| HeapLists.FindUpLevel | components/rhino/k_mm.c:389-401 | The first level above that has a block. |
| HeapLists.Search | components/rhino/k_mm.c:461-478 | The two-step bitmap search finds a block if and only if some free block is large enough. It is the first one large enough in the list of its level, or else the first one of the next list in use. |
| HeapLists.MaxFreeSize | components/rhino/k_mm.c:885-914 | The exact maximum over all free blocks, although only one list is looked at. |
| HeapLists.ListedMore | components/rhino/k_mm.c:338-358 | A block that becomes free is in exactly the list of its level, whose bit is set, and the total of the lists grows by it. |
| HeapLists.ListedLess | components/rhino/k_mm.c:360-387 | The converse, with the bit cleared exactly when the list becomes empty. |
| Heaps.Heap.Alloc | components/rhino/k_mm.c:403-522 | Null exactly for size 0 or when no free block holds the rounded size; otherwise a block that was not in use, of the rounded size, or larger by less than the smallest block that could be cut off; the rest is a free block, and the free total falls by exactly what was handed out. Which block it is, and all headers and lists afterwards, are exact; every other block and its bytes are untouched. |
| Heaps.Heap.Free | components/rhino/k_mm.c:524-612 | Exactly this block leaves the blocks in use, joined with free neighbours on both sides; all other payloads are untouched; the free total grows by it. Headers and lists afterwards are exact. |
| Heaps.Heap.Realloc | components/rhino/k_mm.c:614-760 | The first min(old, new) bytes are kept, in place or at the new address, all other blocks untouched; null exactly when neither the block with its free neighbour nor any free block is large enough, and then nothing changes. The block is never larger than asked for by the smallest block that could be cut off; headers and lists afterwards are exact. |
| Heaps.Heap.Resize | components/rhino/k_mm.c:661-728 | In place: the block takes over a free neighbour, and all that it does not need becomes a free block again if that is large enough to be one, also when it shrinks. |
| Heaps.Heap.AddRegion | components/rhino/k_mm.c:280-335 | Refused exactly when the aligned part of the region is too short, and then nothing changes; otherwise the region becomes one free block between two sentinels and nothing in use changes. |
| Heaps.FitInside | components/rhino/k_mm.c:294-296 | The part of a region that is used is empty or lies inside the region if and only if the region is at least as long as the gap to the next aligned address. |
| Heaps.RoundUpCovers | components/rhino/k_mm.c:435-436 | Rounding covers the request if and only if it is at most 2^32 - 8; above that the 32-bit sum wraps and the smallest block is handed out. |
| Heaps.Session | components/rhino/k_mm.c:403-760 | Every run of alloc, free and realloc: each request gets exactly the block, and leaves exactly the headers and lists, that it should, given those before it; nothing but the blocks it names changes hands, and at no time do blocks in use overlap; tiling, flags, lists, bitmap and counters are kept. |
| KvNodes.Search | components/kv/block.c:246-318 | On a block laid out by appends and erase marks the scan reports exactly the next node, or a read-only text if and only if its key looks like one. |
| KvNodes.ReadAll | components/kv/block.c:408-430 | Repeated search decodes exactly the nodes that were written: keys, values, versions and erase marks. |
| KvNodes.NoLineBreak | components/kv/block.c:283-310 | Keys without a line break never look like a text. |
| KvNodes.TextKey | components/kv/block.c:283-310 | The key "a=" with a line break does. |
| KvNodes.AppendNode | components/kv/block.c:182-237 | Writing a node behind the used part lays out the sequence with the node appended. |
| KvNodes.MarkNode | components/kv/block.c:136-153 | Overwriting the erase word changes this one node and nothing else. |
| KvMaps.VersionOrder | components/kv/block.c:326-351 | The comparison of versions orders every version before its successor and never the other way round, across the wrap from 255 to 1. |
| KvMaps.VersionOrderNeedsNeighbours | components/kv/block.c:326-351 | For versions two apart it can be wrong. |
| KvMaps.CopyMet | components/kv/kvset.c:60-102 | When boot meets two copies of a key, the comparison keeps one, and every key is single again with the value the map says. |
| KvMaps.CleanedKeeps | components/kv/block.c:103-134 | Erasing blocks without valid nodes at start-up changes no key. |
| KvStores.Calc | components/kv/block.c:449-518 | The counters rebuilt from flash are those of the nodes in it. |
| KvStores.KvStore.MountAll | components/kv/block.c:103-134 | Mounting erases blocks without valid nodes one by one, keeps all valid nodes, and rebuilds the counters of what is left; each erase is crash-safe. |
| KvStores.ChooseBlocks | components/kv/kvset.c:113-152 | The spare block is the last one of those with the least used, or none exactly when no block has room left; the current block is the first one behind block 0 that was not the best choice so far. |
| KvStores.KvStore.Find | components/kv/kvset.c:180-213 | Finds a valid node of the key if and only if there is one. |
| KvStores.KvStore.Get | components/kv/kvset.c:365-415 | Returns what the map says, cut to the room given, or -1 exactly for unknown keys. |
| KvStores.KvStore.Rm | components/kv/kvset.c:423-437 | Removes exactly this key: one valid node less, and the block is erased when it was the last one. Each write and erase is in the log, from the flash before the call to that after it. |
| KvStores.KvStore.SelectVictim | components/kv/kvset.c:249-282 | The first of the least used blocks whose valid nodes fit into the gc block, or none exactly if there is none. |
| KvStores.KvStore.Collect | components/kv/kvset.c:215-246 | Every valid node of the victim fits and is moved, the victim is erased, the map is unchanged, and every prefix of the writes is recoverable. |
| KvStores.KvStore.Gc | components/kv/kvset.c:249-282 | As long as the valid nodes of a block fit into the gc block, those of the least used one are moved there and it is erased; exactly these nodes remain, and the last victim is the new, empty gc block. It fails exactly without a victim, the map is unchanged, and every prefix of the writes is recoverable. Each write and erase is in the log, from the flash before the call to that after it. |
| KvStores.KvStore.Set | components/kv/kvset.c:292-355 | Success is map update, failure leaves the map unchanged even if garbage collection ran. Nodes, current block, spare block and answer are exact: nothing happens for bad arguments or if the pair is there; else the node goes to the first block with room from the current one around, before or after garbage collection, with the next version, and the old node is removed; -1 exactly if there is no room then, -2 exactly if there is no room and no spare block. After every single flash write or erase the flash is recoverable to the old or the new map. Each write and erase is in the log, from the flash before the call to that after it. |
| KvStores.KvStore.Verify | components/kv/kvset.c:60-102 | From any recoverable flash, with or without a spare block: one valid node per key, holding the map, and nothing changes but that the older one of two nodes is removed; a crash during repair is recoverable again. Each write and erase is in the log, from the flash before the call to that after it. |
| KvStores.KvStore.Boot | components/kv/kvset.c:113-152 | From the raw bytes of any recoverable flash: mount, choose blocks and repair give a valid store with that map, and exactly the nodes that were there, without blocks that hold nothing valid and without the older one of two copies; there is a spare block if and only if some block has room left. Each write and erase is in the log, from the flash before the call to that after it. |
| KvCrashes.CrashAnywhere | components/kv/kvset.c:113-437 | Any run of set and remove from any recoverable flash, cut after any single write or erase, then boot from the bytes that are there. Every operation of the run does to nodes and map exactly what its answer says. What operations before the one under way at the cut have done is there after the boot, and of that operation all or nothing; all of it if the cut comes behind its last write. The log leaves out no write or erase: each entry follows from the one before by a single one. |
| KvScenarios.CrashWithoutSpare | components/kv/kvset.c:215-246 | Two blocks of 512 bytes and one pair that fills a block: a crash between the copy and the erase of a garbage collection is recoverable and leaves no block with room. |
| KvScenarios.SpareLost | components/kv/kvset.c:249-355 | A run from two empty blocks through this crash: the next start finds no spare block, one more pair is stored, and for the next one there is neither room nor a block to collect into. |
| RbTrees.RecolourKeeps | components/rhino/k_rbtree.c:35-44 | Recolouring moves the red-red conflict two levels up and keeps black heights and order. |
| RbTrees.RotateInnerKeeps | components/rhino/k_rbtree.c:46-67 | The double rotation ends it, in the same order. |
| RbTrees.RotateNearKeeps | components/rhino/k_rbtree.c:140-160 | The double rotation of erasing removes a deficit of one black node, in the same order. |
| RbTrees.DepthIsLogarithmic | components/rhino/k_rbtree.c:20-213 | Two to the power of half the depth is at most the number of nodes plus one. |
| RbTreeOps.RbTree.InsertColor | components/rhino/k_rbtree.c:20-103 | From a red-red conflict anywhere, the pointer rotations and recolourings end in a red-black tree with the same order. |
| RbTreeOps.RbTree.EraseColor | components/rhino/k_rbtree.c:105-213 | From a deficit of one black node at an empty place, they end in a red-black tree with the same order. |
| RbTreeOps.RbTree.NodeInsert | components/rhino/k_cfs.c:13-32 | The node is inserted before all nodes of the same key and behind all of smaller ones, into a red-black tree sorted by key. |
| RbTreeOps.RbTree.Erase | components/rhino/include/k_rbtree.h:90-153 | For a node with no, one or two children, exactly the node leaves the order, and the tree stays red-black and linked. |
| RbTreeOps.RbTree.NodeDel | components/rhino/k_cfs.c:39-42 | The same, with keys still sorted. |
| RbTreeOps.RbTree.First | components/rhino/k_rbtree.c:243-255 | The first node of the order, or null. |
| RbTreeOps.RbTree.Next | components/rhino/k_rbtree.c:271-292 | The node that follows in the order; null for the last one and for a node in no tree. |
| RbTreeOps.RbTree.Preferred | components/rhino/k_cfs.c:58-73 | A node whose key is least of all, or null exactly for the empty tree. |
| RbTreeOps.RbTree.NodeMinGet | components/rhino/k_cfs.c:44-56 | The least key of all. |
| IpcPackets.HeaderRoundTrip | components/ipc/ipc.c:201-206 | What the dispatch header says is read back, whatever follows it. |
| IpcPackets.Shm.Write | components/ipc/ipc.c:159-167 | As much of the data as fits is appended in place. |
| IpcPackets.TransferSend | components/ipc/ipc.c:174-222 | The fragment loop sends header and data cut into blocks, for any message length and any block size of at least a header. |
| IpcPackets.TransferRecv | components/ipc/ipc.c:230-282 | The reassembly loop returns exactly the message and leaves the packets behind it in the queue. |
| Ipc.FillKeeps | components/ipc/ipc.c:206-217 | Filling the next shared-memory block never overwrites one that is still to be read, with four blocks and one message in the mailbox. |
| Ipc.StepKeeps | components/ipc/ipc.c:174-302 | Every step of every task keeps the protocol invariant. |
| Ipc.DeliversInOrder | components/ipc/ipc.c:230-302 | In every run each service delivers a prefix of exactly the messages sent to it, in order. |
| Ipc.HolderIsFed | components/ipc/ipc.c:230-302 | A service that holds `rx_mutex` with an empty queue is the addressee of the oldest packet on the way, so it never waits behind the full queue of another service. |
| Ipc.NoDeadlock | components/ipc/ipc.c:174-302 | As long as anything is undelivered some task can go on. |
| Ipc.EverythingArrives | components/ipc/ipc.c:174-302 | Once nothing new is sent every run ends within a known number of steps, and it can only end when each service has all of its messages. |
| Ipc.AllCanBeSent | components/ipc/ipc.c:174-302 | For every sequence of messages of any length there is a run in which they are sent in this order and each service gets all that is meant for it. |

## Left out

- Heaps.Heap.AddRegion: the aligned part has to be apart from other regions and at most the largest block size, which the source does not check.
- Kernel.Kernel.CreateObject: the storage of a deleted mutex is not used for an object of another kind, which would overwrite the link that dead tasks may still follow.
- Kernel.Kernel.MutexLock: a call that blocks ends, in the model, when the task gives up the processor; what it returns once it is woken up is read from `blkState`. The same holds for the other blocking calls.
- Heaps.Heap.Free: a pointer that is not a block in use is excluded instead of reported through the error hook.
- RingBuffers.RingBuffer.Pop: the caller has tested for an empty buffer, as the buffer queue does; the source reads old bytes otherwise.
- RingBuffers.RingBuffer.Push: when the 32-bit sum wraps and fits, the result says so, and what the copy then does to memory is not modelled.
- BufQueues.Send: for such lengths it reports the overrun, where the source reports success.
- Kernel.Kernel.SchedDisable: time measurement of locked sections is not modelled.
- KvStores.KvStore.Set: keys that look like a read-only text are excluded; the exact set is `KvNodes.LooksLikeText`.
- KvStores.KvStore.Set: without a spare block and without room the source reads in front of its first block; the model answers -2 instead.
- KvStores.KvStore.Boot: at least one block, of 512 to 65535 bytes, as the scan of the first 512 bytes of a block and the 16-bit offsets of the source need, and no read-only text nodes.
- Ipc.DeliversInOrder: the mailbox is taken to be lossless, to hold one message, and to report completion when that message is taken; timeouts are infinite; only one direction is modelled, with synchronous replies being messages of the other one.
- Kernel: more than one core, CFS scheduling inside the kernel, FIFO policy, the state before start-up, the configuration without priority inheritance, cancellation, interrupt nesting checks, null and magic-number checks of parameters.
- Kernel: dynamic creation and deletion variants, which wrap the modelled ones in heap calls; trace hooks, stack statistics, task information words.
- Kernel: intrusive lists are sequences, and the packing of the bitmap into words is a sequence of flags; pointer aliasing in them is not modelled.
- Kernel: invalid option codes of events; the queue flush; message queues of pointers; timers, work queues and the software interrupt queue.
- Ring buffer: the fixed-size message type.
- Heap: the small-block pool in front of it, owner tags, dye checks, peak and allocation counters.
- Red-black tree: last, previous, post-order traversal and node replacement, which mirror the modelled traversals.
- Key-value store: the hash cache, read-only text nodes, reset, torn writes and failed write verification, blocks of less than 512 bytes; each write or erase of the flash is atomic and succeeds.
- Inter-core link: cache maintenance and its flag bit, the probe handshake, low-power mode, and what a service does with a message.
- Drivers, network, audio, file systems, command line and board files: input and output around libraries that are not part of this model.
