# A priority semaphore, modelled and proved

The repository implements an asynchronous counting semaphore whose waiters have priorities. A 64-bit word packs the
permit count and a closed flag; a mutex protects a wait queue made of one deque per priority, a max-heap of the
priorities in use and a counter; futures queue themselves there, releases pick waiters and wake them in batches of at
most 32, and guards give their permits back when dropped.

The model has three layers.

1. **The wait queue.** `Selection.dfy` says as functions on values what one selection does, stale heap entries and
   cancelled waiters included. `Waiters.dfy` and `WaitQueue.dfy` are the objects with their real loops, proved to do
   exactly that. `SelectionLaws.dfy` and `SelectionOrder.dfy` hold what every selection keeps; `UniformSelection.dfy`
   and `GreedySelection.dfy` compare it with two independent descriptions: a cut through one sorted list, and a greedy
   descent through the priorities. `DeadWaiters.dfy` and `LiveGreedy.dfy` say exactly when cancelled waiters that are
   still queued separate the two paths, let a lower priority bypass a higher one, or change whom the descent serves.
   `Config.dfy` is the choice of queue strategy.
2. **The operations taken as atomic.** `AtomicSemaphore.dfy` has the release and the other operations as single steps
   and proves work conservation over runs of them; `Semaphore.dfy` and `Permits.dfy` are the semaphore, the future and
   the guard as objects that refine those steps. `Word.dfy` has the compare-exchange loops on the packed word under
   any finite interference.
3. **Every interleaving.** `Protocol.dfy` lets any number of futures, releases, non-blocking attempts, guards and
   closers advance one atomic access at a time. `ProtocolStructure.dfy`, `ProtocolSelection.dfy` and
   `ProtocolAccounting.dfy` prove its invariants, `ProtocolRuns.dfy`, `ProtocolLosses.dfy`, `ProtocolWaking.dfy`,
   `ProtocolWakeups.dfy` and `ProtocolAnswers.dfy` the results about whole runs; `ProtocolAtomic.dfy` and
   `ProtocolHolders.dfy` tie it to the second layer and to the runs of guards.

Several stronger statements that one may expect are false of the code. For each there is the exact condition under
which it fails, and lemmas that exhibit concrete cases:

- A free permit and a waiting future can coexist (`StarvationIsReachable`); `StepStarves` says which two steps bring
  them together, `RunStarvesIff` that in runs nothing else does, and `ReleaseKeepsBusy` when an atomic release does.
- A notified future can stay asleep (`WakeupCanBeLost`), and so can one that is notified or cancelled around a close
  (`CloseMissesPopped`, `CloseMissesUnarmed`). `StepSleeps` says which steps lose a wake-up, and `RunSleepsIff` that in
  every run these are the only cause. `ranked-semaphore/src/semaphore/core.rs:285-286` says that waiters popped by a
  release which then finds the semaphore closed "will be woken" by the close; they are not in its queue any more, and
  it does not wake them.
- The refund of such a release makes free and reserved permits exceed the supply (`CloseMissesPopped`);
  `RunConserves` has the equation with the refunds, and `RunConservesIff` says when there is none.
- With cancelled waiters in the queue the two selection paths can differ (`CancelledHeadSplitsPaths`), exactly when
  one of them blocks (`FastPathAgrees`).
- A lower priority can be served although the head of a higher one fits (`CancelledWaiterIsBypassed`);
  `SelectBypassesIff` says exactly when, and `SelectNeverBypasses` gives a condition on the queue alone.
- A cancelled waiter can stop a release that a live one below could use (`DeadPriorityStopsAll`), or open the way to one
  that would not be served without it (`SmallDeadHeadOpens`); `SelectIsGreedyIff` says exactly when cancelled waiters
  make no difference.
- Permits can be lost on an open semaphore; `StepLosesIff` names the three steps that lose some.
- Releasing in one step or in two agrees exactly when one batch is enough (`ReleaseSplits`).

## Model

| member | source | states |
|---|---|---|
| Selection.Scan | ranked-semaphore/src/wait_queue/queue.rs:125-162 | A scan hands out no more than its budget and collects no more wakers than there are free slots. |
| SelectionLaws.ScanTakesLivePrefix | ranked-semaphore/src/wait_queue/queue.rs:196-231 | Either scanning loop notifies a prefix of the live waiters and leaves the others in order, wherever the cancelled ones are. |
| SelectionLaws.ScanPartitions | ranked-semaphore/src/wait_queue/queue.rs:125-162 | A scan loses nobody and duplicates nobody: notified, purged and remaining waiters are the old queue. |
| SelectionLaws.SelectWithinLimits | ranked-semaphore/src/wait_queue/queue.rs:70-114 | One selection assigns at most the permits released, and its wake list never passes 32, for every queue and every heap. |
| SelectionLaws.SelectKeepsHeap | ranked-semaphore/src/wait_queue/queue.rs:82-113 | Priorities with waiters stay in the heap; a heap that holds each of them once and nothing else stays so. |
| SelectionLaws.SelectPartitions | ranked-semaphore/src/wait_queue/queue.rs:70-257 | The old queue is split into notified, purged and kept waiters, as multisets; only live ones are notified and only cancelled ones purged. |
| SelectionLaws.SelectManyPurges | ranked-semaphore/src/wait_queue/queue.rs:194-240 | A priority in which the general path served somebody has no cancelled waiter left. |
| SelectionLaws.SelectTakesPrefix | ranked-semaphore/src/wait_queue/queue.rs:70-257 | For any demands, cancellations and heap, what a selection notifies of one priority is a prefix of that priority's live waiters, and the rest keep their order. |
| SelectionLaws.SelectDescends | ranked-semaphore/src/wait_queue/queue.rs:70-257 | For any demands, cancellations and heap, stale and duplicate entries included, a selection never serves a higher priority after a lower one. |
| SelectionOrder.SelectKeepsOrder | ranked-semaphore/src/wait_queue/queue.rs:70-257 | Whatever rank sorts a priority's queue strictly still sorts it afterwards. |
| SelectionOrder.SelectFates | ranked-semaphore/src/wait_queue/queue.rs:70-257 | Each queued waiter has exactly one fate, notified once, purged, or kept in its own queue, and nobody else appears. |
| UniformSelection.ScanUniform | ranked-semaphore/src/wait_queue/queue.rs:125-162 | With equal demands a scan serves the first min(live, slots, budget / demand) live waiters, in either order of its tests. |
| UniformSelection.SelectUniform | ranked-semaphore/src/wait_queue/queue.rs:70-257 | With equal demands and stored wakers a selection serves exactly the first min(live, 32, budget / demand) waiters of the list sorted by descending priority and queue order, and the remaining live ones keep their order; on both paths, with cancelled waiters anywhere and stale or duplicate heap entries. |
| GreedySelection.ScanIsLongestFit | ranked-semaphore/src/wait_queue/queue.rs:196-231 | Without cancelled waiters and with positive demands a scan takes the longest prefix that fits budget and wake list. |
| LiveGreedy.SelectIsGreedyIff | ranked-semaphore/src/wait_queue/queue.rs:83-257 | With positive demands and an exact heap, a selection notifies what the greedy descent over the live waiters alone does, which is defined without heap and loops, if and only if it takes the fast path or the cancelled waiters are invisible to its walk: where the first waiter stops the walk no live one would be served, where only a cancelled one lets it enter nobody is reached below, and elsewhere none blocks. |
| LiveGreedy.SelectIsGreedy | ranked-semaphore/src/wait_queue/queue.rs:83-257 | Whatever the budget: when every priority starts with a live waiter and no cancelled one needs more than the first live one behind it, a selection is that descent, each queue loses its notified front, and the heap stays exact; without cancelled waiters it is the descent over the queues as they are. |
| LiveGreedy.DeadPriorityStopsAll | ranked-semaphore/src/wait_queue/queue.rs:184-190 | A cancelled waiter of 5 alone at the higher priority keeps three permits from a live one of 1 below it. |
| LiveGreedy.SmallDeadHeadOpens | ranked-semaphore/src/wait_queue/queue.rs:184-192 | A cancelled waiter of 1 opens a priority whose live one of 5 does not fit three permits, and a live one of 1 below it is served. |
| DeadWaiters.ScansAgreeIff | ranked-semaphore/src/wait_queue/queue.rs:131-140 | The two orders of testing demand and cancellation notify the same waiters of a queue if and only if no cancelled waiter blocks a live one that fits. |
| DeadWaiters.FastPathAgrees | ranked-semaphore/src/wait_queue/queue.rs:83-112 | The single-priority path and the general path notify the same waiters, and then leave the same live ones, if and only if no cancelled waiter in that queue blocks; with nobody cancelled they do the same to everything. |
| DeadWaiters.ScanStopsEarlyIff | ranked-semaphore/src/wait_queue/queue.rs:196-208 | A round of the general path leaves a live waiter that fits, with permits and slots left, if and only if a cancelled waiter blocks. |
| DeadWaiters.ManyReachesIff | ranked-semaphore/src/wait_queue/queue.rs:171-251 | The general path notifies somebody if and only if some priority has a first live waiter that fits and that no cancelled one in front of it hides, and the first waiter of every priority above it fits. |
| DeadWaiters.SelectBypassesIff | ranked-semaphore/src/wait_queue/queue.rs:173-251 | Somebody is notified with permits that the head left in a higher priority could have used if and only if, walking down the priorities, some round is stopped by a cancelled waiter and with the permits left then a lower priority is reached. |
| DeadWaiters.SelectNeverBypasses | ranked-semaphore/src/wait_queue/queue.rs:173-251 | For any budget, when no cancelled waiter needs more than the first live one behind it: at the moment a waiter is notified, the head left in every higher priority needs more than the permits left then. |
| DeadWaiters.CancelledHeadSplitsPaths | ranked-semaphore/src/wait_queue/queue.rs:186-208 | With a cancelled waiter of 5 before a live one of 1 and three permits, the fast path serves the live one and the general path nobody. |
| DeadWaiters.CancelledWaiterIsBypassed | ranked-semaphore/src/wait_queue/queue.rs:201-208 | With a live waiter of 1, a cancelled one of 5 and a live one of 1 above another live one of 1, three permits go to the first and the last. |
| Waiters.Waiter.Cancel | ranked-semaphore/src/wait_queue/waiter.rs:48-75 | Cancelling always ends in the cancelled state, and wakes the stored task unless it was cancelled before. |
| Waiters.Waiter.TryNotify | ranked-semaphore/src/wait_queue/waiter.rs:111-115 | Notification succeeds exactly on a waiting waiter and otherwise changes nothing. |
| Waiters.WakeList.Push | ranked-semaphore/src/wait_queue/waker.rs:105-121 | With a free slot, checked and unchecked push append one task and stay inside the array. |
| Waiters.WakeList.WakeAll | ranked-semaphore/src/wait_queue/waker.rs:123-134 | Wakes the collected tasks in order and leaves the list empty. |
| Waiters.NotifyInto | ranked-semaphore/src/wait_queue/queue.rs:149-161 | Notifying collects the stored waker of a waiting waiter and leaves any other waiter alone. |
| WaitQueues.WaitQueue.constructor | ranked-semaphore/src/wait_queue/queue.rs:50-58 | A new wait queue is empty and open. |
| WaitQueues.WaitQueue.ProcessSinglePriorityFast | ranked-semaphore/src/wait_queue/queue.rs:116-163 | The loop does to queue, waiters, counter and wake list what `Scan` with cancellation tested first says. |
| WaitQueues.WaitQueue.ProcessPriority | ranked-semaphore/src/wait_queue/queue.rs:194-231 | The inner loop does what `Scan` with demand tested first says. |
| WaitQueues.RetainLive | ranked-semaphore/src/wait_queue/queue.rs:233-240 | Exactly the waiters that are not cancelled are retained, in order. |
| WaitQueues.WaitQueue.ServePriorities | ranked-semaphore/src/wait_queue/queue.rs:171-251 | The outer loop ends on every heap, stale and duplicate entries included, and with the put-back priorities it amounts to the general path. |
| WaitQueues.WaitQueue.ProcessMultiplePrioritiesOptimized | ranked-semaphore/src/wait_queue/queue.rs:165-257 | The general path does to queues, heap, counter, waiters and wake list what `SelectMany` says. |
| WaitQueues.WaitQueue.SelectSinglePriority | ranked-semaphore/src/wait_queue/queue.rs:82-104 | The fast path does what `SelectSingle` says, with the queue put back unless it became empty. |
| WaitQueues.WaitQueue.SelectWaitersToNotify | ranked-semaphore/src/wait_queue/queue.rs:70-114 | Queues, heap, permits handed out, wakers in order, and the state of every waiter afterwards are those of `Select`; the counter stays the sum of the queue lengths. |
| WaitQueues.WaitQueue.PushWaiter | ranked-semaphore/src/wait_queue/queue.rs:289-307 | A new waiter goes to the back or front of its own priority as the strategy says; an exact heap stays exact. |
| WaitQueues.WaitQueue.DrainAllWaiters | ranked-semaphore/src/wait_queue/queue.rs:27-33 | Empties the map and returns all queued waiters and no others. |
| WaitQueues.CancelAll | ranked-semaphore/src/wait_queue/queue.rs:267-269 | Cancels every waiter given and wakes the tasks of those that were not cancelled before. |
| WaitQueues.WaitQueue.Close | ranked-semaphore/src/wait_queue/queue.rs:259-270 | Leaves an empty queue, heap and counter, every former member cancelled, and the live ones' tasks woken. |
| WaitQueues.WaitQueue.RemoveWaiter | ranked-semaphore/src/wait_queue/queue.rs:276-287 | Takes out one waiter and keeps all others in order; the heap still covers the non-empty queues. |
| Config.ResolveDeclares | ranked-semaphore/src/config.rs:87-116 | The two passes obey the documented rule: first exact match, else first matching range, else last default, else FIFO. |
| Config.DeclaresOne | ranked-semaphore/src/config.rs:87-116 | The documented rule determines one strategy. |
| Config.AppendExact | ranked-semaphore/src/config.rs:41-45 | A later exact rule changes only its own priority, and only if no exact rule matched it before. |
| Config.AppendRange | ranked-semaphore/src/config.rs:81-85 | A later range changes no priority that an exact rule or a range matched before. |
| Config.AppendDefault | ranked-semaphore/src/config.rs:35-39 | A later default replaces the strategy of exactly the unmatched priorities. |
| Config.PriorityConfig.ResolveStrategy | ranked-semaphore/src/config.rs:93-116 | The two loops return the strategy that the documented rule declares. |
| Config.PriorityConfig.DefaultStrategy | ranked-semaphore/src/config.rs:36-39 | Appends a default rule. |
| Config.PriorityConfig.ExactPriority | ranked-semaphore/src/config.rs:42-45 | Appends an exact rule. |
| Config.PriorityConfig.GreaterOrEqual | ranked-semaphore/src/config.rs:49-53 | Appends a rule that matches exactly the priorities from the threshold up. |
| Config.PriorityConfig.GreaterThan | ranked-semaphore/src/config.rs:57-62 | Appends a rule for the priorities above the threshold; at the largest one the saturated bound still matches it. |
| Config.PriorityConfig.LessOrEqual | ranked-semaphore/src/config.rs:66-70 | Appends a rule that matches exactly the priorities up to the threshold. |
| Config.PriorityConfig.LessThan | ranked-semaphore/src/config.rs:74-79 | Appends a rule for the priorities below the threshold; at the smallest one the saturated bound still matches it. |
| Config.PriorityConfig.RangeOf | ranked-semaphore/src/config.rs:82-85 | Appends a range rule. |
| PermitWord.AtomicWord.TryAcquireRetryLoop | ranked-semaphore/src/semaphore/methods.rs:204-235 | Under any finite interference the weak exchange loop is one indivisible attempt at some instant: it answers closed exactly if the word is closed then, acquires exactly if it is open and has n permits, and keeps the flag and the sum of count and permits taken. |
| PermitWord.AtomicWord.TryAcquire | ranked-semaphore/src/semaphore/methods.rs:172-201 | The strong attempt followed by the loop acquires one permit exactly if at some instant the word is open with one or more, refuses exactly if it is open with none, and loses nothing; on a word that is closed and never reopened it answers closed. |
| PermitWord.AtomicWord.TryAcquireMany | ranked-semaphore/src/semaphore/methods.rs:270-314 | The same for n permits; zero permits succeed at once, even when closed. |
| PermitWord.AtomicWord.PollOnce | ranked-semaphore/src/semaphore/futures.rs:68-100 | The attempt made by polling answers closed exactly if the loaded word is closed, acquires exactly if that word is open with enough permits and the exchange finds it unchanged and does not fail for no reason, and otherwise has no effect. |
| PermitWord.AtomicWord.ForgetPermits | ranked-semaphore/src/semaphore/core.rs:388-410 | At some instant takes at most n permits off the count, fewer only if that leaves none, and keeps the flag. |
| PermitWord.AtomicWord.FetchAdd | ranked-semaphore/src/semaphore/core.rs:307-310 | Returns the previous word and adds to the count. |
| PermitWord.AtomicWord.FetchOrClosed | ranked-semaphore/src/semaphore/core.rs:344-344 | Closes the word with the count of that instant. |
| PermitWord.AttemptMeans | ranked-semaphore/src/semaphore/methods.rs:172-235 | An attempt is closed, short of permits or successful exactly as flag and count say; taken permits and count after add up to the count before. |
| PermitWord.RemovalMeans | ranked-semaphore/src/semaphore/core.rs:393-409 | A removal takes no more than asked for, less only if it takes all, and count after plus what it takes is the count before. |
| PermitWord.LastWriteStands | ranked-semaphore/src/semaphore/methods.rs:204-235 | An access finds the word that the last write of the other threads left. |
| PermitWord.StepsKeepClosed | ranked-semaphore/src/semaphore/core.rs:325-330 | While no other thread clears the flag, a closed word stays closed, and every attempt at any later instant answers closed and changes nothing. |
| PermitWord.OurTurnsNeverReopen | ranked-semaphore/src/semaphore/core.rs:323-344 | Threads that make only the accesses of this code never clear the flag. |
| AtomicSemaphore.ReleaseWakesNotified | ranked-semaphore/src/semaphore/core.rs:273-302 | A release wakes exactly the tasks of those it notified, one each and in order, if and only if the semaphore is open and it granted a permit, or it notified nobody. |
| AtomicSemaphore.RunWakesAll | ranked-semaphore/src/semaphore/core.rs:273-302 | After any run of atomic operations in which futures store their wakers and ask for any positive number of permits, a release on the open semaphore wakes exactly those it notifies. |
| AtomicSemaphore.ReleaseUnits | ranked-semaphore/src/semaphore/core.rs:255-321 | With unit demands a release serves the first min(live, 32, n) waiters of the promised order and adds the rest to the count. |
| AtomicSemaphore.FullBatch | ranked-semaphore/src/semaphore/core.rs:263-303 | With unit demands, a release that finds 32 or more permits and live waiters serves 32 and adds the rest to the count. |
| AtomicSemaphore.ReleaseSplits | ranked-semaphore/src/semaphore/core.rs:239-321 | With unit demands, releasing a + b at once or in two parts gives the same order, queue and count if and only if one batch is enough; a + b up to 32 is such a case. |
| AtomicSemaphore.ReleaseKeepsBusy | ranked-semaphore/src/semaphore/core.rs:263-320 | A release of unit demands leaves no free permit beside a live waiter if and only if it releases at most 32 permits or at most 32 live waiters are queued. |
| AtomicSemaphore.OpKeepsSound | ranked-semaphore/src/semaphore/futures.rs:64-166 | Each atomic operation (polls, drop, attempts, forgetting, release, close) keeps queue, heap and work conservation. |
| AtomicSemaphore.RunStaysBusy | ranked-semaphore/src/semaphore/core.rs:263-320 | In every run of atomic operations with unit demands and releases of at most 32, an open semaphore never has a free permit and a live waiter. |
| AtomicSemaphore.FreshRunStaysBusy | ranked-semaphore/src/semaphore/core.rs:263-320 | The same for every run that starts from a new semaphore with any number of permits. |
| SemaphoreObjects.NewWithConfig | ranked-semaphore/src/semaphore/core.rs:167-176 | A semaphore starts open, with its permits and an empty queue; a count above 2^61 - 1 is refused, and no other. |
| SemaphoreObjects.Semaphore.ServeBatch | ranked-semaphore/src/semaphore/core.rs:263-302 | One pass selects, looks at the flag and wakes; it never asks for a second pass, and on a closed semaphore refunds what it granted. |
| SemaphoreObjects.Semaphore.AddRemainder | ranked-semaphore/src/semaphore/core.rs:305-320 | The leftover is added with wrap-around, and the panic happens exactly when the sum passes the limit. |
| SemaphoreObjects.Semaphore.AddPermitsLocked | ranked-semaphore/src/semaphore/core.rs:255-321 | The loop ends and has the outcome of the atomic release: same queues, heap, count, notified waiters and woken tasks, and the same panics. |
| SemaphoreObjects.Semaphore.AddPermits | ranked-semaphore/src/semaphore/core.rs:239-246 | Has the outcome of the atomic release, zero permits included; on an open semaphore and within the limit it does not panic, and its permits go to the notified waiters and the count without loss. |
| SemaphoreObjects.Semaphore.Close | ranked-semaphore/src/semaphore/core.rs:343-348 | Ends with the flag set, the count kept, the queue and heap empty, and every former waiter cancelled. |
| SemaphoreObjects.Acquire.FirstPoll | ranked-semaphore/src/semaphore/futures.rs:67-149 | A first poll is refused exactly when closed, granted exactly when the permits are there and the exchange does not fail, and otherwise queues the future by its strategy with its waker stored. |
| SemaphoreObjects.Acquire.Repoll | ranked-semaphore/src/semaphore/futures.rs:122-149 | A later poll is granted exactly the demand if the waiter was notified and the semaphore is open, refused if the waiter was cancelled or was notified on a closed semaphore, and pending if it waits; it changes nothing in the queue but the waker of a waiting one. |
| SemaphoreObjects.Acquire.Poll | ranked-semaphore/src/semaphore/futures.rs:64-150 | Polling an object, the first time and later, answers as flag, count and waiter state before the call demand, and does what the atomic poll does. |
| SemaphoreObjects.Acquire.Drop | ranked-semaphore/src/semaphore/futures.rs:153-166 | Dropping refines the atomic drop; the removal from the queue is never reached. |
| Permits.Permit.Split | ranked-semaphore/src/semaphore/permits.rs:166-175 | Splitting moves permits between two guards, or changes nothing when too many are asked for. |
| Permits.Permit.SplitOwned | ranked-semaphore/src/semaphore/permits.rs:318-331 | The same for an amount given as a machine word, which is refused if it does not fit 32 bits. |
| Permits.Permit.Merge | ranked-semaphore/src/semaphore/permits.rs:127-134 | Merging succeeds exactly on guards of one semaphore, empties the other one and adds modulo 2^32. |
| Permits.Permit.Forget | ranked-semaphore/src/semaphore/permits.rs:76-78 | A forgotten guard holds nothing. |
| Permits.Permit.Drop | ranked-semaphore/src/semaphore/permits.rs:178-199 | Dropping a guard releases its permits, and the empty-queue path equals the release but for the overflow check. |
| PermitRuns.StepMoves | ranked-semaphore/src/semaphore/permits.rs:76-199 | Splitting, merging, forgetting and dropping move exactly the named permits: to the new guard, to the other guard, out of circulation, back to the free ones; no other guard changes. |
| PermitRuns.RunForgets | ranked-semaphore/src/semaphore/permits.rs:76-78 | In every run the forgotten permits are what the guards held that were forgotten, and dropping one forgets nothing. |
| PermitRuns.RunLosesWraps | ranked-semaphore/src/semaphore/permits.rs:127-199 | Any run of splits, merges, drops and forgets loses 2^32 permits for each merge that wraps and nothing else, and forgets exactly what the forgotten guards held. |
| PermitRuns.RunConservesIffNoWrap | ranked-semaphore/src/semaphore/permits.rs:127-199 | Free, held and forgotten permits together stay the same if and only if no merge wraps. |
| PermitRuns.SmallNeverWraps | ranked-semaphore/src/semaphore/permits.rs:127-175 | Guards that together fit 32 bits never wrap, however they are split and merged. |
| PermitRuns.AcquiredComeBack | ranked-semaphore/src/semaphore/permits.rs:127-199 | Whatever is done with an acquired guard, once all parts are dropped the acquired permits are free again, less what forgotten guards held; all of them if no guard was forgotten. |
| ProtocolStructure.PushKeepsStructure | ranked-semaphore/src/semaphore/futures.rs:103-120 | A future that pushes itself under the lock keeps queue order, single slots, exact heap and closing discipline. |
| ProtocolStructure.DrainKeepsStructure | ranked-semaphore/src/wait_queue/queue.rs:259-270 | The drain leaves no future waiting. |
| ProtocolSelection.SelectFate | ranked-semaphore/src/semaphore/core.rs:267-281 | In the interleaved semaphore a selection changes exactly the served futures; every other waiting one keeps its slot, and nobody else gets one. |
| ProtocolSelection.SelectKeepsStructure | ranked-semaphore/src/wait_queue/queue.rs:70-257 | A selection, with any drops racing against it, keeps the structure. |
| ProtocolAccounting.NotifyAllReserves | ranked-semaphore/src/wait_queue/queue.rs:142-150 | Notifying reserves exactly the demands of the notified, except those whose drop raced with the selection. |
| ProtocolRuns.StepBalances | ranked-semaphore/src/semaphore/core.rs:255-321 | Every single step of every party balances the books, and on a closed semaphore lets nothing more out. |
| ProtocolRuns.StepKeepsStructure | ranked-semaphore/src/semaphore/futures.rs:64-166 | Every single step of every party keeps the structure. |
| ProtocolRuns.RunIsSound | ranked-semaphore/src/semaphore/core.rs:239-410 | Every state of every interleaving has the structure and balanced books. |
| ProtocolRuns.RunConserves | ranked-semaphore/src/semaphore/core.rs:255-321 | In every state of every interleaving, free + held + reserved + in flight + stranded + forgotten is initial + added + refunded, nothing is refunded while open, and what is outside the word is at most initial + added. |
| ProtocolRuns.RunConservesIff | ranked-semaphore/src/semaphore/core.rs:283-293 | A run conserves initial + added if and only if no release between its selection and its wake-up found the semaphore closed. |
| ProtocolLosses.RunStrands | ranked-semaphore/src/semaphore/core.rs:255-321 | In every run the stranded permits are the sum of what its steps put out of reach, by claims after a close, drops of notified futures, racing drops, wrapping merges and early returns. |
| ProtocolLosses.RunForgets | ranked-semaphore/src/semaphore/core.rs:388-410 | In every run the forgotten permits are the sum of what forgotten guards held and of min(count, n) for each removal of n. |
| ProtocolLosses.StepLosesIff | ranked-semaphore/src/semaphore/futures.rs:153-166 | A step on an open semaphore loses permits if and only if it drops a notified future, selects one whose drop races with it, or merges guards whose sum does not fit 32 bits. |
| ProtocolLosses.OpenRunLosesIff | ranked-semaphore/src/semaphore/futures.rs:153-166 | While open, what is free, held, reserved, in flight or forgotten is all there ever was if and only if no step of the run was one of these three. |
| ProtocolRuns.RunNeverOverflows | ranked-semaphore/src/semaphore/core.rs:305-319 | Before a close, a supply within the limit means that no addition of any release overflows, and that adding to the packed word gives exactly the sum. |
| ProtocolRuns.NothingAcquiredAfterClose | ranked-semaphore/src/semaphore/futures.rs:76-138 | After the flag is set it stays set and the held permits never grow, not even by an exchange prepared before. |
| ProtocolRuns.EmptyAfterClose | ranked-semaphore/src/semaphore/core.rs:343-348 | After some close has returned, the queue is empty in all later states and no future is waiting. |
| ProtocolRuns.RunKeepsQueue | ranked-semaphore/src/wait_queue/queue.rs:60-307 | In every reachable state a future waits if and only if it sits uncancelled in a slot, the slot is unique and of its own priority, no queued future is notified, and the heap is exact. |
| ProtocolRuns.RunKeepsSorted | ranked-semaphore/src/wait_queue/queue.rs:289-307 | In every reachable state FIFO queues ascend and LIFO queues descend in arrival. |
| ProtocolRuns.NobodyOvertaken | ranked-semaphore/src/wait_queue/queue.rs:70-257 | Whatever step of any run turns one future from waiting into notified and leaves another of its priority waiting, the first one comes first in the promised order: by arrival in FIFO, youngest first in LIFO. |
| ProtocolRuns.NotifiedInOrder | ranked-semaphore/src/wait_queue/queue.rs:70-257 | Those notified of one priority are notified in the promised order. |
| ProtocolRuns.HigherComesFirst | ranked-semaphore/src/wait_queue/queue.rs:173-251 | While the demands of all queued futures are equal, no step of any run notifies one future and passes another that waits at a higher priority. |
| ProtocolAtomic.ReleaseIsAtomic | ranked-semaphore/src/semaphore/core.rs:255-321 | In the interleaved semaphore, the steps of a release that nobody interrupts have the effect of the atomic release on word, queue, heap, futures, woken tasks, and lost and refunded permits. |
| ProtocolAtomic.FirstPollIsAtomic | ranked-semaphore/src/semaphore/futures.rs:64-149 | The steps of a first poll that nobody interrupts are the atomic poll, and the permits taken off the word are in a new guard. |
| ProtocolAtomic.FirstPollParks | ranked-semaphore/src/semaphore/futures.rs:64-149 | An uninterrupted first poll returns pending exactly if the semaphore is open and the permits are missing; it changes no other future, wakes nobody and loses nothing. |
| ProtocolAtomic.LaterPollIsAtomic | ranked-semaphore/src/semaphore/futures.rs:122-149 | The same for a later poll; the permits reserved for a notified future are in a new guard unless the semaphore is closed, one that still waits parks again, and what woke the future before no longer counts. |
| ProtocolAtomic.DropIsAtomic | ranked-semaphore/src/semaphore/futures.rs:153-166 | The drop of a future is the atomic one. |
| ProtocolAtomic.CloseIsAtomic | ranked-semaphore/src/semaphore/core.rs:343-348 | Flag and drain one after the other are the atomic close; they cancel exactly the waiting futures, change no other, and wake exactly those of them that have stored a waker. |
| ProtocolAnswers.ExchangeTakesAll | ranked-semaphore/src/semaphore/futures.rs:80-100 | In every run the exchange of a first poll moves the demand from the word to a new guard exactly if the word is open, as loaded, and the exchange does not fail for no reason; otherwise the future goes on to the queue and nothing else changes. |
| ProtocolAnswers.AttemptTakesAll | ranked-semaphore/src/semaphore/methods.rs:204-235 | The same for a non-blocking attempt, which on failure ends if the word is closed or short and else starts over with the word it found. |
| ProtocolAnswers.PollAnswers | ranked-semaphore/src/semaphore/futures.rs:64-150 | Whatever interrupts it, a poll that ends a future either obtained its demand on the open semaphore, off the word or reserved by its notification, or took nothing because of a close or a cancellation. |
| ProtocolAnswers.ClosedEndsPolls | ranked-semaphore/src/semaphore/futures.rs:76-138 | Every look of a poll at the flag that finds it set ends the future empty-handed. |
| ProtocolAnswers.EndedIsServed | ranked-semaphore/src/semaphore/futures.rs:64-150 | In every run, while the semaphore is open, each future that has ended put exactly its demand in a new guard when it ended. |
| ProtocolHolders.AttemptIsAtomic | ranked-semaphore/src/semaphore/methods.rs:270-314 | An uninterrupted non-blocking attempt is the one attempt on the word, the atomic operation, and what it acquires is in a new guard. |
| ProtocolHolders.ForgetIsAtomic | ranked-semaphore/src/semaphore/core.rs:388-410 | Forgetting permits is the one removal from the word and the atomic operation. |
| ProtocolHolders.OperationsOnTheWord | ranked-semaphore/src/semaphore/methods.rs:270-314 | The atomic attempt and removal do to count and flag what they do on the word, and leave the queue alone. |
| ProtocolHolders.GuardsMove | ranked-semaphore/src/semaphore/permits.rs:76-175 | Splitting, merging and forgetting a guard in the interleaved semaphore are the steps of runs of guards and change nothing else. |
| ProtocolHolders.AddIsGive | ranked-semaphore/src/semaphore/core.rs:239-321 | Adding permits without interruption is the atomic release of that number. |
| ProtocolHolders.DropIsGive | ranked-semaphore/src/semaphore/permits.rs:178-199 | Dropping a guard without interruption is the atomic release of what it held; with nobody queued these permits are free again. |
| ProtocolWaking.StepSleeps | ranked-semaphore/src/semaphore/futures.rs:122-149 | After any step a parked future that was notified or cancelled sleeps for good, neither woken nor about to be, if and only if the step lost its wake-up, or it slept before and the step neither polls nor drops it. Three steps lose one: storing the waker too late, the early return of the only release that would wake it, and a selection that grants no permits. |
| ProtocolWaking.RunSleepsIff | ranked-semaphore/src/semaphore/futures.rs:64-166 | In every run, closed or not, a future sleeps for good if and only if some step lost its wake-up and it was neither polled nor dropped since. |
| ProtocolWaking.RunWakesNotified | ranked-semaphore/src/semaphore/core.rs:273-302 | In every run, between the releases, a parked future that was notified or cancelled has been woken since its last poll if and only if no step lost its wake-up. |
| ProtocolWakeups.StepStarves | ranked-semaphore/src/semaphore/futures.rs:118-119 | A step brings a free permit and a waiting future together if and only if it is a push beside free permits or a release adding its leftover while somebody waits. |
| ProtocolWakeups.RunStarvesIff | ranked-semaphore/src/semaphore/core.rs:263-320 | A run comes to a state with a free permit and a waiting future if and only if it took one of these two steps before. |
| ProtocolWakeups.StarvationIsReachable | ranked-semaphore/src/semaphore/core.rs:305-309 | One release of one permit and one future suffice to end with a free permit, a parked future and no release running. |
| ProtocolWakeups.CloseMissesPopped | ranked-semaphore/src/semaphore/core.rs:283-293 | A waiter popped before a close can end up asleep for good, with its permit both free and reserved. |
| ProtocolWakeups.WakeupCanBeLost | ranked-semaphore/src/semaphore/futures.rs:132-149 | A future notified before it stores its waker can end up asleep with its permit reserved. |
| ProtocolWakeups.CloseMissesUnarmed | ranked-semaphore/src/semaphore/futures.rs:127-149 | A future cancelled by a close before it stores its waker can end up asleep. |

## Left out

- Real executors, tasks and waker internals: a waker is the number of a task, and waking is recorded as a fact.
- Weak memory orderings and the unsynchronised waker cell: every access is one step, in one global order.
- The inside of the heap, the hash map and the deques: a multiset with its maximum, a map and sequences.
- Bit operations on the word: shifts and masks are multiplication, division and remainder on integers below 2^64.
- Endless interference: the compare-exchange loops are proved for every finite list of interfering writes and spurious failures, so that they end is relative to that.
- Behaviour after a panic: the overflow panic and the panic on merging guards of different semaphores are results, and nothing is said about what unwinding does.
- Overflow checks of debug builds: the arithmetic wraps, as in release builds.
- Polling a future again after it returned a result, which its contract forbids, is not part of the interleaved model.
- Reentrancy, fairness and liveness beyond the safety statements above.
- Error types, formatting code, the other constructors, the `acquire*` forwards, and the unused `wake_all_unchecked`: easy members only.
- The owned future and the owned guard are modelled once with the borrowed ones, except for the owned split; the retry loops of the owned attempts are those of `TryAcquireRetryLoop`.
- SemaphoreObjects.Acquire.Drop: the removal from the queue after a cancellation is shown unreachable, so `RemoveWaiter` is proved on its own only.
- The interleaved model takes one selection as a single step; drops that hit between its two looks at a waiter's state are the `raced` futures of that step.
