# Verification of the CyPhOS kernel core

CyPhOS is an event-driven multi-core operating system.  Application code lives in components (OSCs).  A
trigger names a destination component and the components it depends on; raising an event creates a task
per subscribed trigger.  Each CPU repeats a fixed cycle: it takes a task whose components nobody uses, copies
the components' pages into cache ways of its own, runs the task, copies the pages back, and releases the
components.  This project models that cycle and the parts it rests on, and proves what they guarantee on every
run, for any number of CPUs and any interleaving.

`dafny verify dfyconfig.toml` checks everything.

## How the project is laid out

| files | content |
|---|---|
| `Spinlock`, `Barrier`, `LockOrder` | ticket lock and barrier, instruction by instruction; nested locks and interrupts |
| `Queue`, `ReadyQueue`, `EventPriorityQueue`, `EventHandler`, `StackPool`, `EventTypes` | the containers and tables of the dispatcher, as objects updated in place, against functions on sequences |
| `Dispatch`, `DispatchProofs`, `DispatchTheorems` | the dispatcher as one machine over all CPUs |
| `ReadyScan`, `DispatchScans`, `DispatchRuns` | which task a scan of a ready queue takes while other CPUs lock and unlock tasks |
| `TimerModel`, `TimerRuns`, `GenericTimer` | the software timer's delta queue, in 32-bit arithmetic, against absolute deadlines |
| `TimerObjects` | where the one-shot event objects are, together with the dispatcher |
| `PageTables`, `X86PageTable`, `ARMv7PageTable` | the two hardware tables as representations of one flat page table |
| `GenericMMU`, `CacheColoring`, `GenericCacheManagement` | moving pages, colour placement, the way records |
| `CacheMachine`, `CacheProofs`, `CacheTheorems`, `CacheGuarantees`, `CacheProgress`, `CacheRuns` | preloading, executing and evicting on all CPUs as one machine, page by page; how runs are made |
| `CacheResidency`, `CacheSkipping`, `CacheAdmission` | which pages are in their ways; when the ways suffice |
| `CacheRecency`, `CacheLayout` | the ages of the ways over time; the real layout |
| `CacheRefinement`, `CacheRecords` | the records and moves as steps of the machine; runs on the records as runs of the machine |
| `System` | the dispatcher and the cache machine together |
| `OutputStream` | number printing and the output buffer |
| `Counting`, `Arithmetic` | finite counting and division facts |

Objects that the source updates in place are classes whose methods are proved against functions and relations on
values.  The dispatcher and timer machines are built from the same functions; the cache machine has ways of its own,
and `CacheRefinement` and `CacheRecords` prove that the way records represent them and that every run on the records and
in byte addresses is a run of the machine, so that its guarantees hold for the records.  `Remap` is what mapping a page
means for both hardware tables and for the page moves.  The theorems about whole runs are proved on the machines.  A
region protected by one spinlock is one step.  State components marked `history` exist only in the model.  Where other
CPUs may move between two regions of one method, as between the tries of a scan, the method lets them (`OtherCPUs`).

Places where the code does less than one would expect:

* `ConfinedExactlyWhen`: with two or more pages per colour, pages of a way drift into neighbouring colours
  (unless there is only one colour or one hardware way).  Placement stays injective, but the colour region has to
  be larger than the ways together (`PlacementInRegion`).
* `ResidentUnlessSkipped`: in `preloadSingleOSC` the flag `skipPreload` stays set after the first chunk found recorded.
  That chunk and all later ones of the component are recorded without being moved, and the component executes them from
  their own frames; `RecordedNotMoved` is such a run.  By `ResidentExactlyWhen` only
  `CONFIG_CACHE_CONTROL_EVICT_AFTER_USE`, which is off in `common/config.h`, excludes it.
* `InsertIsExactFromOneTickOn`: a one-shot delay is met exactly if it is at least one tick.
* `DeadlockFreeExactlyWhen`: waiting for locks always ends exactly if every CPU enters the dispatcher with interrupt
  counter 1, or with interrupts off.  The secondary x86 CPUs enter with counter 0 and interrupts on
  (`arch/x86/boot/initOS.cc`, lines 251 to 253); `OwnInterruptLocksUp` is the run in which such a CPU waits for itself.
* `PassedOverExactlyWhen`: only the oldest task of each priority level is tried, and only once, so a task can be passed
  over although its components are free at the end of the scan: behind a blocked oldest task of its level
  (`SecondTaskHidden`), or because what was in its way finished after the try (`FreedBehindScan`).
* `VictimIsLeastRecent`: the age of a way is known up to 255 searches only.
* `LostExactlyWhen`: a one-shot timer event that fires while no task is free is never returned to its pool;
  `LosesObject` is a run that loses one.
* `PeriodicRate`: a periodic event with interval 0 fires every 2^32 ticks.

Assumptions: components are page aligned, do not overlap, and lie outside the colour region and the dummy pages; a
trigger is in one subscriber list, names each component once, and its priority, affinity and dependencies do not
change; events passed to `interruptEventTriggered` have the interrupt type and others have not; the barrier is used
by exactly `mSize` threads; an event to be cancelled is queued; a one-shot timer event has no other subscriber than the
trigger it was set for.

## Model

| member | source | states |
|---|---|---|
| TicketLock.SafeExactlyUpTo32Bits | sync/Spinlock.h:31-49 | On all runs of n threads at most one is inside and threads enter in ticket order, if and only if n is at most 2^32, with both counters wrapping at 32 bits |
| TicketLock.RunKeepsInvariant | sync/Spinlock.h:31-49 | Arrival number i holds ticket i mod 2^32, and only the oldest arrival can be inside, in every reachable state |
| TicketLock.TooManyContenders | sync/Spinlock.h:31-49 | With more than 2^32 contenders there is a run with two threads inside |
| TicketLock.Spinlock.FetchTicket | sync/Spinlock.h:31-36 | One atomic fetch-and-add on the wrapping ticket counter; the other counter is untouched |
| TicketLock.Spinlock.PollOnce | sync/Spinlock.h:37-45 | The caller may enter exactly when the active counter shows its ticket |
| TicketLock.Spinlock.Unlock | sync/Spinlock.h:47-49 | The active counter advances by one modulo 2^32 |
| BarrierProtocol.NoEarlyReturn | sync/barrier.h:23-48 | On every run nobody has returned from more awaits than any other thread has entered |
| BarrierProtocol.ResetWaitsForEveryWaiter | sync/barrier.h:26-33 | The counter is reset only when every waiter has seen it at zero and been uncounted |
| BarrierProtocol.NeverStuck | sync/barrier.h:23-48 | In every reachable state either an instruction inside await can be carried out, or some thread has not yet entered the same await |
| BarrierProtocol.RoundsAreShort | sync/barrier.h:23-48 | Without new entries at most 11 effective instructions per thread are left, so there is no livelock |
| BarrierProtocol.RunKeepsInvariant | sync/barrier.h:23-48 | The counters count exactly the threads that have not arrived and those that wait, and both locks have the holders the code says |
| LockOrder.DeadlockFreeExactlyWhen | arch/x86/core/SystemMode.cc:18-47 | For every choice of interrupt counter and interrupt flag per CPU: on all runs every waiting CPU waits for one that can go on, if and only if every CPU enters with counter 1 or with interrupts off |
| LockOrder.MixedEntryLocksUp | arch/x86/boot/initOS.cc:222-254 | With a primary CPU that enters with counter 1 and any number of secondary ones that enter with 0 and interrupts on, waiting need not end |
| LockOrder.WaitingEnds | eventhandling/EventHandler.cc:418-454 | From every waiting CPU a chain of at most four CPUs leads to one that holds a lock and whose next operation goes through |
| LockOrder.EnabledMeansFree | eventhandling/EventHandler.cc:415-454 | A CPU with interrupts enabled holds no lock, in every reachable state |
| LockOrder.RoundIsDisciplined | eventhandling/MultiQueuePriorityStrategy.cc:45-84 | A whole turn of the dispatch loop, with any calls during execution, takes locks in rising rank, gives them back in reverse and ends with none |
| LockOrder.TriggerBalanced | eventhandling/EventHandler.cc:529-597 | Raising an event takes the subscriber lock, then one pool or queue lock at a time |
| LockOrder.CallBalanced | driver/GenericTimer.cc:155-213 | Every kernel call of component code, the timer tick with its fired events included, respects the lock ranks |
| LockOrder.OwnInterruptLocksUp | arch/x86/boot/initOS.cc:222-254 | Any one CPU that does not enter safely can end up waiting for a queue lock of its own, while all others rest at the entry |
| LockOrder.SelfLockedForever | sync/Spinlock.h:31-45 | A CPU that waits for its own lock with interrupts off does so for ever |
| IntrusiveQueue.Queue.EnqueueBefore | common/Queue.cc:19-38 | Relinks the list so that its elements are the old ones with the new one in front of the given one |
| IntrusiveQueue.Queue.Enqueue | common/Queue.cc:40-86 | Appends the element, or changes nothing when it is already in the list |
| IntrusiveQueue.Queue.EnqueueFast | common/Queue.cc:88-121 | Appends an element that is not in the list, without looking |
| IntrusiveQueue.Queue.DequeueFirst | common/Queue.cc:123-146 | Unlinks and returns the head, or null for an empty list |
| IntrusiveQueue.Queue.Dequeue | common/Queue.cc:148-173 | Unlinks and returns the element at a position, or null beyond the end |
| IntrusiveQueue.Queue.Remove | common/Queue.cc:175-188 | Unlinks the element if it is in the list |
| IntrusiveQueue.Queue.Get | common/Queue.cc:190-204 | Returns the element at a position, or null beyond the end |
| IntrusiveQueue.Queue.RemoveElementFromList | common/Queue.cc:206-228 | Unlinks an element in place: all others keep their order, and the removed one no longer points into the list |
| IntrusiveQueue.Queue.ClearList | common/Queue.cc:230-236 | Empties the list |
| EventQueues.EventPriorityQueue.Enqueue | eventhandling/EventPriorityQueue.cc:14-88 | Links the task in behind all tasks of at least its priority |
| EventQueues.EventPriorityQueue.DequeueHighestPriority | eventhandling/EventPriorityQueue.cc:90-138 | Whatever other CPUs do to the active table before every try: the scan tries the oldest task of one level after the other, each against the table it meets, locks and unlinks the first one that can be locked, and changes nothing of its own when there is none |
| ReadyScan.ChoiceIsBest | eventhandling/EventPriorityQueue.cc:103-135 | With any table met by each try: the task a scan comes to is the oldest of its priority, and in every higher level the oldest task was tried and conflicted with a task then active |
| ReadyScan.ChoiceIsDetermined | eventhandling/EventPriorityQueue.cc:103-135 | For every sequence of tables that the tries meet, the scan has exactly one end |
| ReadyScan.PassesOverExactlyWhen | eventhandling/EventPriorityQueue.cc:109-117 | With any table met by each try: a task that can run now is passed over, or missed when none is found, if and only if its level's oldest task was tried in vain, and it stands behind that one or is that one and what was in its way has left since |
| ReadyScan.QuietScanResult | eventhandling/EventPriorityQueue.cc:103-135 | In the case that no CPU locks or unlocks a task during the scan: it ends at the first level whose oldest task can be locked |
| ReadyScan.QuietPassesOverExactlyWhen | eventhandling/EventPriorityQueue.cc:109-117 | In the same case: a task that can run is passed over if and only if it stands behind a blocked oldest task of its level, before the end of the scan |
| ReadyScan.SecondTaskHidden | eventhandling/EventPriorityQueue.cc:109-117 | Two tasks of one priority, the first in conflict: the second could run and is not found |
| DispatchScans.LockedTaskIsBest | eventhandling/EventHandler.cc:675-729 | On every run of the dispatcher: the task a CPU locks is the oldest of its priority in the queue as it was when the CPU took the queue's lock, can be locked at that step, and the oldest task of every higher level was tried at a step in between, when it conflicted with an active task |
| DispatchScans.NothingFound | eventhandling/EventHandler.cc:675-729 | When a scan finds nothing, the oldest task of every level was tried at a step of the scan and conflicted then |
| DispatchScans.PassedOverExactlyWhen | eventhandling/EventPriorityQueue.cc:109-117 | On every run, at the end of a scan: a task that can run is passed over if and only if its level's oldest task was tried in vain at some step of the scan, and it stands behind that one, or is that one and every task that was in its way was unlocked at a step since |
| DispatchScans.QuietScan | eventhandling/EventPriorityQueue.cc:103-135 | A scan during which no CPU locks or unlocks a task ends at the first level whose oldest task can be locked |
| DispatchScans.OwnQueueFirst | eventhandling/MultiQueuePriorityStrategy.cc:45-110 | On every run a CPU scans the global queue only directly after a scan of its own queue that found nothing; every other scan is of its own queue |
| DispatchRuns.FreedBehindScan | eventhandling/EventHandler.cc:675-747 | A run of two CPUs in which the oldest task of the higher level could run at the step that locks the less urgent one, because its blocker finished after its try |
| EventQueues.EventQueue.DequeueFirstLocked | eventhandling/EventQueue.cc:22-43 | Whatever other CPUs do to the active table before every try: tries the tasks in queue order, each against the table it meets, locks and unlinks the first one that can be locked, and changes nothing of its own when there is none |
| ReadyQueue.InsertKeepsSorted | eventhandling/EventPriorityQueue.cc:44-86 | Insertion keeps the priority order and adds exactly the new task |
| ReadyQueue.RemoveKeepsSorted | eventhandling/EventPriorityQueue.cc:119-126 | Taking any task out keeps the priority order |
| ReadyQueue.InsertIsFifoPerTrigger | eventhandling/EventPriorityQueue.cc:46-49 | Of the activations of one trigger the new one comes last, and those of other triggers keep their order |
| ReadyQueue.LevelHeadIsOldest | eventhandling/EventPriorityQueue.cc:103-117 | The first task of a level is the oldest activation of its trigger in the queue |
| ReadyQueue.TasksOfCounts | eventhandling/EventPriorityQueue.cc:46-49 | The activations of a trigger in a queue are exactly its tasks there, each as often as it is queued |
| ReadyQueue.TasksOfOrder | eventhandling/EventPriorityQueue.cc:46-49 | They are listed in queue order |
| EventHandling.EventHandler.TryTaskLock | eventhandling/EventHandler.cc:662-730 | Succeeds exactly when the task's components are disjoint from those of all active tasks; the nested loops over dependencies decide just that |
| EventHandling.EventHandler.UnlockTask | eventhandling/EventHandler.cc:732-747 | Clears the CPU's slot and no other |
| EventHandling.EventHandler.GetTask | eventhandling/EventHandler.cc:475-489 | Takes the first free task, or none when the pool is empty |
| EventHandling.EventHandler.GetInterruptTask | eventhandling/EventHandler.cc:491-500 | The same for the interrupt pool |
| EventHandling.EventHandler.EventTriggered | eventhandling/EventHandler.cc:529-565 | With n the smaller of the numbers of subscribers and free tasks, the queues gain exactly n tasks: the i-th is pool object i for subscriber i with the event's type and argument; each goes into its trigger's queue, those of one trigger in subscription order behind the earlier ones |
| EventHandling.EventHandler.InterruptEventTriggered | eventhandling/EventHandler.cc:567-597 | The same with interrupt tasks |
| EventHandling.EventHandler.CallOSCTrigger | eventhandling/EventHandler.cc:646-660 | The queues gain exactly one task, for the trigger, with the dummy event and the argument, in the queue the trigger names, or nothing when no task is free |
| EventHandling.EventHandler.ReadyTask | eventhandling/MultiQueuePriorityStrategy.cc:13-33 | With an affinity (one byte) below the number of CPUs only that CPU's queue changes, otherwise only the last one, and there the task is inserted by priority |
| EventHandling.ReadyGains | eventhandling/MultiQueuePriorityStrategy.cc:13-33 | Inserting a task by priority into the queue it belongs in: that trigger's activations in that queue grow by it at the end, all others stay, all queues stay in priority order, and there is one task more |
| EventHandling.GainsMore | eventhandling/EventHandler.cc:543-562 | What successive readying adds: the tasks in the order of readying |
| EventHandling.EventHandler.EventTaskFinished | eventhandling/EventHandler.cc:290-310 | Frees the slot, returns the task object to the pool that its event's type names and to no other, and says that the event goes back to the timer's pool exactly for one-shot timer events |
| Stacks.StackPool.GetFreeStack | eventhandling/StackPool.cc:24-44 | A free stack such that every stack from the last one given out up to it, going round, is used, or none exactly when all are used |
| Stacks.StackPool.SetStackFree | eventhandling/StackPool.cc:46-59 | Frees the given stack only |
| DispatchTheorems.ComponentExclusivity | eventhandling/EventHandler.cc:662-747 | In every reachable state tasks active on different CPUs need disjoint sets of components and belong to different triggers |
| DispatchTheorems.SlotFollowsDispatcher | eventhandling/EventHandler.cc:435-440 | The task a CPU goes on with is the one in its slot, a CPU that looks for work has an empty slot, and the non-locked-task stop is never reached |
| DispatchTheorems.TaskConservation | eventhandling/EventHandler.cc:475-500 | Every task object is in exactly one pool, ready queue, hand or CPU at all times |
| DispatchTheorems.RetiredTaskGoesHomeOnce | eventhandling/EventHandler.cc:600-627 | A retired task is in no pool yet and goes to the pool it came from, interrupt tasks to the interrupt pool only |
| DispatchTheorems.StacksSuffice | eventhandling/MultiQueuePriorityStrategy.cc:112-120 | A free stack exists whenever one is asked for, so the requeue branch is dead, and no two CPUs have the same stack |
| DispatchTheorems.StartOrderPerTrigger | eventhandling/MultiQueuePriorityStrategy.cc:13-33 | What has started of a trigger is at all times an initial piece of what became ready, in the same order, on any number of CPUs |
| DispatchTheorems.NoOvertaking | eventhandling/MultiQueuePriorityStrategy.cc:13-33 | Of two activations of one trigger, if the one that became ready later has started, the earlier one has |
| DispatchTheorems.LockedTaskBelongs | eventhandling/MultiQueuePriorityStrategy.cc:17-27 | On every run a CPU only takes tasks whose affinity, as a byte, is the CPU itself or no CPU of the system |
| DispatchTheorems.WaitingTaskBelongs | eventhandling/MultiQueuePriorityStrategy.cc:17-27 | On every run a waiting task is in the queue of the CPU its affinity names, or in the last queue if there is no such CPU |
| DispatchTheorems.IdleSystemTakesHead | eventhandling/EventPriorityQueue.cc:90-138 | With no task active anywhere, the scan of a non-empty queue takes its head |
| DispatchTheorems.RunIsGood | eventhandling/EventHandler.cc:392-459 | All dispatcher invariants hold in every state of every run |
| TimerModel.InsertIsExactFromOneTickOn | driver/GenericTimer.cc:75-153 | A one-shot is due exactly the requested ticks ahead, behind everything due by then, with all other deadlines unchanged, if and only if at least one tick is requested |
| TimerModel.CancelDecodes | driver/GenericTimer.cc:251-278 | Cancelling removes one deadline and changes no other |
| TimerModel.TickDecodes | driver/GenericTimer.cc:155-185 | A tick fires exactly the events due in one tick, in queue order, and brings all others one tick nearer; no 32-bit operation wraps |
| TimerRuns.StaysHealthy | driver/GenericTimer.cc:89-185 | As long as every delay is at least one tick, no queued event is overdue and no 32-bit sum wraps, after any sets, cancellations and ticks |
| TimerRuns.FiresOnTime | driver/GenericTimer.cc:155-185 | An event due in r ticks fires on the r-th tick and on no earlier one, whatever else is set, cancelled or fires |
| TimerRuns.SetFiresOnTime | driver/GenericTimer.cc:75-153 | A one-shot set for r >= 1 ticks and not cancelled fires on exactly the r-th following tick |
| TimerRuns.EqualDeadlinesKeepOrder | driver/GenericTimer.cc:160-185 | Events with equal deadlines fire on the same tick in queue order |
| TimerRuns.InsertionOrder | driver/GenericTimer.cc:107-143 | An event set later with the same deadline fires after the earlier one, on the same tick |
| TimerRuns.PeriodicRate | driver/GenericTimer.cc:190-208 | In t ticks a periodic event fires floor(t / interval) times |
| TimerObjects.ObjectConservation | driver/GenericTimer.cc:155-310 | On every run of the timer's pool and queue with the dispatcher: every one-shot event object is in exactly one place, the pool, setOneshotEvent, the queue, a task, or lost |
| TimerObjects.LostExactlyWhen | eventhandling/EventHandler.cc:529-557 | An event object is lost if and only if it fired at a step at which no task was free |
| TimerObjects.RestReturns | driver/GenericTimer.cc:302-310 | When nothing is being set, queued or carried, the pool has exactly the objects that never fired in vain |
| TimerObjects.CarrierIsUnfinished | eventhandling/EventHandler.cc:290-310 | The task that carries an event object is an activation for a one-shot event that has not gone back to its pool |
| TimerObjects.LosesObject | driver/GenericTimer.cc:168-180 | A run that loses an event object |
| SoftwareTimer.GenericTimer.constructor | driver/GenericTimer.cc:32-40 | Both pools hold 32 new events each, both queues are empty |
| SoftwareTimer.GenericTimer.SetOneshotEvent | driver/GenericTimer.cc:75-153 | Takes an event from the pool, subscribes the trigger to it and queues it as the queue model says; null and no change when the pool is empty |
| SoftwareTimer.GenericTimer.CancelOneshotTimerEvent | driver/GenericTimer.cc:251-278 | Queue and remaining ticks become those of the queue model's cancellation, and the event goes to the pool without subscribers |
| SoftwareTimer.GenericTimer.ReturnOneshotEventToPool | driver/GenericTimer.cc:302-310 | Appends the event to the pool, without subscribers |
| SoftwareTimer.GenericTimer.SetPeriodicEvent | driver/GenericTimer.cc:42-73 | Takes an event from the pool, subscribes the trigger and appends it with its interval as remaining ticks |
| SoftwareTimer.GenericTimer.HandleTick | driver/GenericTimer.cc:155-216 | Queues and remaining ticks become those of the queue model's tick, and the fired events are exactly the model's, one-shots first |
| SoftwareTimer.PeriodicFiredAt | driver/GenericTimer.cc:190-208 | The periodic events fired by a tick are those of the entries with one tick left, in queue order |
| X86PageTables.X86Pagetable.FillLinear | arch/x86/driver/X86Pagetable.cc:20-58 | The exact word of every entry of all four levels: present ones link to the next level or map a page of the first 4 GB to itself, the others have bit 0 clear; the levels are linked with every entry on the way present |
| X86PageTables.X86Pagetable.FilledIsLinked | arch/x86/driver/X86Pagetable.cc:20-58 | Words like these link all levels, present all the way, and map every page to itself |
| X86PageTables.X86Pagetable.GetPTEEntryFromAddress | arch/x86/driver/X86MMU.cc:66-93 | The walk over four levels ends at the entry number address >> 12 |
| X86PageTables.X86Pagetable.GetPhysicalAddressForVirtual | arch/x86/driver/X86MMU.cc:130-132 | The walk gives the frame of the flat table |
| X86PageTables.X86Pagetable.MapVirtualPageToPhysicalAddress | arch/x86/driver/X86MMU.cc:134-148 | One word changes: bits 12 to 51 become the frame, bits 3 and 4 the negated cacheability, all other bits stay; in the flat table that one page changes, and the walk stays linked and present |
| ARMv7PageTables.ARMv7PageTable.FillLinear | arch/armv7/driver/ARMv7PageTable.cc:17-42 | The exact word of every descriptor: first-level ones refer to their table, second-level ones map a small page to itself, with the right type bits |
| ARMv7PageTables.ARMv7PageTable.GetSecondLevelPageTableEntryFromAddress | arch/armv7/driver/ARMMMU.cc:240-258 | The walk over two levels ends at the descriptor number address >> 12 |
| ARMv7PageTables.ARMv7PageTable.GetPhysicalAddressForVirtual | arch/armv7/driver/ARMMMU.cc:236-238 | The walk gives the frame of the flat table and keeps the offset |
| ARMv7PageTables.ARMv7PageTable.MapVirtualPageToPhysicalAddress | arch/armv7/driver/ARMMMU.cc:260-279 | One descriptor changes: bits 12 to 31 become the frame, bits 2 and 3 the cacheability, all other bits stay; in the flat table that one page changes, and both levels stay linked with their types |
| PagedMemory.GenericMMU.MoveVirtualPageToPhysicalAddress | driver/GenericMMU.cc:21-105 | All mappings and all words of memory after the move, with and without the dummy page |
| PagedMemory.GenericMMU.CopyPage | driver/GenericMMU.cc:57-95 | The word loop copies one frame to another through the page table and touches no other |
| PagedMemory.GenericMMU.MovePage | driver/GenericMMU.cc:21-105 | The procedure is one atomic move: one page's frame and that frame's content change and the page looks the same; the page has the cacheability asked for, and which other page's changes (the one at the target's own address, or the dummy page, back in place and not cacheable) |
| CacheColoring.PlacementClosed | cachemanagement/CacheColoring.cc:52-72 | The running offset of the loop equals its closed form |
| CacheColoring.PlacementInjective | cachemanagement/CacheColoring.cc:52-72 | Different pages of different or equal ways never get the same frame, for any number of pages per colour |
| CacheColoring.InOwnColor | cachemanagement/CacheColoring.cc:65-71 | A page lies in its way's colour exactly when its drift is a multiple of the number of colours |
| CacheColoring.ConfinedExactlyWhen | cachemanagement/CacheColoring.cc:52-72 | All pages of all ways lie in their colours if and only if there is one page per colour, or one colour, or at most one hardware way |
| CacheColoring.ColorsFillCache | cachemanagement/CacheColoring.cc:163-171 | The colours together never exceed the cache, and are all of it exactly when a hardware way is a whole number of page runs |
| CacheColoring.CacheColoring.PrefetchDataToWay | cachemanagement/CacheColoring.cc:25-80 | The loop moves exactly the pages of the range, from the rounded start on, to the frames of the way, in order; all of them are cacheable at the end, and no page but these, the target addresses and the dummy page changes |
| CacheColoring.CacheColoring.EvictCacheWay | cachemanagement/CacheColoring.cc:82-118 | The loop moves exactly the recorded pages back to their own frames; none of them is cacheable at the end, and no other page but the dummy page changes |
| CacheLayout.PlacementInRegion | cachemanagement/CacheColoring.cc:52-72 | All frames of all ways lie in a region of one stride per hardware way |
| CacheLayout.LayoutIsWellFormed | cachemanagement/GenericCacheManagement.cc:303-331 | The real chunks and the real placement meet everything the cache machine assumes |
| CacheLayout.HardwareLayoutIsWellFormed | cachemanagement/CacheColoring.cc:136-171 | The same with the colour count and colour size of any hardware cache whose ways have room for one page run per colour |
| CacheLayout.ComponentIsLive | cachemanagement/GenericCacheManagement.cc:303-331 | Every page of a component is in one of its chunks |
| CacheWays.ChunksSplitPages | cachemanagement/GenericCacheManagement.cc:303-342 | The chunk loop cuts a component's pages into consecutive pieces of a way each, losing and repeating none |
| CacheWays.ChunksFrom | cachemanagement/GenericCacheManagement.cc:303-342 | There are exactly ceil(size / way size) chunks, at multiples of the way size |
| CacheWays.GenericCacheManagement.GetLRUWay | cachemanagement/GenericCacheManagement.cc:130-191 | The first way that records the chunk, otherwise the first empty eligible way, otherwise the least recently used one, otherwise none; which ways get older, and that all others stay as they are |
| CacheWays.GenericCacheManagement.SelectVictim | cachemanagement/GenericCacheManagement.cc:151-175 | The victim, and exactly the ways passed on the way to it one older |
| CacheRecency.VictimIsLeastRecent | cachemanagement/GenericCacheManagement.cc:130-191 | On every run of lookups, records and releases from start-up, with either setting of the option: the way given away is empty, or was released no later than every other way that could be given away, or at least 255 searches ago; with eviction after use it is always empty |
| CacheRecency.RunKeepsOrder | cachemanagement/GenericCacheManagement.cc:150-185 | Without eviction after use: behind an empty way that can be given away all unlocked ways are so, and the count of every other such way is the number of searches since its release, up to 255 |
| CacheRecency.RunKeepsEmpty | cachemanagement/GenericCacheManagement.cc:211-226 | With eviction after use every way that can be given away is empty |
| CacheRecency.NothingBehindEmpty | cachemanagement/GenericCacheManagement.cc:157-162 | On no run does a non-empty way that could be given away stand behind an empty one, so stopping at an empty way hides no age |
| CacheWays.GenericCacheManagement.PreloadChunk | cachemanagement/GenericCacheManagement.cc:303-334 | One lookup followed by writing the record; a hit exactly when some way recorded the chunk before |
| CacheWays.GenericCacheManagement.PreloadSingleOSC | cachemanagement/GenericCacheManagement.cc:281-354 | One lookup and one record per chunk, in order; moved are exactly the chunks before the first one found recorded; every chunk keeps its way, other ways in use or locked are left alone, and it ends early exactly when a chunk is neither recorded nor gets a way |
| CacheWays.GenericCacheManagement.FreeWays | cachemanagement/GenericCacheManagement.cc:211-233 | Exactly the component's ways are freed, and their records cleared only with eviction after use |
| CacheWays.GenericCacheManagement.WaysToEvict | cachemanagement/GenericCacheManagement.cc:201-209 | Exactly the component's ways are evicted, in order |
| CacheGuarantees.MemoryTransparency | driver/GenericMMU.cc:21-105 | After any interleaving of loading, LRU eviction, writing and evicting on all CPUs, a component's page shows what unmoved memory would show after the same writes |
| CacheGuarantees.PagesStayApart | cachemanagement/CacheColoring.cc:52-72 | Two component pages are in different frames at all times |
| CacheGuarantees.ResidentIsRecorded | cachemanagement/GenericCacheManagement.cc:174-185 | A page in a way's frames belongs to the chunk the way records, unless the way is locked or being filled with it |
| CacheGuarantees.WaysAreExclusive | cachemanagement/GenericCacheManagement.cc:130-191 | Loaded chunks of one or more CPUs are recorded in different ways, in use by their CPU, until freed; no chunk is recorded twice |
| CacheGuarantees.VictimIsUnused | cachemanagement/GenericCacheManagement.cc:150-185 | Making room never touches a way that is in use or locked, nor moves a page out of a way in use |
| CacheGuarantees.ExecutionIsUndisturbed | cachemanagement/GenericCacheManagement.cc:130-233 | While a CPU executes, no step of another CPU moves or changes a page of its components |
| CacheGuarantees.ExecutionOwnsItsMemory | cachemanagement/GenericCacheManagement.cc:130-233 | The same along every run |
| CacheTheorems.RunIsGood | cachemanagement/GenericCacheManagement.cc:130-354 | All invariants of the cache machine hold in every state of every run |
| CacheResidency.ResidentUnlessSkipped | cachemanagement/GenericCacheManagement.cc:302-331 | On every run of every configuration: the pages of a chunk of an executing component are in its own way if and only if neither the chunk nor an earlier one of its component was found recorded in this activation |
| CacheResidency.SkippedStaysHome | cachemanagement/GenericCacheManagement.cc:302-331 | A skipped page is in its own frame, unless a locked way had it all along |
| CacheResidency.ExecutesFromItsWays | cachemanagement/GenericCacheManagement.cc:211-226 | With eviction after use every page of an executing component is at its place in a way its CPU uses |
| CacheSkipping.ResidentExactlyWhen | common/config.h:34 | Components execute from cache ways on all runs of all configurations with a given setting of the option, if and only if the setting is on |
| CacheSkipping.RecordedNotMoved | cachemanagement/GenericCacheManagement.cc:302-331 | A run in which a component executes whose first chunk was found recorded and whose second was not found, got a way and was recorded without being moved; both pages are in their own frames |
| CacheAdmission.Admission | cachemanagement/GenericCacheManagement.cc:304-310 | If every set of disjoint tasks that the CPUs can run together needs at most as many chunks as there are non-critical ways, the abort branch is never reached |
| CacheAdmission.NoAbort | cachemanagement/GenericCacheManagement.cc:304-310 | The same for the tasks that actually run together |
| CacheAdmission.AdmissionExactlyWhen | cachemanagement/GenericCacheManagement.cc:304-310 | From every start and for every set of tasks: the abort branch is reached on no run, if and only if every choice of disjoint tasks for the CPUs fits into the non-critical ways |
| CacheAdmission.TooMuchAborts | cachemanagement/GenericCacheManagement.cc:304-310 | Tasks that do not fit together have a run that reaches the abort branch |
| CacheAdmission.FindsAWay | cachemanagement/GenericCacheManagement.cc:150-190 | In such a state a chunk to be loaded is recorded or some way is eligible |
| CacheProgress.NeverBlocked | cachemanagement/GenericCacheManagement.cc:193-354 | Every CPU that has a task always has a next step of its own, and gives up only when all ways are in use or locked |
| CacheProgress.IdleCanBegin | eventhandling/EventHandler.cc:329-352 | An idle CPU can begin any task that shares no component with the others' |
| CacheRefinement.LookupIsStep | cachemanagement/GenericCacheManagement.cc:130-191 | What getLRUWay does to the way records is the machine's hit, miss or abort, and the records go on representing the machine's ways |
| CacheRefinement.RecordIsStep | cachemanagement/GenericCacheManagement.cc:333-336 | Writing a record is the machine's recording step |
| CacheRefinement.FreeIsStep | cachemanagement/GenericCacheManagement.cc:211-233 | What the second loop of lookupAndEvictOSC does to the records is the machine's freeing step |
| CacheRefinement.EvictsOwnWays | cachemanagement/GenericCacheManagement.cc:201-209 | The ways whose pages are moved home are the machine's |
| CacheRefinement.PrefetchTargets | cachemanagement/CacheColoring.cc:52-72 | prefetchDataToWay gives a chunk's pages the frames that the machine gives them |
| CacheRefinement.FillIsNextMove | cachemanagement/CacheColoring.cc:52-72 | Each filling step of the machine is the next move of the loop |
| CacheRefinement.EvictIsHome | cachemanagement/CacheColoring.cc:104-107 | evictCacheWay moves a recorded chunk as the machine's eviction does |
| CacheRecords.StepIsStep | cachemanagement/GenericCacheManagement.cc:130-354 | Every step on the records and in byte addresses, page moves included, is the machine's step of the same name, and the machine's state stays behind the records |
| CacheRecords.RunIsMachineRun | cachemanagement/GenericCacheManagement.cc:130-354 | Every run on the records is a run of the cache machine with the same events, whose states stand behind the records all along |
| CacheRecords.EmptyStart | cachemanagement/GenericCacheManagement.cc:26-37 | Empty unused ways, idle CPUs and every page in its own frame are a start of such runs |
| CacheRecords.RecordsAreTransparent | driver/GenericMMU.cc:21-105 | On every run on the records each page of a component shows what it would show had no page been moved |
| CacheRecords.ExecutingHasItsRows | cachemanagement/GenericCacheManagement.cc:303-336 | On every run on the records each range of an executing component has a row of its own, in use, unlocked, with its addresses, and no other row has them |
| CacheRecords.ExecutingIsLeftAlone | cachemanagement/GenericCacheManagement.cc:130-233 | On every run on the records no other CPU moves or changes a page of an executing component |
| WholeSystem.PreloadIsBegin | eventhandling/EventHandler.cc:329-378 | The dispatcher's locking grants what preloading assumes: the components of a task to be loaded are held by no other CPU |
| WholeSystem.RunIsGood | eventhandling/EventHandler.cc:329-459 | Dispatcher and cache invariants hold together in every state of every run of the whole system, linked CPU by CPU |
| WholeSystem.RunningTaskOwnsItsMemory | eventhandling/EventHandler.cc:329-385 | While a task runs, nothing another CPU does moves or changes a page of its components |
| WholeSystem.RunningTaskHasItsWays | eventhandling/EventHandler.cc:329-385 | A running task has every chunk of its components recorded in a way of its own |
| WholeSystem.Project | eventhandling/EventHandler.cc:329-459 | Without repeated states, the cache part of every run of the system is a run of the cache machine with the same events |
| WholeSystem.SystemMemoryTransparency | driver/GenericMMU.cc:21-105 | On every run of the whole system a component's page shows what unmoved memory would show after the components' writes |
| WholeSystem.SystemAdmission | cachemanagement/GenericCacheManagement.cc:304-310 | If every choice of disjoint triggers for the CPUs fits into the non-critical ways, no CPU of the system stops for lack of a way |
| WholeSystem.RunningTaskExecutesFromItsWays | cachemanagement/GenericCacheManagement.cc:302-331 | A running task's page is in its own way exactly if it was not skipped; with eviction after use it always is |
| Printing.OneNumeral | common/OutputStream.cc:75-101 | What a numeral denotes determines it: there is one way to write a number |
| Printing.DigitsAreUsual | common/OutputStream.cc:92-97 | The digits are 0 to 9 and a to f, in order |
| Printing.HighestPlaceFirst | common/OutputStream.cc:90-99 | A numeral is read with its highest place first |
| Printing.OutputStream.FindDivisor | common/OutputStream.cc:85-88 | The largest power of the base not above the number, found without a product of more than 64 bits |
| Printing.OutputStream.PrintDigits | common/OutputStream.cc:90-99 | The digits put denote the number, without leading zero |
| Printing.OutputStream.PrintUnsigned | common/OutputStream.cc:75-101 | For every 64-bit number: the numeral alone in bases 2 and 10, after "0" in base 8, after "0x" in base 16 |
| Printing.OutputStream.PrintSigned | common/OutputStream.cc:56-64 | The same for the magnitude, the smallest number included, with a minus sign in front exactly for negative numbers |
| Printing.OutputStream.PrintPointer | common/OutputStream.cc:103-111 | Prints in base 16 and restores the base |
| Printing.OutputStream.Putc | common/OutputStream.cc:21-27 | Device output and buffer together are all characters put; the device is brought up to date exactly at a newline or a full buffer |
| Printing.OutputStream.Flush | common/OutputStream.cc:16-19 | Everything put is on the device |
| Printing.OutputStream.PrintString | common/OutputStream.cc:39-44 | Puts the characters in order |

## Left out

- `MultiQueuePriorityStrategy` as an object: its queues are sequences in `EventHandler` and the `ready` rows of the dispatcher machine, and `getEvent` is the machine's steps from BeginScan to TakeStack.  What this does not capture is the linking of its queues' nodes, which the queue classes cover for one queue at a time.
- Task pools and timer queues as linked lists: the classes keep them as sequences.  `Queue` has the linked list itself, and `RetiredTaskGoesHomeOnce` shows that the pools' unchecked insertion is safe; what is not captured is that a pool and a ready queue use the same link fields.
- IntrusiveQueue.Queue.Enqueue: an element points to a payload that does not change, whereas the source's elements are the payload objects.
- SoftwareTimer.GenericTimer.CancelOneshotTimerEvent: requires a queued event, because the source dereferences a null pointer otherwise.
- Component code: it may write any word of its own components' pages at any time while it executes, and raise any trigger; what it computes is open.
- Addresses from 4 GB on: the x86 tables do not map them.
- Profiling, idle measurement, the exception stop and debug output of the dispatcher; time stamps and `pEnqueued` of tasks.
- `subscribeEvent`, `unsubscribeEvent` and periodic cancellation: they appear only as lock operations.
- Which hardware table is behind a page move: `GenericMMU` moves pages over a table of its own with the same `Remap`.
- `preloadCriticalData`: its result is the initial state of the cache machine, in which locked ways may hold chunks.
- TLBs, caches, memory ordering, registers, port and coprocessor access, and boot code.  Remapping takes effect at once.
- The choice among eligible ways in the cache machine: it may take any of them, so its results do not depend on the ageing that `GetLRUWay` states.
- Locks of the console output and of drivers in the lock order.
- Word-by-word copying inside the cache machine: moving a page is one step there.  `GenericMMU.MovePage` is the procedure behind it, and `ExecutionIsUndisturbed` says why no component observes the middle.
- Combining page-table bits with `|`: written as addition, for disjoint fields.
- `Spinlock::take_if_free`, `EventPriorityQueue::dequeueHead`, `X86MMU::virtualToPhysical`, `setRangeCacheable` and `CONFIG_WIPE_OLD_PAGE`: not used by the modelled paths.
- The FIFO strategies, for which `DequeueFirstLocked` stands; the single-queue strategy; drivers, console, CAN, ACPI and application components.
