# tiny-itron in Dafny

A model of the two-CPU uITRON kernel tiny-itron, with proofs of what it promises over whole runs. The data-structure code
(linked queues, delta timeout list, rings, block table, stacks, file output) is modelled as methods that change fields and
arrays step by step; each is proved equal to a function on plain sequences, and the promises are proved about those
functions.

| file | models |
|---|---|
| Links.dfy, Timeouts.dfy | intrusive cyclic doubly linked lists as a memory of next/prev fields; the delta-encoded timeout list |
| KernelState.dfy | task, semaphore, mutex and queue state, and the service calls as functions |
| KernelInvariant.dfy, KernelSteps.dfy, KernelMutex.dfy, KernelTick.dfy | the invariant, and that every call, tick and dispatch keeps it |
| KernelRuns.dfy, KernelTheorems.dfy, KernelSemaphores.dfy | runs, exact expiry, ends of waits, conservation |
| KernelGuards.dfy, KernelWitnesses.dfy | for every call exactly when it keeps the invariant, and runs from start-up on which it does not |
| KernelTables.dfy, KernelPriorities.dfy, KernelCounts.dfy | what calls do to the task table; inherited priorities; wake-up and activation requests over runs |
| KernelEffects.dfy, KernelCodes.dfy, KernelOwners.dfy, KernelFrames.dfy, KernelOrder.dfy | what each call does, without reference to its body: who sleeps and wakes, result codes, owners and creation, what stays, queue order |
| KernelHeap.dfy | the pointer code itself: every queue operation and call as assignments to next, prev and table fields |
| BigLock.dfy, SmpKernel.dfy | the Big Kernel Lock on two interleaving CPUs |
| ContextSwitch.dfy | kernel stacks word by word, register save and restore, first frames |
| WaitQueue.dfy, Circular.dfy, Channel.dfy, MessageBuffer.dfy, DataQueue.dfy | rings with direct hand-off |
| Pool.dfy, MemoryPool.dfy | the first-fit pool and tasks waiting for blocks |
| ElfImage.dfy | the converter from ELF to a flat image |

`dafny verify dfyconfig.toml` checks everything.

## How to read the kernel model

A run (`KernelRuns.IsRun`) is any sequence of system calls by the current tasks, timer ticks and dispatches on two CPUs. Its
steps carry the guards below, each of which is a condition on the state before the call. The code checks none of them;
`CallGuardExact` says that each is exact: a call by a ready caller keeps the invariant if and only if its guard holds.
KernelWitnesses.dfy has a run from start-up that violates each. The pointer code of KernelHeap.dfy equals the functions with
or without the guards.

- Callers are RDY or RUN current tasks. Idle tasks never block.
- Object waits start with no queued wake-up request; `wup_tsk` targets are in no object queue.
- Inserted timeouts are at least 1; `cnt <= maxsem < 2^32 - 1` at `cre_sem`.
- A lock wait boosts only a ready owner; a mutex is passed on only to a waiter without a running timeout.
- Tasks and mutexes with the id 16 are never created: the id passes the checks, but has no entry in `proc[]` and is left
  out by `mtx_init`. Other calls treat it as not existing. `wup_tsk` does not check its id at all; it is 0 to 16.
  Priorities are 1 to 16, which `cre_tsk` does not check.
- Start state: all queues initialised, those of mutexes included, although `itron_init` does not call `mtx_init` (see
  `EmptyIff`).
- A system call and the write of its result into the caller's EAX slot are one step of a run, although the source writes the
  slot after releasing the lock; BigLock.dfy and SmpKernel.dfy treat that write, and the reschedule flags, as unlocked.

Other exact results say when the code does what it should: `TickExactIff`, `AdmissionSafeIff`, `RingInsideIff`,
`WrittenFreeIff`, `AllocKeepsIff`, `InitInsideIff`, `LandsIff`; each that can fail has a witness beside it.

## Where code and documentation differ

The model follows the code.

- `mbfatr`, `mtxatr` and `mplatr` are tested with `& TA_TFIFO`, which is 0, so these queues are always in priority order.
- A `dly_tsk` that runs its time ends with E_TMOUT, not E_OK.
- Of two timeouts that expire in the same tick, the one inserted later comes first.
- A data queue of `dtqcnt` words holds `dtqcnt - 1`.
- A task can have 17 wake-up requests queued, one more than TMAX_WUPCNT.
- `maxmsz` of a message buffer is never checked.
- A message buffer can be created so that its ring reaches beyond the given buffer; see `RingInsideIff`.

## Model

| member | source | states |
|---|---|---|
| Links.RingInsert | kernel/sys_sem.c:231-238 | linking a node behind stop i of a ring gives the ring of the sequence with the task inserted at i, in both directions |
| Links.RingRemove | kernel/sys_sem.c:241-249 | joining the neighbours of a node gives the ring of the sequence without that task |
| Links.InsertKeepsRings | kernel/sched.c:41-52 | insertion into one queue leaves all other queues well-formed, disjoint rings |
| Links.RemoveKeepsRings | kernel/sched.c:55-61 | unlinking deletes exactly one node and leaves all other queues as they are |
| Links.QueuedIsNotSelfLinked | kernel/sys_sem.c:241-249 | a queued node never points to itself |
| Timeouts.InsertExact | kernel/sched.c:137-159 | an entry inserted with x >= 1 has exactly x ticks left, and no other entry's absolute expiry moves |
| Timeouts.RemoveExact | kernel/sched.c:162-174 | removal moves no other absolute expiry and the carried delta does not overflow |
| Timeouts.TickExact | kernel/sched.c:198-243 | one tick brings every entry one tick closer, and exactly the entries with one tick left are due |
| Timeouts.TickExactIff | kernel/sched.c:208-215 | the tick is exact if and only if the head delta is not 0; at 0 the unsigned decrement wraps |
| Timeouts.ZeroHeadStays | kernel/sched.c:212-215 | a zero delta at the head wraps, so that entry does not expire |
| Timeouts.InsertOrder | kernel/sched.c:137-159 | a new entry stands behind exactly the entries that expire before it, so that of those that expire with it, it is woken first |
| KernelInvariant.ParkKeepsInv | kernel/sys_tsk.c:296-330 | leaving the ready queue to wait (in an object queue, in the timeout list, or both) keeps the whole invariant |
| KernelInvariant.ReleaseKeepsBase | kernel/sys_sem.c:95-104 | taking a waiting task out of all its queues and appending it to its ready queue keeps the invariant |
| KernelInvariant.RaiseKeepsBase | kernel/sys_mtx.c:122-128 | changing the priority of a ready task with requeueing keeps the invariant |
| KernelInvariant.PriPositionFits | kernel/sys_sem.c:209-228 | the place ins_pri finds keeps a queue sorted by priority, ties in arrival order |
| KernelSteps.ActKeepsInv | kernel/sys_tsk.c:109-128 | act_tsk keeps the invariant: ready queues, links, waits, CPUs, semaphores, mutexes, idle tasks, timeout list |
| KernelSteps.SlpKeepsInv | kernel/sys_tsk.c:297-311 | slp_tsk within its guard keeps the invariant: ready queues, links, waits, CPUs, semaphores, mutexes, idle tasks, timeout list |
| KernelSteps.TslpKeepsInv | kernel/sys_tsk.c:314-330 | tslp_tsk within its guard keeps the invariant: ready queues, links, waits, CPUs, semaphores, mutexes, idle tasks, timeout list |
| KernelSteps.DlyKeepsInv | kernel/sys_tsk.c:525-537 | dly_tsk within its guard keeps the invariant: ready queues, links, waits, CPUs, semaphores, mutexes, idle tasks, timeout list |
| KernelSteps.WupKeepsInv | kernel/sys_tsk.c:333-361 | wup_tsk within its guard keeps the invariant: ready queues, links, waits, CPUs, semaphores, mutexes, idle tasks, timeout list |
| KernelSteps.SigKeepsInv | kernel/sys_sem.c:85-111 | sig_sem keeps the invariant: ready queues, links, waits, CPUs, semaphores, mutexes, idle tasks, timeout list |
| KernelSteps.PolKeepsInv | kernel/sys_sem.c:127-139 | pol_sem keeps the invariant: ready queues, links, waits, CPUs, semaphores, mutexes, idle tasks, timeout list |
| KernelSteps.TwaiKeepsInv | kernel/sys_sem.c:142-169 | twai_sem within its guard keeps the invariant: ready queues, links, waits, CPUs, semaphores, mutexes, idle tasks, timeout list |
| KernelMutex.TlocKeepsInv | kernel/sys_mtx.c:91-135 | tloc_mtx, timed or not, with priority inheritance, within its guard, keeps the invariant: ready queues, links, waits, CPUs, semaphores, mutexes, idle tasks, timeout list |
| KernelMutex.UnlKeepsInv | kernel/sys_mtx.c:138-175 | unl_mtx, with hand-off and return to the base priority, within its guard, keeps the invariant: ready queues, links, waits, CPUs, semaphores, mutexes, idle tasks, timeout list |
| KernelTick.CreTskKeepsInv | kernel/sys_tsk.c:36-75 | cre_tsk keeps the invariant: ready queues, links, waits, CPUs, semaphores, mutexes, idle tasks, timeout list |
| KernelTick.CreSemKeepsInv | kernel/sys_sem.c:24-38 | cre_sem keeps the invariant: ready queues, links, waits, CPUs, semaphores, mutexes, idle tasks, timeout list |
| KernelTick.CreMtxKeepsInv | kernel/sys_mtx.c:21-33 | cre_mtx keeps the invariant: ready queues, links, waits, CPUs, semaphores, mutexes, idle tasks, timeout list |
| KernelTick.DoNextKeepsInv | kernel/sched.c:90-134 | sched_do_next_tsk keeps the invariant: ready queues, links, waits, CPUs, semaphores, mutexes, idle tasks, timeout list |
| KernelMutex.PassOwn | kernel/sys_mtx.c:152-164 | handing a mutex over moves exactly one unit of ownership from the owner to the first waiter |
| KernelTick.TickEffect | kernel/sched.c:198-243 | a tick wakes exactly the tasks with one tick left, with E_TMOUT, out of their object queue; several may expire at once; the invariant is kept |
| KernelTick.ExpireIsRelease | kernel/sched.c:215-238 | one round of the expiry loop releases exactly the head task |
| KernelTick.DispatchOptimal | kernel/sched.c:90-134 | the dispatcher never fails, runs the first affine candidate of the highest priority level, and changes no task of the other CPU and no queue |
| KernelTick.PickIsFirst | kernel/sched.c:109-125 | the scan finds the first runnable task of the most urgent level that has one, or there is none at all |
| KernelRuns.StepKeepsInv | i386/syscall.c:31-61 | every system call with its return value, every tick and every dispatch keeps the invariant |
| KernelRuns.RunKeepsInv | kernel/sched.c:40-134 | every state of every run is good: a task is in exactly the ready queue of its current priority iff it is RDY or RUN, each CPU has at most one RUN task and it is its current one, linked waits imply WAI, semaphore, mutex and timeout invariants |
| KernelRuns.BootInv | i386/proc.c:16-84 | the start-up state satisfies the invariant |
| KernelTheorems.ExecKeeps | kernel/sys_sem.c:85-111 | a call leaves every ready or waiting task but its caller and the task it wakes alone: state, return value, object queues, absolute expiry |
| KernelTheorems.ExactExpiry | kernel/sched.c:136-243 | a task with d ticks left that nobody wakes early waits through d - 1 ticks and is woken with E_TMOUT by exactly the d-th, for every interleaving of other steps |
| KernelSemaphores.OnlySignalWakes | kernel/sys_sem.c:95-104 | only a signal of its own semaphore wakes a task early that waits on a semaphore with a timeout |
| KernelSemaphores.TimedWaitEnds | kernel/sys_sem.c:142-169 | over any run the wait is still on, or it was on without a break up to a step that ended it: a signal before the d-th tick with E_OK, or the d-th tick with E_TMOUT |
| KernelSemaphores.EndsOnce | kernel/sys_sem.c:142-169 | no second step ends the same wait |
| KernelSemaphores.EndedStays | kernel/sched.c:215-238 | after the end the task is in no wait and timeout queue, and no step but its own calls changes its return value: the other event cannot wake it |
| KernelSemaphores.StepConserves | kernel/sys_sem.c:84-169 | one step changes the count by successful signals minus successful acquisitions |
| KernelSemaphores.SemaphoreConservation | kernel/sys_sem.c:84-169 | over every run initial count + signals = count + acquisitions; waiters imply count 0; the count never exceeds maxsem |
| KernelGuards.CallGuardExact | i386/syscall.c:46-55 | for every call by a ready caller: the call keeps the invariant if and only if its guard holds |
| KernelGuards.SlpGuardExact | kernel/sys_tsk.c:297-311 | slp_tsk keeps the invariant iff the caller is no idle task or a wake-up is queued |
| KernelGuards.TslpGuardExact | kernel/sys_tsk.c:314-330 | a timed sleep keeps the invariant iff the timeout is at least 1 and the caller no idle task, or a wake-up is queued |
| KernelGuards.DlyGuardExact | kernel/sys_tsk.c:525-537 | dly_tsk keeps the invariant iff the caller is no idle task or the delay is 0 |
| KernelGuards.WupGuardExact | kernel/sys_tsk.c:353-358 | waking a task keeps the invariant iff it is not waiting in an object queue |
| KernelGuards.CreSemGuardExact | kernel/sys_sem.c:24-38 | cre_sem keeps the invariant iff the initial count is at most maxsem and maxsem is not the largest word |
| KernelGuards.SignalOverflowIff | kernel/sys_sem.c:106-109 | with no waiter, E_QOVR means count == maxsem exactly when the count is not the largest 32-bit value; there the test wraps |
| KernelGuards.TwaiGuardExact | kernel/sys_sem.c:150-164 | a blocking semaphore wait keeps the invariant iff no wake-up request is queued for the caller and it is no idle task |
| KernelGuards.TlocGuardExact | kernel/sys_mtx.c:91-135 | a lock wait keeps the invariant iff no wake-up is queued for the caller, it is no idle task, and an owner it boosts is ready |
| KernelGuards.UnlGuardExact | kernel/sys_mtx.c:152-164 | unlocking keeps the invariant iff the first waiter has no timeout running, which the call does not cancel |
| KernelWitnesses.ZeroTimeoutWitness | kernel/sys_tsk.c:314-330 | from start-up, tslp_tsk(0) breaks the invariant |
| KernelWitnesses.CreSemWitness | kernel/sys_sem.c:24-38 | from start-up, a semaphore created above its maximum breaks the invariant |
| KernelWitnesses.SignalWrapsWitness | kernel/sys_sem.c:106-109 | with the largest maximum a signal at the maximum is accepted and the count becomes 0 |
| KernelWitnesses.WupWitness | kernel/sys_tsk.c:353-358 | cre_sem, twai_sem, then wup_tsk of the waiter breaks the invariant |
| KernelWitnesses.TwaiWitness | kernel/sys_sem.c:150-164 | cre_sem, a wake-up of oneself, then twai_sem breaks the invariant |
| KernelWitnesses.TlocWakeUpWitness | kernel/sys_mtx.c:129-132 | cre_mtx, loc_mtx, a wake-up of oneself by the other task, then its loc_mtx breaks the invariant |
| KernelWitnesses.UnlWitness | kernel/sys_mtx.c:152-164 | cre_mtx, loc_mtx, a timed tloc_mtx by the other task, then unl_mtx breaks the invariant |
| KernelWitnesses.BoostWitness | kernel/sys_mtx.c:122-128 | the owner sleeps and a more urgent task locks: the boost breaks the invariant |
| KernelWitnesses.IdleWitness | kernel/sys_tsk.c:297-311 | an idle task that sleeps breaks the invariant |
| KernelPriorities.LockInherits | kernel/sys_mtx.c:120-128 | when a lock wait blocks, the owner's new priority is the smaller of its own and the caller's, and every other task keeps its priority |
| KernelPriorities.UnlockRestores | kernel/sys_mtx.c:166-174 | an unlocking owner is back at its base priority if it owns no other mutex, and keeps its priority otherwise; everybody else keeps theirs |
| KernelPriorities.PriorityStep | kernel/sys_mtx.c:91-175 | one step of any kind: a task that blocks on a mutex of t lends it its priority; without that, t keeps its priority while it owns a mutex, and has its base priority when it owns none |
| KernelPriorities.PriorityInherited | kernel/sys_mtx.c:120-174 | over every run a task has its base priority or the most urgent one lent to it, since it last owned no mutex, by tasks that waited for a mutex it owned |
| KernelCounts.CallCounts | kernel/sys_tsk.c:297-361 | one call: wupcnt grows by 1 exactly when a wup_tsk succeeds on the task while it is not waiting and shrinks by 1 exactly when a sleep of it returns at once; actcnt likewise; the CPU affinity never changes |
| KernelCounts.CountStep | kernel/sys_tsk.c:333-361 | the same for every step, ticks and dispatches included |
| KernelCounts.RequestsConserved | kernel/sys_tsk.c:297-361 | over every run: wake-up requests at the start + accepted = still queued + sleeps that returned at once; activation requests at the start + accepted = still queued |
| KernelEffects.CallerSleeps | kernel/sys_tsk.c:296-330 | a call that blocks leaves its caller waiting in exactly the right object queue at the right place, for exactly its timeout, out of the ready queues; no other wait changes, and both CPUs are asked to reschedule |
| KernelEffects.CallerAwake | kernel/sys_tsk.c:333-361 | a call that does not block keeps its caller's state, except that a wup_tsk that wakes somebody makes it RDY and asks both CPUs to reschedule |
| KernelEffects.SleepsIff | kernel/sys_tsk.c:296-330 | the caller waits after the call iff its count, mutex, delay or wake-up counter says so; reschedule flags are set iff it waits or wup_tsk woke somebody |
| KernelEffects.CallWakes | kernel/sys_sem.c:95-104 | a signal wakes the first waiter of the semaphore, an unlock the first of the mutex, wup_tsk its target: ready, in its ready queue and no other queue, with the right return value |
| KernelEffects.CallStarts | kernel/sys_tsk.c:125-127 | act_tsk of a dormant task makes it ready, in its ready queue and no other queue |
| KernelEffects.DispatchAnswers | i386/interrupt.c:447-454 | a dispatch clears the reschedule flag of its own CPU only, and does nothing at all if that flag is clear |
| KernelEffects.TickAsks | kernel/sched.c:215-242 | a tick asks both CPUs to reschedule iff some wait has one tick left |
| KernelCodes.CodesExact | kernel/sys_mtx.c:91-119 | for every call: each of E_ID, E_NOEXS, E_OBJ, E_QOVR, E_ILUSE and E_TMOUT is returned iff its own condition on ids, existence, counters, owners, ceilings and polling holds, and E_OK otherwise |
| KernelCodes.ErrorsChangeNothing | kernel/sys_sem.c:142-169 | a call that returns an error, other than a semaphore wait that blocks, leaves the whole state as it was |
| KernelOwners.CallOwner | kernel/sys_mtx.c:91-175 | a free mutex goes to the task that locks it, one its owner unlocks to its first waiter or to nobody; no other call changes the owner of a mutex, and only creation its attribute and ceiling |
| KernelOwners.OnlyOwnerReleases | kernel/sys_mtx.c:150-164 | over every run a mutex stays with its owner until that task itself unlocks it |
| KernelOwners.NewMutexIsFree | kernel/sys_mtx.c:21-33 | in every run from start-up a mutex that does not exist is locked by nobody |
| KernelOwners.CallCreates | kernel/sys_sem.c:24-38 | creation leaves a dormant task of the creating CPU without requests, a semaphore or a mutex with exactly the attributes, count and limits of the call, and nothing else changed |
| KernelFrames.CallFrame | i386/syscall.c:46-55 | a task that did not make the call and is not named, woken or boosted by it keeps its whole record |
| KernelFrames.SemFrame | kernel/sys_sem.c:84-169 | a call changes no semaphore but the one it names |
| KernelFrames.CallKeepsCurrent | kernel/sched.c:90-134 | no call changes which task a CPU serves; only the dispatcher does |
| KernelOrder.StepInOrder | kernel/sched.c:41-61 | no step reorders those who stay in a ready or object queue, and whoever joins a ready queue joins behind everybody in it |
| KernelOrder.TickInOrder | kernel/sched.c:215-238 | the tasks a tick wakes join their ready queues in the order of the timeout list, behind everybody else |
| KernelOrder.FirstComeFirstServed | kernel/sched.c:41-61 | over every run, while a task stays in its ready queue, nobody who was behind it or joined later gets before it |
| KernelHeap.Kernel.SchedIns | kernel/sched.c:41-52 | the pointer code appends to the ready queue of the priority, or returns E_PAR |
| KernelHeap.Kernel.SchedRem | kernel/sched.c:55-61 | deletes exactly the given task from its ready queue |
| KernelHeap.Kernel.WlinkIns | kernel/sys_sem.c:231-238 | links a wlink behind the given link: the task is inserted at that place of the queue |
| KernelHeap.Kernel.InsFifo | kernel/sys_sem.c:195-206 | walks to the last link and appends |
| KernelHeap.Kernel.InsPri | kernel/sys_sem.c:209-228 | inserts before the first waiter of lower priority |
| KernelHeap.Kernel.WlinkRem | kernel/sys_sem.c:241-249 | deletes the task from the object queue it is in and makes its wlink self-linked |
| KernelHeap.Kernel.TlinkIns | kernel/sched.c:152-158 | links a tlink behind the given link of the timeout list |
| KernelHeap.Kernel.SeekTimeout | kernel/sched.c:137-151 | the walk reduces deltas exactly as the specification and stops at its insertion point |
| KernelHeap.Kernel.SchedTimeoutIns | kernel/sched.c:137-159 | equals TimeoutIns: the same deltas and the same place |
| KernelHeap.Kernel.SchedTimeoutRem | kernel/sched.c:162-174 | removes the entry, adds its delta to the successor, and makes the tlink self-linked |
| KernelHeap.Kernel.SchedTimeoutRemIfExist | kernel/sched.c:179-186 | removes the entry if next != self, which holds iff the task is in the timeout list |
| KernelHeap.Kernel.ExpireHead | kernel/sched.c:215-238 | one round of the expiry loop on the pointers is one Expire step |
| KernelHeap.Kernel.SchedTimeout | kernel/sched.c:198-243 | the whole timer step on the pointers equals Tick |
| KernelHeap.Kernel.SchedDoNextTsk | kernel/sched.c:90-134 | the scan over the linked ready queues equals DoNext |
| KernelHeap.Kernel.SchedNextTskCheck | i386/interrupt.c:440-456 | dispatches iff the CPU's reschedule flag is set, clears it, and returns whether the current task changed |
| KernelHeap.Kernel.SysCreTsk | kernel/sys_tsk.c:36-75 | equals CreTsk |
| KernelHeap.Kernel.SysActTsk | kernel/sys_tsk.c:109-128 | equals ActTsk |
| KernelHeap.Kernel.SysSlpTsk | kernel/sys_tsk.c:297-311 | equals SlpTsk |
| KernelHeap.Kernel.SysTslpTsk | kernel/sys_tsk.c:314-330 | equals TslpTsk |
| KernelHeap.Kernel.SysDlyTsk | kernel/sys_tsk.c:525-537 | equals DlyTsk |
| KernelHeap.Kernel.SysWupTsk | kernel/sys_tsk.c:333-361 | equals WupTsk, whether the guard holds or not |
| KernelHeap.Kernel.SysCreSem | kernel/sys_sem.c:24-38 | equals CreSem |
| KernelHeap.Kernel.SysSigSem | kernel/sys_sem.c:85-111 | equals SigSem |
| KernelHeap.Kernel.SysPolSem | kernel/sys_sem.c:127-139 | equals PolSem |
| KernelHeap.Kernel.SysTwaiSem | kernel/sys_sem.c:142-169 | equals TwaiSem, whether the guard holds or not |
| KernelHeap.Kernel.SysCreMtx | kernel/sys_mtx.c:21-33 | equals CreMtx |
| KernelHeap.Kernel.SysTlocMtx | kernel/sys_mtx.c:91-135 | equals TlocMtx, whether the guard holds or not, if an owner to boost is ready |
| KernelHeap.Kernel.LockWait | kernel/sys_mtx.c:115-132 | the waiting branch, timed or not: queue by priority, boost the owner, sleep |
| KernelHeap.Kernel.PassOn | kernel/sys_mtx.c:152-164 | hands the mutex to its first waiter, or unlocks it: equals PassMtx |
| KernelHeap.Kernel.SysUnlMtx | kernel/sys_mtx.c:138-175 | equals UnlMtx, whether the guard holds or not |
| KernelHeap.Kernel.TskInit | kernel/sys_tsk.c:12-26 | every wlink and tlink becomes self-linked, every task does not exist and has no wake-up queued |
| KernelHeap.Kernel.SchedInit | kernel/sched.c:23-38 | every ready queue and the timeout list become empty rings, and the reschedule flags are clear |
| KernelHeap.Kernel.SemInit | kernel/sys_sem.c:12-21 | every semaphore queue becomes an empty ring and no semaphore exists |
| KernelHeap.Kernel.MtxInit | kernel/sys_mtx.c:9-18 | every mutex queue becomes an empty ring and no mutex exists |
| KernelHeap.Kernel.constructor | kernel/kernel.c:42-55 | the initialisation of zeroed tables, with mtx_init added, gives empty queues in well-formed rings |
| KernelHeap.Kernel.ProcInit | i386/proc.c:16-84 | the four tasks of start-up produce exactly the start state of the runs, which satisfies the invariant |
| KernelHeap.Kernel.ItronSyscall | i386/syscall.c:46-55 | any call inside the lock, guard or not, is the function the exact results speak about |
| KernelHeap.Kernel.IntrSyscall | i386/syscall.c:31-61 | a whole system call on the pointers is one step of the run model and keeps the ring structure and the invariant |
| KernelHeap.Kernel.IntrTimer | i386/interrupt.c:207-215 | a whole timer interrupt on the pointers is one tick step of the run model |
| KernelHeap.Kernel.IntrLeave | i386/interrupt.c:440-456 | the dispatch on the way out is one dispatch step of the run model |
| KernelHeap.EmptyIff | kernel/kernel.c:42-55 | all queues are empty rings exactly when the base of each points to itself, so the mutex queues do not exist without mtx_init |
| KernelHeap.InsertRepresents | kernel/sys_sem.c:231-238 | rewiring four pointers represents the queues with the task inserted, and every unqueued wlink and tlink still points to itself |
| KernelHeap.RemoveSelfRepresents | kernel/sys_sem.c:241-249 | unlinking and self-linking represents the queues without the task |
| KernelHeap.SelfLinkedIffUnqueued | kernel/sched.c:179-186 | for wlink and tlink, next == self if and only if the task is in no queue of that kind |
| BigLock.StepKeepsLock | i386/smp.c:18-30 | every micro-step keeps: lock word 1 iff exactly one CPU is inside |
| BigLock.Reduction | i386/syscall.c:46-55 | in every interleaving, with any writes outside the lock, what the lock protects is that of a serial run of whole operations in acquisition order, plus the steps so far of the one in progress |
| BigLock.NoSelfSpin | i386/smp.c:18-23 | a CPU that goes on spinning waits for the other one, which is inside and can go on |
| BigLock.KeptWhenFree | i386/interrupt.c:207-225 | whenever the lock is free the tables satisfy every property that whole operations keep |
| SmpKernel.LockedKeepsInv | i386/syscall.c:46-55 | what runs inside the lock (a call without the write of its result, a tick, a scan) keeps the invariant |
| SmpKernel.InvIsAboutCore | i386/interrupt.c:447-450 | reschedule flags and return value slots, which are written outside the lock, do not matter to the invariant |
| SmpKernel.InvariantUnderLock | kernel/sched.c:99-133 | for every implementation of the locked operations by small steps, and any writes of flags and return values in between, the kernel invariant holds whenever the lock is free, from start-up on, in every interleaving |
| ContextSwitch.SwitchIsTransparent | i386/intr.s:149-317 | in every run a resumed task has exactly the registers of its last kernel entry or first frame, except EAX, which is the last value stored for it |
| ContextSwitch.SuspendedKept | i386/intr.s:216-317 | while a task is switched out, its saved registers change in nothing but EAX |
| ContextSwitch.FirstFrameStarts | i386/proc.c:104-138 | a new task begins in ring 3 at its entry point with interrupts on, the user selectors and cleared registers, its stack pointer aligned and 8 bytes below the aligned end of its stack |
| ContextSwitch.ArgumentsInPlace | i386/proc.c:145-164 | the user stack looks as if ext_tsk had called the task's function with its argument |
| ContextSwitch.NextConsistent | i386/intr.s:216-268 | the two CPUs serve different tasks, and a task in user mode has no saved frame |
| ContextSwitch.StackIsPrivate | i386/proc.c:96-101 | writes to the kernel stack of one task leave the frames and return addresses of all others |
| ContextSwitch.Machine.constructor | i386/proc.c:25-30 | the stack-top table, and esp0 of each CPU set to the stack top of its first task |
| ContextSwitch.Machine.PushFrame | i386/intr.s:149-169 | the hardware pushes and SAVE_ALL leave the 14 registers as one frame below the old stack pointer and change no other word |
| ContextSwitch.Machine.PopFrame | i386/intr.s:175-187 | RESTORE_ALL and iret read back all 14 registers of the frame |
| ContextSwitch.Machine.ResumedIntact | i386/intr.s:149-317 | in every history of the machine a task that has just been resumed has the registers of its last kernel entry or first frame, except EAX, which is the last value stored for it |
| ContextSwitch.Machine.SaveFrame | i386/intr.s:195-204 | the entry pushes the frame at the stack top and counts the nesting level, wherever its call returns to |
| ContextSwitch.Machine.SwitchStack | i386/intr.s:236-266 | saving one stack and calling tss_update_esp0 on the next leaves every saved frame and return address as it is |
| ContextSwitch.Machine.IntrEnter | i386/intr.s:195-204 | a kernel entry saves exactly the registers of the current task, keeps all stack-pointer invariants, and is an allowed event of the run so far |
| ContextSwitch.Machine.HandlerCode | i386/intr.s:588-596 | calls made inside a handler change no saved registers |
| ContextSwitch.Machine.StoreResult | i386/syscall.c:57-60 | the system call result goes to the EAX slot of the caller and nowhere else |
| ContextSwitch.Machine.SetReturnValue | i386/proc.c:204-209 | through kern_esp, exactly the EAX slot of the given task is written |
| ContextSwitch.Machine.SaveStack | i386/intr.s:223-246 | kern_esp becomes the stack top minus 60, where the return address lies; the frame above is untouched |
| ContextSwitch.Machine.ReturnTo | i386/intr.s:303-317 | ret through any saved stack lands on intr_return_restore and restores that task's frame |
| ContextSwitch.Machine.IntrLeave | i386/intr.s:216-317 | leaving to task n resumes n with its saved registers, sets esp0 to its stack top, keeps kern_esp = top - 60 for every task, and is an allowed event of the run so far |
| ContextSwitch.Machine.StartTask | i386/klib.s:285-305 | the first resume on each CPU starts the task from its fabricated frame |
| ContextSwitch.Machine.SetTskArg | i386/proc.c:145-164 | argument and ext_tsk go to the user stack; the ESP slot moves by 8 |
| ContextSwitch.Machine.WriteFirstFrame | i386/proc.c:90-141 | the fabricated words are a frame as an entry would have left it, with the return address below |
| ContextSwitch.Machine.ProcCreate | i386/proc.c:90-141 | creating a task adds exactly its first frame to the task view and prepares its user stack as for a call from ext_tsk |
| Channel.OrderPreserved | kernel/sys_mbf.c:159-252 | over every run the accepted items are the items that left followed by those stored, in order; a waiting receiver implies an empty buffer |
| Channel.StepPreservesOrder | kernel/sys_dtq.c:131-148 | every send, forced send, receive and timeout keeps both |
| Channel.NothingDropped | kernel/sys_mbf.c:148-176 | without forced sends every item that left went to a receiver |
| Channel.WaitersByPriority | kernel/sys_sem.c:209-228 | receivers queued by priority stay sorted over every run |
| Channel.ForceStoresIff | kernel/sys_dtq.c:272-279 | a forced send stores its item as the newest iff the queue has a capacity of at least 1, that is dtqcnt >= 2 |
| Channel.HandOffServesFirst | kernel/sys_mbf.c:160-172 | a send, forced or not, that finds receivers waiting goes to the first of them, who leaves the queue; all others keep their places and nothing is stored |
| Channel.ReceiveTakesOldest | kernel/sys_mbf.c:214-255 | a receive takes exactly the oldest item; on an empty channel a poll changes nothing and any other receiver queues behind everybody (FIFO) or everybody of its own or a higher priority |
| Channel.WaitsConserved | kernel/sys_dtq.c:131-148 | over every run the waits begun, as a multiset, are those served by a hand-off, those ended by timeout and those still queued: none is lost and none is served twice |
| WaitQueue.Insert | kernel/sys_sem.c:195-228 | the walks of ins_fifo and ins_pri append, or insert behind every waiter of the same or a higher priority |
| WaitQueue.EnqueueKeepsOrder | kernel/sys_sem.c:209-228 | ins_pri keeps a queue sorted by priority |
| Circular.Append | kernel/sys_mbf.c:386-415 | writing behind w, across the end or not, appends to the stored sequence |
| Circular.Take | kernel/sys_mbf.c:420-448 | advancing r, across the end or not, drops the oldest elements |
| MessageBuffer.EncodeAppend | kernel/sys_mbf.c:363-370 | storing a header and a message appends one message to the queue |
| MessageBuffer.EncodeInjective | kernel/sys_mbf.c:363-381 | the bytes in the ring determine the messages |
| MessageBuffer.FirstMessage | kernel/sys_mbf.c:373-381 | reading a length and that many bytes gives the oldest message and leaves the rest |
| MessageBuffer.AdmissionSafeIff | kernel/sys_mbf.c:336-351 | every admitted message fits iff at least 4 bytes are left, which a caller sees from ref_mbf; otherwise none fits |
| MessageBuffer.AdmissionWraps | kernel/sys_mbf.c:349-350 | a 13-byte ring gets there with one message of 5 bytes, and then accepts a message that overwrites unread bytes |
| MessageBuffer.BecomesUnsafeIff | kernel/sys_mbf.c:173-175 | exactly which admitted sizes lead there |
| MessageBuffer.RingOutsideWitness | kernel/sys_mbf.c:58-70 | a buffer whose ring reaches beyond it |
| MessageBuffer.RingInsideIff | kernel/sys_mbf.c:58-70 | the ring lies inside the given buffer iff rounding its start up costs no more than rounding its end down |
| MessageBuffer.Mbf.constructor | kernel/sys_mbf.c:58-75 | an empty buffer with the rounded geometry |
| MessageBuffer.Mbf.MbfRest | kernel/sys_mbf.c:336-351 | the remaining size with its unsigned subtraction |
| MessageBuffer.Mbf.MbfCheck | kernel/sys_mbf.c:354-360 | 0 iff no message is stored |
| MessageBuffer.Mbf.MbfDoPut | kernel/sys_mbf.c:386-415 | the three copying cases append the bytes |
| MessageBuffer.Mbf.MbfDoGet | kernel/sys_mbf.c:420-448 | the three copying cases return the oldest bytes |
| MessageBuffer.Mbf.MbfPut | kernel/sys_mbf.c:363-370 | appends the message byte for byte and counts it |
| MessageBuffer.Mbf.MbfGet | kernel/sys_mbf.c:373-381 | returns the oldest message byte for byte with its length |
| MessageBuffer.Mbf.PsndMbf | kernel/sys_mbf.c:149-180 | one Send step of the channel: to the first waiting receiver, who leaves the queue with the size as its result, or into the ring, or E_TMOUT |
| MessageBuffer.Mbf.TrcvMbf | kernel/sys_mbf.c:214-255 | one Receive step of the channel |
| MessageBuffer.Mbf.RefMbf | kernel/sys_mbf.c:258-285 | first waiting sender, which never exists, first waiting receiver, number of messages, free size |
| DataQueue.Dtq.PsndDtq | kernel/sys_dtq.c:115-150 | a bounded FIFO of capacity dtqcnt - 1: the first waiting receiver is served and leaves the queue; E_TMOUT exactly when nobody waits and it is full |
| DataQueue.Dtq.FsndDtq | kernel/sys_dtq.c:244-280 | the first waiting receiver is served and leaves the queue; without one, on a full queue exactly the oldest word is dropped and the new one appended, for every dtqcnt >= 1 |
| DataQueue.Dtq.TrcvDtq | kernel/sys_dtq.c:297-348 | returns the oldest word, or E_TMOUT, or queues the receiver |
| DataQueue.Dtq.RefDtq | kernel/sys_dtq.c:351-380 | first waiting sender, which never exists, first waiting receiver, and the exact number of stored words, across the wrap |
| Pool.RoundUpExact | kernel/pool.c:52 | requests of 1 to 2^32 - 4096 are rounded up to the page; exactly 0 and the rest wrap to 0 |
| Pool.TilesDisjoint | kernel/pool.c:47-102 | the entries of a partition do not overlap and their sizes add up to the range |
| Pool.AllocKeeps | kernel/pool.c:48-77 | a split or exact fit keeps the partition, with no two free neighbours |
| Pool.AllocKeepsIff | kernel/pool.c:52-70 | the live entries still partition the range iff the rounded request is positive or nothing is free |
| Pool.AllocAdds | kernel/pool.c:55-69 | exactly one block of the rounded size becomes allocated |
| Pool.AllocLowest | kernel/pool.c:54-69 | the block handed out begins where the lowest free block that is large enough began |
| Pool.AllocFailsIff | kernel/pool.c:54-76 | allocation fails iff no free block is large enough |
| Pool.FreeKeeps | kernel/pool.c:80-99 | the release with the corrected removal index keeps the partition, with no two free neighbours |
| Pool.FreeTakes | kernel/pool.c:80-99 | exactly the named block stops being allocated |
| Pool.WrittenFreeIff | kernel/pool.c:88-91 | the release as written keeps the partition and agrees with the corrected one iff the block is not beyond entry 1 with a free predecessor |
| Pool.AllocThenFree | kernel/pool.c:47-99 | releasing a block just allocated restores the table, for the code as written |
| Pool.WrittenFreeWitness | kernel/pool.c:88-91 | four pages, three taken and the second given back: the release of the third loses a page |
| Pool.ZeroRequestWitness | kernel/pool.c:52-70 | a request for 0 bytes empties a pool of one free page |
| Pool.InitInsideIff | kernel/pool.c:10-19 | the new pool lies inside its range, and partitions it, iff the range holds a page boundary that its start can be rounded up to |
| Pool.InitWitness | kernel/pool.c:13-15 | a range of 1000 bytes becomes a pool of almost 4 gigabytes |
| Pool.RunKeepsTiling | kernel/pool.c:47-102 | over every run, of the code as written where its releases remove the right entry or of the corrected code, the live entries partition the range, total size is conserved, blocks are disjoint |
| Pool.Table.constructor | kernel/pool.c:10-19 | for every range: one free block with the size computed modulo 2^32, or none |
| Pool.Table.PoolIns | kernel/pool.c:22-33 | everything from the entry on moves up one place |
| Pool.Table.PoolRem | kernel/pool.c:36-45 | exactly one entry is removed |
| Pool.Table.PoolAlloc | kernel/pool.c:48-77 | the loop on the table is first fit, with split or exact fit |
| Pool.Table.PoolFree | kernel/pool.c:80-102 | the loop on the table is the release, as written or corrected |
| MemoryPool.RunStuck | kernel/sys_mpl.c:107-165 | after every operation of every run the first waiter's request fits no free block |
| MemoryPool.ServeGrants | kernel/sys_mpl.c:152-162 | every waiter served by a release holds a block nobody held before |
| MemoryPool.RunBlocks | kernel/sys_mpl.c:107-165 | over every run, of the code as written where its releases remove the right entry or of the corrected code, the blocks held are exactly the allocated ones, each as large as its request |
| MemoryPool.RequestWaits | kernel/sys_mpl.c:118-135 | a request that fits no free block changes nothing if it polls; otherwise it is queued behind every request of the same or a higher priority, with all others in place |
| MemoryPool.RequestGranted | kernel/sys_mpl.c:118-120 | a request that fits some free block gets a block nobody held, of its size rounded up |
| MemoryPool.ReleaseServes | kernel/sys_mpl.c:152-162 | a release serves waiters from the front, each with a block of its own, and moves nobody else |
| MemoryPool.RequestsConserved | kernel/sys_mpl.c:107-165 | over every run the requests made and not refused are, as multisets, those that got blocks and those still waiting |
| MemoryPool.HeldDisjoint | kernel/sys_mpl.c:118-120 | blocks held for different requests do not overlap |
| MemoryPool.AllocShrinks | kernel/sys_mpl.c:118-120 | what does not fit before an allocation does not fit after it |
| MemoryPool.Mpl.TgetMpl | kernel/sys_mpl.c:108-138 | a block, with the queue unchanged; E_TMOUT, with nothing changed; or a place in the queue by priority, with all others in place |
| MemoryPool.Mpl.RelMpl | kernel/sys_mpl.c:141-165 | release, as written or corrected, then waiters are served from the front until one does not fit |
| ElfImage.LoadsComplete | i386/elf.c:111-121 | a segment is collected iff it is loadable and not empty, and the table order is kept |
| ElfImage.SortedIsLoadOrder | i386/elf.c:124-132 | the sorted indices are all loadable segments, each once, ascending in load address |
| ElfImage.SeparateIff | i386/elf.c:139-159 | in load order no segment reaches into the next iff no two share an address |
| ElfImage.ConvertedIsFlat | i386/elf.c:136-159 | if no two loadable segments share an address, the output holds, from the lowest load address to the last end, the file bytes of every one at its address and zeros elsewhere |
| ElfImage.SortedIsOrderedPermutation | i386/elf.c:124-132 | the order is a permutation of the loadable segments, ascending in load address |
| ElfImage.LandsIff | i386/elf.c:139-159 | every segment lands at its load address minus the lowest one iff no segment reaches into the next |
| ElfImage.OverlapWitness | i386/elf.c:139-159 | two overlapping segments: the second lands one byte too far |
| ElfImage.OutputIsImage | i386/elf.c:139-159 | without overlap the output holds each segment at its place, zeros elsewhere, and ends with the last segment |
| ElfImage.OutFile.Writen | i386/elf.c:191-205 | writes all bytes, however the writes are cut up |
| ElfImage.OutFile.WriteSpace | i386/elf.c:57-64 | seeking and one byte append exactly the gap in zeros |
| ElfImage.Readn | i386/elf.c:171-185 | reads exactly the bytes of the segment, however the reads are cut up |
| ElfImage.Collect | i386/elf.c:111-121 | the indices of all loadable, nonempty segments, in table order |
| ElfImage.Sort | i386/elf.c:123-132 | the insertion sort is the stable sort of the specification |
| ElfImage.InsertKey | i386/elf.c:125-131 | one round inserts the key behind everything not above it |
| ElfImage.Place | i386/elf.c:136-159 | the loop writes the output of the segments in order |
| ElfImage.Convert | i386/elf.c:77-165 | fails iff nothing is loadable; otherwise the output of the sorted segments, which is the flat image of the program headers if no two loadable segments share an address |

## Left out

- ParkKeepsInv: idle tasks and timeouts of 0, on which the invariant fails (`SlpGuardExact`, `TslpGuardExact`).
- SlpKeepsInv: under its guard, which `SlpGuardExact` shows to be necessary.
- TslpKeepsInv: under its guard, which `TslpGuardExact` shows to be necessary.
- DlyKeepsInv: under its guard, which `DlyGuardExact` shows to be necessary.
- TwaiKeepsInv: under its guard, which `TwaiGuardExact` shows to be necessary.
- TlocKeepsInv: under its guard, which `TlocGuardExact` shows to be necessary.
- UnlKeepsInv: under its guard, which `UnlGuardExact` shows to be necessary.
- CreSemKeepsInv: under its guard, which `CreSemGuardExact` shows to be necessary.
- CreTskKeepsInv: the id 16 and priorities outside 1 to 16, with which a task would be activated into no ready queue.
- SysCreTsk: the id 16 and priorities outside 1 to 16, as for CreTskKeepsInv.
- CreMtxKeepsInv: the id 16, whose queue mtx_init leaves null.
- SysCreMtx: the id 16, as for CreMtxKeepsInv.
- WupKeepsInv: under its guard, which `WupGuardExact` shows to be necessary; ids above 16, which wup_tsk does not check
  and which lie outside the task table.
- WupGuardExact: ids above 16, as for WupKeepsInv.
- SysWupTsk: ids above 16, as for WupKeepsInv.
- SysTlocMtx: a boosted owner that is not ready, whose plink still points into the queue it has left; `BoostWitness` and
  `TlocGuardExact` show the damage on sequences.
- LockWait: as for SysTlocMtx.
- ItronSyscall: as for SysTlocMtx.
- IntrSyscall: the write of the result is part of the step; SmpKernel.dfy lets any write to result slots come between steps.
- InvariantUnderLock: the decomposition of each call into small steps is arbitrary and assumed to add up to the whole call
  in all the lock protects; nothing is claimed about lost reschedule requests or overwritten results.
- IntrLeave: saving the old stack pointer, the scheduler's choice and loading the new one are one step; the other CPU
  cannot choose the same task because of its CPU affinity.
- PsndMbf: required to be called with at least 4 bytes left when nobody waits; without that the source overwrites unread
  bytes, which `AdmissionSafeIff` and `AdmissionWraps` show, and what it then reads back is not modelled.
- PoolIns: the table has a spare entry, without which the source writes behind its end.
- PoolAlloc: as for PoolIns; requests are 1 to 2^32 - 4096, for all others see `AllocKeepsIff`.
- TgetMpl: as for PoolAlloc; waits have no time limit.
- RelMpl: the table has room for the waiters served, and the release removes the right entry (`RightEntry`).
- Mpl.constructor: address ranges as `InitInsideIff` requires, not beginning at 0.
- Convert: reading the ELF header and the exits for files that cannot be opened; a read at the end of the file, where readn
  would not return; addresses beyond 2^31.
- Negative ids, which get the same E_ID as an id above 16 where ids are checked.
- Blocking sends to message buffers and data queues: the source releases blocked senders wrongly or not at all.
- Task-side effects of a hand-off in rings and pools (leaving the wait queue, becoming ready): the same release as in
  sig_sem, which the kernel model covers; here a queue of waiting tasks stands for it.
- The E_ID and E_NOEXS tests of message buffers, data queues and pools: one object stands for one live entry of the table.
- Nested interrupts, task exceptions and the page-fault test hook: handlers run with interrupts off.
- ext_tsk, ter_tsk, chg_pri, sus_tsk, rsm_tsk, rel_wai, TA_ACT and the deletion of objects: they leave stale or doubled links.
- Event flags, mailboxes, rendezvous, fixed-size pools, cyclic, alarm and overrun handlers.
- Devices, page tables, descriptors, boot code, library wrappers and the system call table: constants and thin wrappers.
