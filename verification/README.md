# A verified model of the TOPPERS/ASP3 kernel

The project models the core of the ASP3 real-time kernel (`asp3_dcre/kernel`), its serial interface
driver and the S-record reader of its configurator, and proves what they promise.

**Tasks, mutexes, semaphores and wait states.** `KernelSpec` says what the service calls mean, on one
value without any redundant data: one precedence list of runnable tasks, priorities computed from base
priorities and locks, locks as sequences. `KernelInv`, `KernelOps` and `KernelRuns` prove an invariant of
every state that any sequence of service calls, interrupts and time events can lead to; `KernelTheorems`
draws from it what a user relies on; `CeilingProtocol` proves that under the discipline of the immediate
ceiling protocol a task that the ceiling admits gets the mutex at once. Four more modules look at the same
runs from outside, by calls, answers and results, without a word of how tasks are moved:
`KernelEffects` says field by field what a step makes of each single task, count and owner;
`KernelHistories` what the history of a run comes to, such as who has got how much of a semaphore, what has
become of queued requests and why a task has stopped waiting; `KernelOrder` who is served before whom;
`KernelControl` when dispatching is held off, and which error has which reason. The class `Kernel.Kernel` has the data the kernel
really keeps: control blocks with stored priorities, sixteen ready queues with a bitmap, a cached task to
run, mutexes chained on their owners, the wait information as a union. Its methods do what the C code
does, step by step, and each is proved to do what `KernelSpec` says. `KernelData`, `KernelRel`,
`KernelLocks` and `KernelCalls` hold the steps of that proof. `Queues` has the linked rings under all
queues, `ReadyQueues` and `Bitmap` the sixteen queues and the search for the first one in use.

**Time events.** `TimeSpec` says what the clock, the alarms and the cyclic notifications do in unbounded
time: one step a reading of the timer, a start or stop, a call back of the earliest event, an adjustment
or a setting of the clock; it proves over whole runs of such steps, in any order, when and in which order
call backs are made, that none is left out, and that the system time never goes back. The class
`TimeEvents.TimeEvents` keeps the heap of events in an array with links back, the 32-bit event times that
wrap around, the timer and the 64-bit system time; its `State` is the state of `TimeSpec` behind them, and
its methods are proved to take that state where the steps take it. Ghost fields hold the unbounded times
behind the words: `H` is the count of the timer when last read, `C` the current event time, `M` the
furthest it has ever been, `T` the due times, `K` the constant between `M` and the system time, `log` the
call backs made. `Valid` says that the heap is in true time order although its words wrap, and that the
timer is pending or armed no later than the earliest event falls due. `EventTime` has the arithmetic,
`TimeHeap` the heap.

**Communication objects.** `DataQueue`, `PriorityDataQueue`, `FixedPool` and `EventFlag` work in place on
ring buffers, linked nodes and index lists, and are proved against sequences and sets; `Waiters` has the
tasks that wait for them. The specifications of the two queues account, over every run, for every datum and
for every task that was put to sleep.

**Serial driver.** `SerialProtocol` is the driver as a transition system: any number of tasks, and the
callbacks, interleaved at the points where interrupts are unlocked. `SerialPort` has the locked sections
on their ring buffers, each proved to be the step of the protocol.

**S-records.** `SparseMemory` merges blocks of bytes and is proved against the plain map from addresses to
bytes.

Each service call and each interrupt is one step, as the C code runs it with the CPU locked; `dispatch`
is the assignment of the task to run to the running task. The timer is an argument `now`, its true count,
that never goes back. The answers of the serial hardware are arguments.

Five promises hold on a condition. Setting data in the S-record memory raises exactly when a stored block
starts later and ends earlier than the new data; hence reading a file fails exactly when some run of
records goes round an island of what is stored by then, as the records of `SurroundedRecord` do; a file in
ascending order is always read. Event times compare truly as long as no event is overdue by more than
`BOUNDARY_MARGIN` and the timer is read at least once a period, which `Timely` says and which follows from
a bound on how late interrupts are served (`LatencyMakesTimely`). The ceiling theorem needs the discipline
that `Disciplined` spells out: dispatching stays allowed, and a task that holds a ceiling mutex does not
wait, is not suspended, is not given another base priority and is not rotated. A data queue in order of
arrival, with its blocked senders, is one first-in-first-out queue except for forced sends: those put
their datum at the end exactly when no sender is blocked with another datum, as `OvertakenSender` shows by
example; what has entered the buffer leaves it in order all the same. The serial driver tells the other side
to stop and to go on as it means to, as long as no flow character that the hardware takes at once overtakes
another that is still due; a step that lets one do so leaves the other side with the wrong one, and
`StopOvertaken` is a run after which it stands stopped although our buffer is empty and nothing is due.

## Model

| member | source | states |
|---|---|---|
| CeilingProtocol.CeilingNeverBlocks | asp3_dcre/kernel/mutex.c:473-518 | in every disciplined run, a task that the ceiling admits and that does not have the mutex gets it at once, by `loc_mtx` or `ploc_mtx`; no attempt waits or times out, and no task is ever waiting for a ceiling mutex |
| CeilingProtocol.AlwaysProto | asp3_dcre/kernel/mutex.c:289-298 | in every disciplined run, whoever precedes the holder of ceiling mutexes has a base priority above every ceiling it has locked, and holders are runnable |
| CeilingProtocol.CeilingIsFree | asp3_dcre/kernel/mutex.c:473-518 | a ceiling mutex that the running task may ask for is free or its own |
| CeilingProtocol.DropProto | asp3_dcre/kernel/mutex.c:268-279 | falling back on unlocking keeps the protocol although the task goes ahead of its new equals |
| CeilingProtocol.NextProto | asp3_dcre/kernel/task.c:348-394 | every disciplined step keeps the protocol |
| KernelTheorems.EffectivePriority | asp3_dcre/kernel/mutex.c:246-260 | in every reachable state the current priority is the minimum of the base priority and the ceilings of the locked mutexes, and no base priority is above a ceiling of a mutex locked or waited for |
| KernelTheorems.BestTaskRuns | asp3_dcre/kernel/task.c:221-227 | with dispatching allowed the running task is runnable and nobody runnable is better; nobody runs only if nobody can |
| KernelTheorems.WaitsWhereItSays | asp3_dcre/kernel/wait.c:142-164 | a waiting task is in exactly the queue its state names, and waits only for a semaphore at zero or a mutex somebody else owns; the ready list holds exactly the runnable tasks |
| KernelTheorems.LocksAreOwned | asp3_dcre/kernel/mutex.c:289-298 | a task's locks are exactly the mutexes it owns, each once; a dormant task owns nothing |
| KernelTheorems.PendingTermination | asp3_dcre/kernel/task_term.c:163-210 | a task with a termination request is runnable, and if it also permits termination it is running while dispatching is held off |
| KernelTheorems.OpeningTerminates | asp3_dcre/kernel/sys_manage.c:395-426 | the call that makes dispatching possible again carries out such a termination |
| KernelTheorems.Terminated | asp3_dcre/kernel/task.c:430-447 | an ended task is dormant, or started anew if an activation was queued, with no locks, at its start priority and with all requests cleared |
| KernelTheorems.UnlockHandsOver | asp3_dcre/kernel/mutex.c:308-334 | an unlocked mutex goes to the head of its queue, which stops waiting with result OK, or to nobody; the rest of the queue stays |
| KernelTheorems.ReinitializedMutex | asp3_dcre/kernel/mutex.c:677-717 | after `ini_mtx` nobody owns, holds or waits for the mutex |
| KernelTheorems.OthersKeepOrder | asp3_dcre/kernel/task.c:348-394 | when one task moves, any two others keep their order in the ready list and in every wait queue |
| KernelTheorems.WokenGoesBehind | asp3_dcre/kernel/task.c:241-253 | a task that becomes runnable is behind all of the same or a better priority and ahead of all others |
| KernelEffects.EveryStep | asp3_dcre/kernel/task.h:131-171 | in every run, one step changes the record of each task, each count and each owner just as the call, its answer and the heads of the queues say, however many tasks the step releases and mutexes it hands over |
| KernelEffects.TerminateFates | asp3_dcre/kernel/task.c:430-447 | after the end of a task each mutex it had locked belongs to the first of its waiters, which has result OK, or to nobody, and no other task has changed |
| KernelEffects.UnwaitAllFates | asp3_dcre/kernel/wait.c:187-197 | exactly the tasks of the queue are released, each with the given result, to be runnable or only suspended |
| KernelHistories.LockAnswers | asp3_dcre/kernel/mutex.c:473-626 | in every run: illegal use exactly if the caller's base priority is better than the ceiling, OK exactly if the ceiling admits it and nobody owns the mutex, waiting or a timeout only if another task owns it; with OK the caller owns it, has it as its latest lock and goes on running, and nobody else changes |
| KernelHistories.PollLockAnswers | asp3_dcre/kernel/mutex.c:528-566 | the same without waiting, also while dispatching is held off |
| KernelHistories.MutexesPassOn | asp3_dcre/kernel/mutex.c:308-352 | in every run, a mutex changes from its owner only when the owner unlocks it or ends, and then to the head of the queue, or when it is reinitialized |
| KernelHistories.SemaphoreConserved | asp3_dcre/kernel/semaphore.c:265-469 | in every run, count at the latest initialization plus signals answered OK is the count now plus waits and polls answered OK plus waiting tasks released with OK |
| KernelHistories.SemaphoreAnswers | asp3_dcre/kernel/semaphore.c:265-432 | in every run, a wait or poll succeeds at once exactly if the count is above zero, and a signal overflows exactly if the count is at its maximum and nobody waits |
| KernelHistories.ResultSaysWhy | asp3_dcre/kernel/wait.c:81-131 | in every run, a task that stops waiting finds OK exactly if what it waited for came, the timeout exactly at its time event, "released" exactly after `rel_wai`, "deleted" exactly after a reinitialization, the request to end exactly after `ras_ter`, and no result exactly if it was ended |
| KernelHistories.WaitsByItsOwnCall | asp3_dcre/kernel/wait.c:56-71 | in every run, a task starts to wait only by its own call, for what that call asked for, timed exactly if the call set a limit |
| KernelHistories.ActivationsKept | asp3_dcre/kernel/task_manage.c:259-302 | in every run, each activation answered OK has started the task once or is the one queued; none is queued for a dormant task |
| KernelHistories.WakeupsKept | asp3_dcre/kernel/task_sync.c:125-250 | in every run, each wake-up answered OK has ended a sleep or saved the task from one, is the one queued, or was queued when the task ended |
| KernelHistories.StoryIsTrue | asp3_dcre/kernel/task_manage.c:409-463 | in every run, base priority, suspension, and permission and request of termination are what the latest calls about them have asked for, or those of a fresh start |
| KernelControl.DispatchingHeldOff | asp3_dcre/kernel/sys_manage.c:369-426 | in every run, dispatching is held off exactly by the latest calls about it, and while it is, or an interrupt handler runs, the running task stays |
| KernelControl.ErrorsHaveReasons | asp3_dcre/kernel/check.h:145-242 | in every run and for every call, the answer is an error exactly if there is a reason for some error, and names one there is |
| KernelOrder.FirstComeFirstServed | asp3_dcre/kernel/task.c:241-394 | in every run and for every step, tasks keep their order in the ready list and in all wait queues unless one of them is moved itself, and whoever becomes runnable queues behind all of the same or a better priority, also when a step releases or ends several |
| KernelOrder.WaitersQueueUp | asp3_dcre/kernel/wait.c:142-164 | in every run, whoever starts to wait comes last in a queue by arrival, behind its equals in one by priority |
| KernelOrder.RotationSendsLast | asp3_dcre/kernel/sys_manage.c:164-195 | in every run, a rotation sends the first task of the priority behind all others of it, and no other |
| KernelOrder.ReprioritizedGoesBehind | asp3_dcre/kernel/task_manage.c:440-456 | in every run, a task given a base priority goes behind those of its new priority, keeps its place in a queue by arrival, and does not move at all while it holds a ceiling mutex |
| KernelOrder.ReleaseAllOrder | asp3_dcre/kernel/mutex.c:344-352 | giving up all locks keeps the order of all who inherit nothing, and each heir comes behind its equals |
| KernelRuns.AlwaysInv | asp3_dcre/kernel/task.h:131-171 | the invariant of tasks, queues, locks, waits and dispatching holds after any sequence of service calls, interrupts and time events |
| KernelRuns.NextInv | asp3_dcre/kernel/task.h:83-129 | every step keeps it |
| KernelRuns.AcquireKeepsSched | asp3_dcre/kernel/mutex.c:495-502 | after locking a mutex the task to run is still the caller, as the assertion in the code has it |
| KernelRuns.ChgPriInv | asp3_dcre/kernel/task_manage.c:409-463 | changing a base priority keeps the invariant, the update being skipped while a ceiling mutex is held |
| KernelRuns.CeilingRules | asp3_dcre/kernel/task_manage.c:447-456 | with a ceiling mutex locked, no admissible base priority makes a difference to the current priority, so that the update may be skipped |
| KernelRuns.RasTerInv | asp3_dcre/kernel/task_term.c:163-210 | a termination request keeps the invariant in each of its four cases |
| KernelRuns.OpenedInv | asp3_dcre/kernel/interrupt.c:617-650 | opening dispatching keeps the invariant |
| KernelOps.UnwaitCore | asp3_dcre/kernel/wait.c:81-111 | releasing a waiting task, whatever it waits for, keeps all queues, locks and conditions in order |
| KernelOps.UnwaitAllCore | asp3_dcre/kernel/wait.c:187-197 | releasing all of a queue ends with it empty and leaves locks, owners and counts alone |
| KernelOps.ReleaseCore | asp3_dcre/kernel/mutex.c:308-334 | the hand-over of a mutex keeps the invariant, also while its former owner is being ended |
| KernelOps.ReleaseAllCore | asp3_dcre/kernel/mutex.c:344-352 | giving up all locks ends, with none held and the invariant in force |
| KernelOps.TerminateCore | asp3_dcre/kernel/task.c:430-447 | ending a task keeps the invariant and leaves the task without locks and requests |
| KernelOps.ReplaceFacts | asp3_dcre/kernel/wait.h:262-268 | a queue by priority stays sorted when the priority of a task in it changes |
| KernelInv.EffPriIsMin | asp3_dcre/kernel/mutex.c:246-260 | the computed priority is a lower bound of the base priority and all ceilings, and one of them |
| KernelInv.PlaceFacts | asp3_dcre/kernel/wait.h:84-144 | a task that leaves one queue for another keeps all queues duplicate-free, in order and in agreement with the states |
| Kernel.Kernel.constructor | asp3_dcre/kernel/task.c:93-150 | the data start out as a state with all tasks dormant and all objects free |
| Kernel.Kernel.SearchSchedtsk | asp3_dcre/kernel/task.c:221-227 | finds the head of the precedence list |
| Kernel.Kernel.SetDspflg | asp3_dcre/kernel/task.h:399-404 | dispatching is possible and the cache is what a search would find |
| Kernel.Kernel.MakeRunnable | asp3_dcre/kernel/task.c:241-253 | joins the precedence list behind the equals, with the bitmap and the cached task to run kept right |
| Kernel.Kernel.MakeNonRunnable | asp3_dcre/kernel/task.c:273-292 | leaves the precedence list, likewise |
| Kernel.Kernel.MoveInQueues | asp3_dcre/kernel/task.c:353-373 | from one ready queue to another, at the front or the end, is one move in the precedence list |
| Kernel.Kernel.ChangeReady | asp3_dcre/kernel/task.c:348-388 | a runnable task gets a new priority; the cache still agrees with a search although one is made only if needed |
| Kernel.Kernel.ChangePriority | asp3_dcre/kernel/task.c:348-394 | so does a task in any other state, with its place in a queue by priority |
| Kernel.Kernel.RotateReadyQueue | asp3_dcre/kernel/task.c:407-420 | the first task of a priority goes behind its equals, with the cache kept right |
| Kernel.Kernel.TaskTerminate | asp3_dcre/kernel/task.c:430-447 | the data stand for the terminated task of the specification |
| Kernel.Kernel.TakeAway | asp3_dcre/kernel/task.c:430-440 | the task being ended leaves its ready queue, or its wait queue and time event |
| Kernel.Kernel.MakeDormant | asp3_dcre/kernel/task.c:302-311 | the control block of a task that has ended |
| Kernel.Kernel.Activate | asp3_dcre/kernel/task.c:321-327 | a dormant or suspended task is made runnable |
| Kernel.Kernel.QueueInsertTpri | asp3_dcre/kernel/wait.h:62-74 | the walk finds the place behind all of the same or a better priority |
| Kernel.Kernel.MakeWait | asp3_dcre/kernel/wait.c:56-71 | the caller leaves the ready list, and a time event is registered unless it waits forever |
| Kernel.Kernel.MakeNonWait | asp3_dcre/kernel/wait.h:111-130 | runnable, or only suspended if suspended meanwhile |
| Kernel.Kernel.WaitDequeueWobj | asp3_dcre/kernel/wait.h:139-144 | a task that waits for an object leaves its queue, any other none |
| Kernel.Kernel.WaitDequeueTmevtb | asp3_dcre/kernel/wait.h:153-158 | the time event, if one is registered, is removed; requires that the union still holds the timer |
| Kernel.Kernel.WobjChangePriority | asp3_dcre/kernel/wait.h:262-268 | a new place in a queue by priority, no change in one by arrival |
| Kernel.Kernel.WobjQueueInsert | asp3_dcre/kernel/wait.c:142-150 | by priority or at the end, as the object's attribute says |
| Kernel.Kernel.WobjMakeWait | asp3_dcre/kernel/wait.c:158-177 | the caller waits in the queue of the object, timed or not |
| Kernel.Kernel.BlockOn | asp3_dcre/kernel/wait.c:158-177 | after which the data stand for the blocked caller |
| Kernel.Kernel.ReleaseWait | asp3_dcre/kernel/wait.c:81-86 | out of queue and time events, with a result: the release of the specification |
| Kernel.Kernel.WaitTmout | asp3_dcre/kernel/wait.c:96-111 | a wait in a queue ends with a timeout |
| Kernel.Kernel.WaitTmoutOk | asp3_dcre/kernel/wait.c:117-131 | a delay ends with success |
| Kernel.Kernel.ExpireWait | asp3_dcre/kernel/wait.c:96-131 | the time event of a waiting task releases it by one of the two |
| Kernel.Kernel.InitWaitQueue | asp3_dcre/kernel/wait.c:187-197 | all waiters are released, the first one first, with "object deleted" |
| Kernel.Kernel.MutexCheckCeilpri | asp3_dcre/kernel/mutex.c:183-214 | true exactly if no ceiling locked or waited for is below the new base priority |
| Kernel.Kernel.MutexScanCeilmtx | asp3_dcre/kernel/mutex.c:224-236 | true exactly if the task holds a ceiling mutex |
| Kernel.Kernel.MutexCalcPriority | asp3_dcre/kernel/mutex.c:246-260 | the walk along the chain computes the current priority |
| Kernel.Kernel.MutexDropPriority | asp3_dcre/kernel/mutex.c:268-279 | recomputes only when the dropped ceiling was the current priority |
| Kernel.Kernel.MutexAcquire | asp3_dcre/kernel/mutex.c:289-298 | owner, chain and priority of the newly locked mutex |
| Kernel.Kernel.MutexRelease | asp3_dcre/kernel/mutex.c:308-334 | hand-over to the first waiter with the ceiling in force at once, or no owner |
| Kernel.Kernel.MutexReleaseAll | asp3_dcre/kernel/mutex.c:344-352 | all locks of an ended task are given up, the latest first |
| Kernel.Kernel.MutexUnlink | asp3_dcre/kernel/mutex.c:697-704 | a mutex is taken out of the middle of a chain, which then runs through the others in order |
| Kernel.Kernel.LocMtx | asp3_dcre/kernel/mutex.c:473-626 | `loc_mtx` and `tloc_mtx` on the data of the kernel are those of the specification, with every error case; what they answer and change is stated in `KernelHistories.LockAnswers` |
| Kernel.Kernel.PlocMtx | asp3_dcre/kernel/mutex.c:528-566 | likewise, without waiting |
| Kernel.Kernel.UnlMtx | asp3_dcre/kernel/mutex.c:636-667 | succeeds exactly for the caller's latest lock |
| Kernel.Kernel.IniMtx | asp3_dcre/kernel/mutex.c:677-717 | waiters released, owner deprived with its priority dropped |
| Kernel.Kernel.WaiSem | asp3_dcre/kernel/semaphore.c:315-432 | `wai_sem` and `twai_sem` on the data of the kernel are those of the specification; that taking uses the semaphore up is `KernelHistories.SemaphoreConserved` |
| Kernel.Kernel.PolSem | asp3_dcre/kernel/semaphore.c:358-384 | likewise, without waiting |
| Kernel.Kernel.SigSem | asp3_dcre/kernel/semaphore.c:265-305 | the first waiter is released, or the count goes up to its maximum |
| Kernel.Kernel.IniSem | asp3_dcre/kernel/semaphore.c:442-469 | waiters released, initial count |
| Kernel.Kernel.SlpTsk | asp3_dcre/kernel/task_sync.c:125-194 | `slp_tsk` and `tslp_tsk`: a queued wake-up is consumed, else the caller sleeps |
| Kernel.Kernel.WupTsk | asp3_dcre/kernel/task_sync.c:204-250 | wakes a sleeper, else queues one wake-up |
| Kernel.Kernel.RelWai | asp3_dcre/kernel/task_sync.c:301-338 | any wait ends, out of queue and time events |
| Kernel.Kernel.SusTsk | asp3_dcre/kernel/task_sync.c:348-404 | suspends, refusing the caller while dispatching is held off and tasks about to be ended |
| Kernel.Kernel.RsmTsk | asp3_dcre/kernel/task_sync.c:414-454 | undoes a suspension, with or without a wait below it |
| Kernel.Kernel.DlyTsk | asp3_dcre/kernel/task_sync.c:464-495 | a delay, timed always |
| Kernel.Kernel.ExtTsk | asp3_dcre/kernel/task_term.c:109-153 | opens dispatching and ends the caller |
| Kernel.Kernel.RasTer | asp3_dcre/kernel/task_term.c:163-210 | ends the task, or requests its end and makes it runnable |
| Kernel.Kernel.DisTer | asp3_dcre/kernel/task_term.c:220-235 | termination is no longer permitted |
| Kernel.Kernel.EnaTer | asp3_dcre/kernel/task_term.c:245-267 | permits termination, or ends the caller if requested |
| Kernel.Kernel.TerTsk | asp3_dcre/kernel/task_term.c:300-330 | ends another task |
| Kernel.Kernel.ActTsk | asp3_dcre/kernel/task_manage.c:259-302 | starts a dormant task or queues one activation |
| Kernel.Kernel.ChgPri | asp3_dcre/kernel/task_manage.c:409-463 | a new base priority, checked against the ceilings |
| Kernel.Kernel.RotRdq | asp3_dcre/kernel/sys_manage.c:164-195 | rotates one priority |
| Kernel.Kernel.DisDsp | asp3_dcre/kernel/sys_manage.c:369-385 | the task to run freezes at the caller |
| Kernel.Kernel.EnaDsp | asp3_dcre/kernel/sys_manage.c:395-426 | dispatching opens if the mask is open too, and a pending termination is carried out |
| Kernel.Kernel.ChgIpm | asp3_dcre/kernel/interrupt.c:617-650 | the same for the interrupt mask |
| Kernel.Kernel.Perform | asp3_dcre/kernel/task.h:131-171 | any step on the kernel's own data is that step of the specification, so that all its theorems hold of the data |
| KernelLocks.ChainUnlink | asp3_dcre/kernel/mutex.c:697-704 | bending one link takes exactly one mutex out of a chain |
| KernelLocks.DropSame | asp3_dcre/kernel/mutex.c:268-279 | dropping a mutex whose ceiling is not the current priority changes no priority |
| KernelLocks.AcquireStep | asp3_dcre/kernel/mutex.c:289-298 | raising to the ceiling only if that is better is the minimum of base priority and all ceilings |
| KernelLocks.ReleaseNextStep | asp3_dcre/kernel/mutex.c:308-334 | the heir's stored priority after the hand-over is its computed one |
| KernelRel.UnwaitStep | asp3_dcre/kernel/wait.c:81-86 | taking a task out of queue and heap, setting the result and making it runnable is the release of the specification |
| KernelRel.ChainPush | asp3_dcre/kernel/mutex.c:289-298 | a newly locked mutex becomes the start of the chain |
| KernelData.QueuedMove | asp3_dcre/kernel/task.c:348-388 | what the head of the precedence list is after a change of priority, for all four cases of the code |
| KernelData.QueuedRotate | asp3_dcre/kernel/task.c:407-420 | what it is after a rotation |
| ReadyQueues.HeadFound | asp3_dcre/kernel/task.c:221-227 | the queue of the lowest bit begins with the head of the precedence list |
| ReadyQueues.QueuedJoin | asp3_dcre/kernel/task.c:241-253 | joining the queue of one's priority and setting its bit is joining the precedence list |
| ReadyQueues.QueuedLeave | asp3_dcre/kernel/task.c:273-292 | leaving it, the bit cleared if the queue is empty then, is leaving the precedence list |
| Bitmap.BitmapSearch | asp3_dcre/kernel/task.c:160-175 | finds the lowest bit set in any 16-bit map |
| Bitmap.NibbleTable | asp3_dcre/kernel/task.c:157-158 | each entry of the search table is the lowest bit of its index |
| Bitmap.SetBit | asp3_dcre/kernel/task.c:201-204 | sets one bit and no other |
| Bitmap.ClearBit | asp3_dcre/kernel/task.c:210-213 | clears one bit and no other |
| PriorityList.InsertFacts | asp3_dcre/kernel/wait.h:62-74 | inserting keeps a list sorted, duplicate-free, and adds exactly the newcomer |
| PriorityList.BeforeInsert | asp3_dcre/kernel/wait.h:62-74 | who precedes whom after an insertion |
| Queues.Node.constructor | asp3_dcre/include/queue.h:77-81 | a header alone is an empty ring |
| Queues.QueueInsertPrev | asp3_dcre/include/queue.h:90-96 | the four links written make the ring with the entry ahead of the given node; ahead of the header is the end |
| Queues.QueueInsertNext | asp3_dcre/include/queue.h:105-111 | and behind it; behind the header is the front |
| Queues.QueueDelete | asp3_dcre/include/queue.h:119-123 | the ring without the entry, found from the entry alone |
| Queues.QueueDeleteNext | asp3_dcre/include/queue.h:134-143 | the first entry leaves |
| Queues.QueueEmpty | asp3_dcre/include/queue.h:151-158 | true exactly if there is no entry |
| Queues.QueueInsertTpri | asp3_dcre/kernel/wait.h:62-74 | the walk along the links inserts where the order by priority has its place |
| TimeSpec.NeverEarly | asp3_dcre/kernel/time_event.c:475-495 | in every run without adjustments, an event started with relative time r is called back only when the timer has counted r and a step more, a cyclic one for the k-th time only k periods later |
| TimeSpec.AlwaysPunctual | asp3_dcre/kernel/cyclic.c:404-410 | in every run, no call is made before its event time, and the k-th call of a cyclic event is due k periods after the first, without drift |
| TimeSpec.NoneLeftOut | asp3_dcre/kernel/cyclic.c:404-427 | in every run, every period of a started cyclic event that is over has been called back |
| TimeSpec.CallsInOrder | asp3_dcre/kernel/time_event.c:584-642 | in every run without setting the clock back, all calls come in the order of their due times |
| TimeSpec.DueIsCalled | asp3_dcre/kernel/time_event.c:598-624 | when readings and call backs leave nothing due, every event that was due by then has been called for its due time |
| TimeSpec.NotDueStays | asp3_dcre/kernel/time_event.c:598-624 | an event not due by then stays registered for the same time |
| TimeSpec.SettledAfter | asp3_dcre/kernel/time_event.c:585-642 | both, with clock and count as far apart as before and nothing else changed |
| TimeSpec.TimeNeverGoesBack | asp3_dcre/kernel/time_manage.c:129-150 | between two readings of the system time without `set_tim`, in any run with adjustments both ways, it goes up by just as much as the furthest event time: never back |
| TimeSpec.FurthestIsMaximum | asp3_dcre/kernel/time_event.c:388-397 | the furthest event time is the maximum of all event times of the run |
| TimeSpec.LagIsBounded | asp3_dcre/kernel/time_event.c:532-542 | in every run the clock is never more than 1,999,999 behind it |
| TimeSpec.ServiceIsRun | asp3_dcre/kernel/time_event.c:374-400 | a service call that reads the timer and does one thing is a run of two steps |
| TimeSpec.ClockIsAdjusted | asp3_dcre/kernel/time_manage.c:160-199 | in every run, the event time gains on the count of the timer exactly the sum of the adjustments asked for within a second either way, while no event was overdue and the clock not behind by a second |
| TimeSpec.SetReadsBack | asp3_dcre/kernel/time_manage.c:98-150 | a time that was set is read back, plus what the furthest event time has gained since |
| TimeSpec.DueSinceStart | asp3_dcre/kernel/time_event.c:475-495 | in every run, an event is due for a start made in the run, with the count, event time and relative time of that step, since which it was neither started nor stopped |
| TimeSpec.CallsGoBack | asp3_dcre/kernel/time_event.c:598-624 | in every run, each call back was made by a step of its own at the time it says, for such a start |
| TimeSpec.StoppedIsSilent | asp3_dcre/kernel/alarm.c:301-327 | after a stop an event is not called back until it is started again |
| TimeSpec.OneCallPerStart | asp3_dcre/kernel/alarm.c:376-398 | an alarm is called back at most once for each start |
| EventTime.OrderIsTrue | asp3_dcre/kernel/time_event.c:112-114 | within a window of 2^32 from the boundary, comparing wrapped times is comparing true times |
| EventTime.WindowIsWideEnough | asp3_dcre/kernel/time_event.h:104 | margin, lag, step and longest relative time fit into the window together |
| EventTime.TrueDifference | asp3_dcre/kernel/time_event.c:552-575 | a difference of words is the true difference if that is in range |
| EventTime.AdvanceIsElapsed | asp3_dcre/kernel/time_event.c:374-400 | two readings of the counter less than a period apart give the time elapsed, for any period |
| EventTime.UpperHalf | asp3_dcre/kernel/time_event.c:388-397 | the 64-bit offset has to grow exactly when the word of the furthest time gets smaller |
| TimeHeap.TopIsFirst | asp3_dcre/kernel/time_event.c:339-366 | the top of the heap is the earliest event |
| TimeHeap.Vacated | asp3_dcre/kernel/time_event.c:282-333 | moving the last event into a free node keeps the links back and removes exactly one event |
| TimeHeap.UpStep | asp3_dcre/kernel/time_event.c:175-201 | one step of the sift up |
| TimeHeap.DownStep | asp3_dcre/kernel/time_event.c:215-251 | one step of the sift down |
| TimeEvents.CompareTrue | asp3_dcre/kernel/time_event.c:112-114 | the comparison of events in the heap is that of their true due times |
| TimeEvents.OverdueLess | asp3_dcre/kernel/time_event.c:585-642 | a call back makes the sum of overdue amounts smaller, whether or not the event comes again |
| TimeEvents.TimeEvents.constructor | asp3_dcre/kernel/time_event.c:152-161 | an empty heap, the clock at zero, the timer armed |
| TimeEvents.TimeEvents.Up | asp3_dcre/kernel/time_event.c:175-201 | ends with the heap in order and the links right, the members unchanged, and says whether the top is another |
| TimeEvents.TimeEvents.Down | asp3_dcre/kernel/time_event.c:215-251 | the same downwards |
| TimeEvents.TimeEvents.Insert | asp3_dcre/kernel/time_event.c:262-276 | adds exactly the one event |
| TimeEvents.TimeEvents.Delete | asp3_dcre/kernel/time_event.c:282-333 | removes exactly the one event, by repair up or down; the top is another only if it was the top |
| TimeEvents.TimeEvents.DeleteTop | asp3_dcre/kernel/time_event.c:339-366 | removes and returns the earliest event |
| TimeEvents.TimeEvents.UpdateCurrentEvttim | asp3_dcre/kernel/time_event.c:374-400 | the current time advances by the time elapsed, the furthest time is the maximum ever reached, and the order of the heap survives the move of the boundary |
| TimeEvents.TimeEvents.SetHrtEvent | asp3_dcre/kernel/time_event.c:421-451 | the interrupt is pending, or armed for the earliest event or the bound of the timer |
| TimeEvents.TimeEvents.Register | asp3_dcre/kernel/time_event.c:461-464 | registration without arming the timer, which stays armed in time unless the event is the earliest |
| TimeEvents.TimeEvents.TmevtbEnqueueReltim | asp3_dcre/kernel/time_event.c:475-495 | due a full step of the timer later than asked for, and the timer armed in time though it is touched only if the top changes |
| TimeEvents.TimeEvents.TmevtbDequeue | asp3_dcre/kernel/time_event.c:505-522 | removes the event; the timer is still armed in time |
| TimeEvents.TimeEvents.TmevtLefttim | asp3_dcre/kernel/time_event.c:552-575 | the true time left, not below zero |
| TimeEvents.TimeEvents.CheckAdjtim | asp3_dcre/kernel/time_event.c:532-542 | the comparisons of words say whether the earliest event is overdue by an adjustment or more, or the clock behind by one or more |
| TimeEvents.TimeEvents.AdjTim | asp3_dcre/kernel/time_manage.c:160-199 | refused exactly when an event is overdue, or the clock behind, by a second; otherwise the event time, the time elapsed aside, moves by just the adjustment, with the heap in order, the timer armed in time and every event registered, started and due as before |
| TimeEvents.TimeEvents.SetTim | asp3_dcre/kernel/time_manage.c:98-119 | from then on the system time runs on from the time set |
| TimeEvents.TimeEvents.LatencyMakesTimely | asp3_dcre/kernel/time_event.c:421-451 | if interrupts are served with bounded delay, the clock is always read in time |
| TimeEvents.TimeEvents.GetTim | asp3_dcre/kernel/time_manage.c:129-150 | the system time of the specification, in 64 bits |
| TimeEvents.TimeEvents.SignalRound | asp3_dcre/kernel/time_event.c:603-623 | a run of a reading and call backs, after which every event that was due by then is in the log with its due time, every other is due when it was, and nothing is due; cyclic events included, the loop ends |
| TimeEvents.TimeEvents.SignalTime | asp3_dcre/kernel/time_event.c:585-642 | a run of readings and call backs with the same effect for the last reading, the timer then armed for the earliest event; clock, system time and starts are otherwise untouched |
| TimeEvents.TimeEvents.CallEarliest | asp3_dcre/kernel/time_event.c:615-619 | the top of the heap is the earliest event of all, it is due, and what follows is its call back in the sense of the specification; less is overdue afterwards |
| TimeEvents.TimeEvents.CallCyclic | asp3_dcre/kernel/cyclic.c:404-427 | the next due time is one period after the last due time, so the k-th is the first plus k periods |
| TimeEvents.TimeEvents.StaCyc | asp3_dcre/kernel/cyclic.c:287-319 | a start in the sense of the specification, a phase ahead, whether started already or not; other events stay as they are |
| TimeEvents.TimeEvents.StaAlm | asp3_dcre/kernel/alarm.c:261-291 | likewise for an alarm; a time that is too long is refused and changes nothing |
| TimeEvents.TimeEvents.Stop | asp3_dcre/kernel/alarm.c:301-327 | a stop in the sense of the specification, with the clock read only if the timer has to be armed anew |
| TimeEvents.TimeEvents.CallBack | asp3_dcre/kernel/alarm.c:376-398 | an alarm called back is no longer started; a cyclic event is |
| DataQueueSpec.EveryDatumAccounted | asp3_dcre/kernel/dataqueue.c:199-332 | in every run of all calls, forced sends, timeouts, forced releases and reinitialization included, and by priority or by arrival: data leave in the order they entered, the buffer holds the rest, and what is dropped is the oldest datum of a full buffer |
| DataQueueSpec.OrderSurvives | asp3_dcre/kernel/dataqueue.c:452-809 | in every run without forced sends, whoever gives up or is released: what has come out and what is pending is among what has gone in, in the order it went in |
| DataQueueSpec.FirstInFirstOut | asp3_dcre/kernel/dataqueue.c:259-332 | in every run of sending and receiving alone, it is all that has gone in |
| DataQueueSpec.AlwaysLawful | asp3_dcre/kernel/dataqueue.c:452-809 | senders wait only for a full buffer, receivers only for an empty one with no sender, in every run |
| DataQueueSpec.SendIsPut | asp3_dcre/kernel/dataqueue.c:259-276 | sending is putting at the end of one unbounded queue, or handing over to the first receiver |
| DataQueueSpec.ReceiveIsTake | asp3_dcre/kernel/dataqueue.c:308-332 | receiving is taking from its front |
| DataQueueSpec.ForcedSendIsPut | asp3_dcre/kernel/dataqueue.c:286-298 | a forced send never blocks, and is a put at the end of the pending data, a full buffer having lost its oldest, exactly when no sender is blocked with another datum |
| DataQueueSpec.OvertakenSender | asp3_dcre/kernel/dataqueue.c:286-298 | a run in which a forced send overtakes a blocked sender |
| DataQueueSpec.EveryoneAnsweredOnce | asp3_dcre/kernel/dataqueue.c:259-809 | in every run of all calls, each task has been put to sleep as often as it has been answered, and once more if it waits still: no wake-up is lost or given twice |
| DataQueueSpec.ServedInTurn | asp3_dcre/kernel/dataqueue.c:259-332 | in every run, forced sends included: the first sender is released exactly when its datum goes into the buffer or out, the first receiver exactly when it is given a datum, everyone else only with an error |
| DataQueue.DataQueue.constructor | asp3_dcre/kernel/dataqueue.c:779-809 | an empty queue |
| DataQueue.DataQueue.EnqueueData | asp3_dcre/kernel/dataqueue.c:200-208 | adds at the end of the ring |
| DataQueue.DataQueue.ForceEnqueueData | asp3_dcre/kernel/dataqueue.c:218-231 | and drops the oldest if the ring is full |
| DataQueue.DataQueue.DequeueData | asp3_dcre/kernel/dataqueue.c:241-249 | takes the oldest |
| DataQueue.DataQueue.SendData | asp3_dcre/kernel/dataqueue.c:259-276 | to a receiver, into the ring, or not at all |
| DataQueue.DataQueue.ForceSendData | asp3_dcre/kernel/dataqueue.c:286-298 | likewise, always sent |
| DataQueue.DataQueue.ReceiveData | asp3_dcre/kernel/dataqueue.c:308-332 | from the ring, refilled by the first sender, or from the sender, as the specification has it; that the sender is then released is `DataQueueSpec.ServedInTurn` |
| DataQueue.DataQueue.SndDtq | asp3_dcre/kernel/dataqueue.c:452-488 | sends or waits |
| DataQueue.DataQueue.PsndDtq | asp3_dcre/kernel/dataqueue.c:498-531 | sends or times out |
| DataQueue.DataQueue.FsndDtq | asp3_dcre/kernel/dataqueue.c:592-626 | sends; refused for a queue without a buffer |
| DataQueue.DataQueue.RcvDtq | asp3_dcre/kernel/dataqueue.c:636-676 | receives or waits |
| DataQueue.DataQueue.PrcvDtq | asp3_dcre/kernel/dataqueue.c:686-714 | receives or times out |
| DataQueue.DataQueue.IniDtq | asp3_dcre/kernel/dataqueue.c:779-809 | empties the queue and releases all waiters |
| PriorityDataQueueSpec.OldestOfTheBest | asp3_dcre/kernel/pridataq.c:231-244 | in every run, of the buffered data in order of arrival, what is received has the best priority there is, and all that arrived earlier have a worse one |
| PriorityDataQueueSpec.BestComesFirst | asp3_dcre/kernel/pridataq.c:194-244 | the sorted list begins with the oldest of the best, and taking it away leaves the sorted list of the others |
| PriorityDataQueueSpec.AlwaysInserted | asp3_dcre/kernel/pridataq.c:254-309 | in every run the buffer is what comes of inserting, one after the other, the data that are there in order of arrival |
| PriorityDataQueueSpec.AlwaysLawful | asp3_dcre/kernel/pridataq.c:254-309 | sorted, never over capacity, and waiters only without cause to be served, in every run |
| PriorityDataQueueSpec.InsertPlace | asp3_dcre/kernel/pridataq.c:211-217 | a newcomer goes between the data not worse and the data worse than it, which all stay in place |
| PriorityDataQueueSpec.EveryoneAnsweredOnce | asp3_dcre/kernel/pridataq.c:254-309 | in every run of all calls, each task has been put to sleep as often as it has been answered, and once more if it waits still |
| PriorityDataQueueSpec.ServedInTurn | asp3_dcre/kernel/pridataq.c:254-309 | in every run, the first sender is released exactly when its datum takes the place that became free or goes out, the first receiver exactly when it is given a datum, everyone else only with an error |
| PriorityDataQueue.Spliced | asp3_dcre/kernel/pridataq.c:211-219 | redirecting one link puts the node into the list at that place |
| PriorityDataQueue.PriorityDataQueue.TakeNode | asp3_dcre/kernel/pridataq.c:199-206 | a node that is in neither list, within the capacity |
| PriorityDataQueue.PriorityDataQueue.FindPlace | asp3_dcre/kernel/pridataq.c:211-217 | where the walk stops, all before are not worse and the next one is |
| PriorityDataQueue.PriorityDataQueue.EnqueuePridata | asp3_dcre/kernel/pridataq.c:194-221 | the list of nodes stands for the sorted insertion; live and free nodes still partition those used |
| PriorityDataQueue.PriorityDataQueue.DequeuePridata | asp3_dcre/kernel/pridataq.c:231-244 | takes the first datum and gives its node back |
| PriorityDataQueue.PriorityDataQueue.SendPridata | asp3_dcre/kernel/pridataq.c:254-272 | to a receiver, into the list, or not at all |
| PriorityDataQueue.PriorityDataQueue.ReceivePridata | asp3_dcre/kernel/pridataq.c:282-309 | the first datum; the first sender's then goes in by its own priority |
| FixedPool.BlocksAreDisjoint | asp3_dcre/kernel/mempfix.c:136-137 | different blocks share no byte and lie in the pool |
| FixedPool.BlockOfAddress | asp3_dcre/kernel/mempfix.c:475-499 | dividing the offset finds the block, and exactly the addresses of blocks leave no remainder |
| FixedPool.FixedPool.GetMpfBlock | asp3_dcre/kernel/mempfix.c:182-198 | a block that was not allocated |
| FixedPool.FixedPool.GetMpf | asp3_dcre/kernel/mempfix.c:342-414 | a new block exactly if one is free, else the caller waits or times out |
| FixedPool.FixedPool.RelMpf | asp3_dcre/kernel/mempfix.c:475-523 | succeeds exactly for the address of an allocated block, which goes to the first waiter or becomes free |
| FixedPool.FixedPool.IniMpf | asp3_dcre/kernel/mempfix.c:533-562 | nothing is allocated and nobody waits |
| EventFlag.StayUnmet | asp3_dcre/kernel/eventflag.c:292-343 | whoever still waits after bits were set waits for a pattern that is not there |
| EventFlag.StayOrLeave | asp3_dcre/kernel/eventflag.c:292-343 | whoever leaves is answered once, whoever stays is not |
| EventFlag.FirstMetLeaves | asp3_dcre/kernel/eventflag.c:312-330 | with clearing, the first waiter whose wish is met leaves with the pattern, and nobody else |
| EventFlag.EachByItsWish | asp3_dcre/kernel/eventflag.c:312-330 | without clearing, each waiter leaves or stays by its own wish, in the order of the queue |
| EventFlag.EventFlag.CheckFlgCond | asp3_dcre/kernel/eventflag.c:181-192 | whether a wish is met, and all bits cleared if so and the attribute says so |
| EventFlag.EventFlag.SetFlg | asp3_dcre/kernel/eventflag.c:292-343 | exactly the tasks whose wishes are met are released, in order, with the pattern; with clearing only the first |
| EventFlag.EventFlag.ClrFlg | asp3_dcre/kernel/eventflag.c:353-379 | bits cleared; nobody gets to wait in vain |
| EventFlag.EventFlag.WaiFlg | asp3_dcre/kernel/eventflag.c:389-473 | parameter error, illegal use, immediate success, timeout or waiting |
| EventFlag.EventFlag.IniFlg | asp3_dcre/kernel/eventflag.c:541-568 | initial pattern, waiters released |
| Waiters.EnrollPlace | asp3_dcre/kernel/wait.c:142-150 | by priority a newcomer waits behind its equals and ahead of the worse |
| Waiters.RefuseAll | asp3_dcre/kernel/wait.c:187-197 | on reinitialization every waiter is answered once, in the order of the queue |
| Ring.Pushed | asp3_dcre/kernel/dataqueue.c:200-208 | writing at the tail appends to the entries |
| Ring.Popped | asp3_dcre/syssvc/tSerialPortMain.c:361-393 | moving the head drops the oldest |
| SerialProtocol.AlwaysLawful | asp3_dcre/syssvc/tSerialPortMain.c:265-458 | in every interleaving there is one send token, free or with one writer or in the full buffer, likewise one for receiving, and data leave and arrive in order |
| SerialProtocol.NeverOverrun | asp3_dcre/syssvc/tSerialPortMain.c:265-393 | who may put a character finds room, who may get one finds one |
| SerialProtocol.AlwaysCrLf | asp3_dcre/syssvc/tSerialPortMain.c:316-356 | with conversion on, a call writes its text with a carriage return before every line feed |
| SerialProtocol.PutLaw | asp3_dcre/syssvc/tSerialPortMain.c:265-311 | a writer keeps the token unless it has filled the buffer |
| SerialProtocol.ReceiveLaw | asp3_dcre/syssvc/tSerialPortMain.c:556-627 | the callback for a received character gives the receive token exactly if the buffer was empty |
| SerialProtocol.SilentWhileStopped | asp3_dcre/syssvc/tSerialPortMain.c:518-592 | in every run, from the time the other side stops us until it lets us go on, no data go out, whatever is written and whatever callbacks there are |
| SerialProtocol.StoppedIsKnown | asp3_dcre/syssvc/tSerialPortMain.c:556-592 | in every run, whether sending is stopped is what the characters received say |
| SerialProtocol.CallbackSends | asp3_dcre/syssvc/tSerialPortMain.c:518-551 | in every run, the callback for sending puts out the flow character that is due; else, unless we are stopped, just the first character of the buffer; else nothing |
| SerialProtocol.DrainSends | asp3_dcre/syssvc/tSerialPortMain.c:571-592 | when sending is resumed, as many characters go out as the hardware takes in a row, from the front of the buffer |
| SerialProtocol.ReceivedIsKept | asp3_dcre/syssvc/tSerialPortMain.c:556-627 | in every run, a received character is stored unless it is flow control or the buffer is full |
| SerialProtocol.AlwaysHeld | asp3_dcre/syssvc/tSerialPortMain.c:376-389 | in every run with flow control of receiving, the other side is held from when three quarters of the buffer are in use until half of it is free |
| SerialProtocol.NextTold | asp3_dcre/syssvc/tSerialPortMain.c:376-389 | a step keeps what the other side is told last in agreement with what we take it to know exactly if no flow character overtakes another that is due |
| SerialProtocol.AlwaysTold | asp3_dcre/syssvc/tSerialPortMain.c:518-531 | so it stays in every run without such a step |
| SerialProtocol.StopOvertaken | asp3_dcre/syssvc/tSerialPortMain.c:380-386 | a run with one, after which the other side stands stopped with our buffer empty |
| SerialPort.SerialPort.WriteChar | asp3_dcre/syssvc/tSerialPortMain.c:265-311 | the locked section on the ring buffer is the step of the protocol |
| SerialPort.SerialPort.ReadChar | asp3_dcre/syssvc/tSerialPortMain.c:361-393 | likewise, with the other side allowed to send again when half the buffer is free |
| SerialPort.SerialPort.ReadySend | asp3_dcre/syssvc/tSerialPortMain.c:518-551 | the callback on the ring buffer is the step of the protocol; what goes out and when is `SerialProtocol.CallbackSends` and `SilentWhileStopped` |
| SerialPort.SerialPort.ReadyReceive | asp3_dcre/syssvc/tSerialPortMain.c:556-627 | flow control, overflow and storing of a received character |
| SerialPort.SerialPort.Resume | asp3_dcre/syssvc/tSerialPortMain.c:571-592 | the loop that empties the buffer while the hardware takes characters |
| SerialPort.SerialPort.constructor | asp3_dcre/syssvc/tSerialPortMain.c:56-66 | empty buffers, the send token free and the receive token not |
| SparseMemory.OneBlock | asp3_dcre/cfg/SRecord.rb:109-118 | bytes stored without a gap are in one block, so that looking at single blocks suffices |
| SparseMemory.SparseMemory.GetData | asp3_dcre/cfg/SRecord.rb:109-118 | the bytes, exactly if all are stored |
| SparseMemory.SparseMemory.SetData | asp3_dcre/cfg/SRecord.rb:121-144 | raises exactly if a stored block is strictly inside; else the memory is the old one with the data over it, in blocks that do not touch |
| SparseMemory.SparseMemory.Load | asp3_dcre/cfg/SRecord.rb:54-106 | succeeds exactly if no run of records goes round an island, and then every address has the byte of the last record that covers it |
| SparseMemory.SwallowedIsIsland | asp3_dcre/cfg/SRecord.rb:121-144 | a block strictly inside is, byte by byte, a stored run between two holes of the new range |
| SparseMemory.AscendingJoins | asp3_dcre/cfg/SRecord.rb:54-106 | a file in ascending order is always read |
| SparseMemory.SurroundedRecord | asp3_dcre/cfg/SRecord.rb:121-144 | three records that make reading fail |
| SparseMemory.ExtendedView | asp3_dcre/cfg/SRecord.rb:128-133 | appending the rest of a block run into changes no byte |
| SparseMemory.RewrittenView | asp3_dcre/cfg/SRecord.rb:134-140 | writing into a block begun earlier changes no byte outside the data |

## Left out

- Creation and deletion of objects at run time (`acre_*`, `del_*`) and the error code for objects that do not exist: all objects are there from the start; deletion releases waiters the way reinitialization does.
- Context switching, the CPU lock and the interrupt controller: calls are atomic steps and a dispatch is an assignment.
- `TSK_SELF`, argument macros for pointers and alignment, `can_wup`, `ref_*` and `get_*` calls, trace logs, version and notification tables: plumbing.
- The encoding of task states in bits: a state is a datatype value. The ready bitmap is a number whose bits are set and cleared by arithmetic.
- The queues inside the class `Kernel.Kernel` are sequences; that the linked rings implement such sequences is proved in `Queues`, and the two are not joined in one class.
- The time events of waiting tasks are a set in `Kernel.Kernel`; the heap that implements it is in `TimeEvents`, and a time event of the kernel model may come up at any time.
- The tasks that wait for data queues, memory pools and event flags keep their priority while they wait; how priorities move waiting tasks is proved in the kernel model for mutexes and semaphores. Calls on these objects that end with a dispatch, an error of context or a termination request behave as they do for semaphores and are not repeated.
- Priority data queues: the calls `psnd`, `prcv`, `ini` and giving up are steps of `PriorityDataQueueSpec` only.
- KernelControl.ErrorsHaveReasons: when there are reasons for several errors, which of them the answer names is said by `KernelSpec` alone.
- Event flag patterns are sets of bits.
- TimeEvents.TimeEvents.SignalTime: takes the readings of the timer as a list and may use it up; the code loops for as long as something falls due while it works.
- TimeEvents.TimeEvents.SignalRound: no handler does anything between two call backs of a round. The code unlocks the CPU there, and handlers may start and stop events and read or adjust the clock; the theorems of `TimeSpec` hold of runs with any such steps in between, and the methods of the class may be called between two `CallEarliest`, but no method of the class performs a round with them.
- Time-outs of waiting tasks are started and stopped like alarms; that the event and the wait belong together is proved in the kernel model.
- 64-bit timer counters (`USE_64BIT_HRTCNT`).
- Echo, opening and closing of the serial port and its control calls: the token law is about one session. Semaphore calls of the driver never fail for other reasons than a timeout or a forced release.
- Parsing of the hexadecimal text of S-records, and data of an odd number of digits; bytes are numbers.
- The hash order of the S-record blocks: blocks are visited in the order of a sequence, which may be any.
