# Verification of the TOPPERS/ASP kernel and its serial driver

This project models the target-independent part of the TOPPERS/ASP real-time kernel, with the
serial interface driver, and proves properties of the model. The kernel implements the
standard profile of the uITRON4.0 specification (task management and task-dependent
synchronization, sections 4.1 and 4.2; semaphores, event flags and data queues, sections 4.4.1
to 4.4.3; fixed-sized memory pools, section 4.6.1; system time, cyclic and alarm handlers,
sections 4.7.1 to 4.7.3; system state, section 4.8) and adds priority data queues.

`dafny verify dfyconfig.toml` checks everything.

## How it is built

Every piece exists twice. The **variables** of the kernel are fields of classes, and methods
change them step by step as the C functions do: an array that is a heap with a moving hole and
back-indices, a bitmap, a cached best task, a free list linked through an array of indices, a
list of cells linked by pointers, ring buffers. The **state** is a value (`KernelState.State`),
and what each service call, callback and interrupt does to it is a function (`KernelSpec`).
Each method is proved to change the value of its variables as the function says, so that all
theorems about the functions hold of it.

A step is what happens between locking and unlocking the CPU. A call that has to wait ends its
step at `dispatch()`; what it returns later is the error code that the end of the wait wrote into
`WINFO`. `dispatch()` is `p_runtsk := p_schedtsk`; the exit of an interrupt handler dispatches if
`reqflg` is set.

- **Time**: `WordTime`, `SystemTime` (wrap-around comparison, exact clock), `HeapOrder`,
  `HeapLinks`, `TimeEvent` (the heap), `Handlers` (alarm and cyclic handlers), `SignalTime` (the
  drain loop, with arbitrary calls of interrupt handlers after every callback), `Drain` and
  `Ticks` (what ticks do over runs), `Timeouts` (from registration to firing).
- **Tasks**: `KernelState`, `KernelSpec`, `KernelQueues`, `KernelInv`, `Capacity`, `KernelRuns`
  (the invariant, every step, every run); `Bitmap`, `ReadyQueue`, `Kernels`, `KernelFacts`,
  `Task`, `WaitQueue`, `Waiting`, `TaskManage`, `TaskSync`, `SysManage`, `Startup` (the code).
- **Meaning**: the functions say what a call does; what that comes to is said without them.
  `TaskFates` (which calls are refused, and what becomes of each field of each task), `Requests`
  (every wakeup and activation is answered once), `Precedence` and `WhoRuns` (who comes first, and
  who runs), `Dispatching` (flags and the running task), `TaskRuns` (waits and suspension),
  `HandlerRuns` (when handlers are on), `FlagBits` and `Outcomes` (calls on objects), `SerialOrder`
  (the data of readers and writers).
- **Objects**: `WaitSteps` and `ObjectSteps` (what an object can count on, whatever else the
  kernel does), `ObjectCalls`, `Semaphores`, `EventFlags`, `DataQueues`, `DataQueueRuns`,
  `DataFlows`, `DataBags`, `ForcedSends`, `DataQueue`, `PriDataQueue`, `MemPools`, `MemPool`,
  `LateReturns`, `DoubleReturns`. Each object is proved in runs in which all other parts of the
  kernel do what they like; `Worlds` and `WorldRuns` put the kernel and all objects together,
  from start-up on.
- **Serial driver**: `SerialTokens` (the protocol, for any number of tasks), `SerialPort` (the
  buffers).
- **Pointers**: `Queues` shows that the pointer operations of queue.h are the sequence operations
  that the rest of the project uses, `QueueLoops` the same of the two loops that walk along a
  queue; `Rings` and `Subsequence` are shared helpers.

Parameters are the word width of `EVTTIM`, `TIC_NUME` and `TIC_DENO`, the number of tasks,
handlers and objects, and everything else the configurator generates (`KernelState.Config`). It is
assumed to be consistent: identifiers are valid, priorities are in range, `cyctim > 0`, the heap
array has one element for each time event block, `torder_table` is a permutation, `isemcnt <=
maxsem`, and 2^N exceeds the largest relative time by more than two ticks.

## What turned out not to hold

- A task that has the send or the receive token of a port (between the return of `wai_sem` and
  the next `sig_sem`) and is terminated takes the token with it (`SerialTokens.SafeIff`,
  `SerialTokens.TerminateRun`).
- A reader with echo whose wait for the send buffer is broken while characters are left in the
  receive buffer loses the receive token (`SerialTokens.SafeIff`, `SerialTokens.EchoBreakRun`).
- `serial_get_chr` on a full send buffer makes room without signalling the semaphore
  (`SerialTokens.SafeIff`, `SerialTokens.StealRun`).
- In all three cases nobody can write, or nobody can read, until the port is closed
  (`SerialTokens.LostForever`); and these are the only ones.
- A forced send while tasks wait to send overtakes them, so that the order of delivery is the
  order of sending only if nobody waits at that moment (`DataFlows.ForceKeepsOrderIff`,
  `ForcedSends.ForcedRun`).
- `rel_mpf` makes its checks before it locks the CPU. A task that is preempted in between puts a
  block that meanwhile has been returned (or the pool initialised) into the free list, or hands it
  to a waiting task, even if another task has got it again (`LateReturns.LateReturnIff`,
  `DoubleReturns.TwoHolders`). It does not happen if tasks return only what they hold and pools are
  not initialised in the middle of a return (`LateReturns.ProperUse`).

## Model

| member | source | states |
|---|---|---|
| `WordTime.OrderInWindow` | asp-arm-athrill/kernel/time_event.c:64-65 | for times within one window from min_time, comparing (t - min_time) mod 2^N agrees with comparing the unbounded times |
| `WordTime.WindowIsExact` | asp-arm-athrill/kernel/time_event.c:58-65 | that window cannot be wider: the comparison is right for all pairs of times in a range if and only if the range is no longer than 2^N |
| `WordTime.RebaseKeepsOrder` | asp-arm-athrill/kernel/time_event.c:391-394 | moving min_time to current_time changes the order of no two times that are still in the window |
| `TimeEvent.TimeEvents.ClockExact` | asp-arm-athrill/kernel/time_event.c:361-378 | however often next_time and next_subtime were advanced: next_subtime < TIC_DENO, and next_time * TIC_DENO + next_subtime is exactly (n + 1) * TIC_NUME after n ticks, on words as long as they have not wrapped, and on the number the word stands for after that |
| `SystemTime.NextTick` | asp-arm-athrill/kernel/time_event.c:372-377 | one tick adds TIC_NUME % TIC_DENO to the fraction and carries at most one millisecond |
| `SystemTime.BaseBounds` | asp-arm-athrill/kernel/time_event.h:113-123 | base_time is always after current_time and not before next_time, by less than a tick and two milliseconds |
| `TimeEvent.TimeEvents.TmevtUp` | asp-arm-athrill/kernel/time_event.c:124-151 | the hole moves up to where the time belongs; all other nodes keep heap order and their back-indices |
| `TimeEvent.TimeEvents.TmevtDown` | asp-arm-athrill/kernel/time_event.c:164-201 | the same downwards, with the earlier child chosen |
| `TimeEvent.TimeEvents.Insert` | asp-arm-athrill/kernel/time_event.c:213-229 | heap order and back-indices are kept, and the registered events grow by exactly this one |
| `TimeEvent.TimeEvents.CloseEnd` | asp-arm-athrill/kernel/time_event.c:238-257 | taking the last node out of use leaves a heap of all other events with a hole where the deleted one was |
| `TimeEvent.TimeEvents.Settle` | asp-arm-athrill/kernel/time_event.c:259-287 | the last node goes up or down to where it belongs, whichever is needed |
| `TimeEvent.TimeEvents.Delete` | asp-arm-athrill/kernel/time_event.c:238-287 | deleting any registered event, wherever it is, keeps the heap and removes exactly this event |
| `TimeEvent.TimeEvents.DeleteTop` | asp-arm-athrill/kernel/time_event.c:294-320 | removes exactly the event at the root |
| `TimeEvent.TimeEvents.TopIsEarliest` | asp-arm-athrill/kernel/time_event.c:385-386 | the event at the root is registered and none is earlier |
| `TimeEvent.TimeEvents.Enqueue` | asp-arm-athrill/kernel/time_event.h:157-165 | registers an event for a relative time counted from base_time |
| `TimeEvent.TimeEvents.EnqueueEvttim` | asp-arm-athrill/kernel/time_event.h:173-179 | registers an event for a given event time |
| `TimeEvent.TimeEvents.BaseFits` | asp-arm-athrill/kernel/time_event.h:119-123 | base_time plus any permitted relative time stays in the window of the comparison |
| `TimeEvent.TimeEvents.LeftTime` | asp-arm-athrill/kernel/time_event.c:327-342 | 0 if the event is due at the next tick's base, else the distance from base_time: right after registration for d ms it is d |
| `TimeEvent.TimeEvents.AdvanceTime` | asp-arm-athrill/kernel/time_event.c:361-378 | both variants of the clock update make the time variables those of one more tick |
| `TimeEvent.TimeEvents.TopIsDue` | asp-arm-athrill/kernel/time_event.c:385 | the loop condition holds if and only if some registered event is due |
| `TimeEvent.TimeEvents.Rebase` | asp-arm-athrill/kernel/time_event.c:391-394 | with nothing due, min_time can become current_time and the heap stays a heap |
| `TimeEvent.TimeEvents.constructor` | asp-arm-athrill/kernel/time_event.c:101-111 | an empty heap at tick 0 |
| `Bitmap.Search` | asp-arm-athrill/kernel/task.c:167-182 | returns the lowest bit that is set |
| `Bitmap.SetClear` | asp-arm-athrill/kernel/task.c:207-220 | setting or clearing the bit of one priority leaves all other bits alone |
| `ReadyQueue.SchedIs` | asp-arm-athrill/kernel/task.c:227-234 | the task that should run is the head of the first ready queue that is not empty, or none |
| `ReadyQueue.Update` | asp-arm-athrill/kernel/task.c:247-295 | how bitmap and best priority follow the change of one ready queue |
| `Task.SearchSchedtsk` | asp-arm-athrill/kernel/task.c:227-234 | finds the head of the lowest-numbered non-empty ready queue through the bitmap |
| `Task.MakeRunnable` | asp-arm-athrill/kernel/task.c:247-260 | appends to the ready queue; the incrementally updated best task is the best one; true iff it changed and dspflg holds |
| `Task.MakeNonRunnable` | asp-arm-athrill/kernel/task.c:274-295 | the same for removal; the best task changes iff it was the one removed |
| `KernelInv.RestartIsFresh` | asp-arm-athrill/kernel/task.c:304-329 | a task that has ended is as after start-up: dormant (or, if that was requested, runnable and last in the ready queue), of its initial priority, without requests, in no other queue and without a timer; no other task moves |
| `KernelInv.ActivateOrEndFirst` | asp-arm-athrill/kernel/task_manage.c:124-330 | whether a task is activated before it is ended, which queues the request, or after it makes no difference |
| `Task.MakeActive` | asp-arm-athrill/kernel/task.c:322-329 | a dormant task becomes runnable at the end of its ready queue |
| `Task.MoveReady` | asp-arm-athrill/kernel/task.c:347-377 | a runnable task moves to the end of another ready queue; all four ways of updating the best task are right |
| `Task.ChangePriority` | asp-arm-athrill/kernel/task.c:347-390 | control block and queues are those of the specified change of priority; true iff the best task changed and dspflg holds |
| `Task.RotateReadyQueue` | asp-arm-athrill/kernel/task.c:402-417 | the ready queue is rotated by one; true iff the best task changed and dspflg holds |
| `KernelFacts.ChangePriorityOrder` | asp-arm-athrill/kernel/task.c:362-389 | after a change of priority a task is last in its new ready queue, or behind equals in a TA_TPRI wait queue with the others' order untouched; no other wait queue is reordered |
| `SysManage.TexReturn` | asp-arm-athrill/kernel/task.c:449-464 | after a task exception routine the flags are as they were, and a dispatch that became necessary is made |
| `Startup.InitializeTask` | asp-arm-athrill/kernel/task.c:107-135 | tasks with TA_ACT are activated in the order of torder_table, with bitmap and best task in step |
| `KernelQueues.InsertTpriStable` | asp-arm-athrill/kernel/wait.h:59-72 | a task goes behind all that are not worse and before all that are |
| `KernelQueues.InsertTpriSorted` | asp-arm-athrill/kernel/wait.h:59-72 | a sorted wait queue stays sorted and gains exactly this task |
| `WaitQueue.QueueInsertTpri` | asp-arm-athrill/kernel/wait.h:59-72 | the search loop inserts at that place |
| `WaitQueue.WobjChangePriority` | asp-arm-athrill/kernel/wait.h:270-277 | only TA_TPRI queues are reordered, and there only the task whose priority changed |
| `Waiting.MakeWait` | asp-arm-athrill/kernel/wait.h:81-87 | the running task leaves its ready queue and has no timer |
| `Waiting.MakeNonWait` | asp-arm-athrill/kernel/wait.h:106-127 | a waiting task becomes runnable, or suspended only |
| `Waiting.WaitDequeueWobj` | asp-arm-athrill/kernel/wait.h:135-141 | a task that waits on an object leaves that object's queue |
| `Waiting.WaitDequeueTmevtb` | asp-arm-athrill/kernel/wait.h:149-155 | its time event is cancelled if it has one |
| `Waiting.MakeWaitTmout` | asp-arm-athrill/kernel/wait.c:55-69 | the running task leaves its ready queue, and its timer is registered if there is a timeout |
| `Waiting.WaitComplete` | asp-arm-athrill/kernel/wait.c:78-84 | the wait ends with E_OK, the timer is out of the heap before the error code is written |
| `Waiting.TimeOut` | asp-arm-athrill/kernel/wait.c:93-107 | the wait ends with E_TMOUT and the task is out of the object's queue; a dispatch is requested iff needed |
| `Waiting.TimeOutOk` | asp-arm-athrill/kernel/wait.c:112-125 | the delay of dly_tsk ends with E_OK |
| `Waiting.WaitRelease` | asp-arm-athrill/kernel/wait.c:134-141 | the wait ends with E_RLWAI, out of queue and heap |
| `Waiting.WobjQueueInsert` | asp-arm-athrill/kernel/wait.c:151-160 | the running task enters the wait queue in the order of the object |
| `Waiting.WobjMakeWait` | asp-arm-athrill/kernel/wait.c:167-188 | the running task waits on an object as specified, in its queue and with its timer |
| `Waiting.InitWaitQueue` | asp-arm-athrill/kernel/wait.c:196-211 | every waiting task returns with E_DLT and the queue is empty; a dispatch is needed if the result says so, and not needed if it does not |
| `TaskManage.ActTsk` | asp-arm-athrill/kernel/task_manage.c:124-154 | activates a dormant task, queues one request, or E_QOVR; keeps the kernel invariant |
| `TaskManage.IActTsk` | asp-arm-athrill/kernel/task_manage.c:163-193 | the same from an interrupt handler, with a dispatch request instead of a dispatch; keeps the kernel invariant |
| `TaskManage.CanAct` | asp-arm-athrill/kernel/task_manage.c:202-221 | returns and clears the queued request; keeps the kernel invariant |
| `TaskManage.ExtTsk` | asp-arm-athrill/kernel/task_manage.c:230-278 | the running task ends with dispatching enabled, and starts again if that was requested; keeps the kernel invariant |
| `TaskManage.TerTsk` | asp-arm-athrill/kernel/task_manage.c:287-330 | any other task ends, out of queue and heap; ignoring the result of make_non_runnable loses no dispatch; keeps the kernel invariant |
| `TaskManage.ChgPri` | asp-arm-athrill/kernel/task_manage.c:339-369 | the new priority, with E_PAR, E_OBJ and the initial priority for 0; keeps the kernel invariant |
| `TaskManage.LeaveAll` | asp-arm-athrill/kernel/task_manage.c:304-316 | a task that is not the best one leaves whatever it is linked in without changing the best task |
| `TaskSync.SlpTsk` | asp-arm-athrill/kernel/task_sync.c:140-166 | takes a queued wakeup or sleeps forever; keeps the kernel invariant |
| `TaskSync.TslpTsk` | asp-arm-athrill/kernel/task_sync.c:175-206 | the same with a timeout, polling included; keeps the kernel invariant |
| `TaskSync.WupTsk` | asp-arm-athrill/kernel/task_sync.c:215-248 | wakes a sleeping task, queues one request, or E_QOVR or E_OBJ; keeps the kernel invariant |
| `TaskSync.IWupTsk` | asp-arm-athrill/kernel/task_sync.c:257-290 | the same from an interrupt handler; keeps the kernel invariant |
| `TaskSync.CanWup` | asp-arm-athrill/kernel/task_sync.c:299-323 | returns and clears the queued wakeup; keeps the kernel invariant |
| `TaskSync.RelWai` | asp-arm-athrill/kernel/task_sync.c:332-358 | breaks any wait; keeps the kernel invariant |
| `TaskSync.IRelWai` | asp-arm-athrill/kernel/task_sync.c:367-393 | the same from an interrupt handler; keeps the kernel invariant |
| `TaskSync.SusTsk` | asp-arm-athrill/kernel/task_sync.c:402-447 | suspends a runnable or waiting task, with its four error cases; keeps the kernel invariant |
| `TaskSync.RsmTsk` | asp-arm-athrill/kernel/task_sync.c:456-495 | resumes a suspended task, waiting or not; keeps the kernel invariant |
| `TaskSync.DlyTsk` | asp-arm-athrill/kernel/task_sync.c:504-529 | the running task waits for a time and returns with E_OK; keeps the kernel invariant |
| `SysManage.RotRdq` | asp-arm-athrill/kernel/sys_manage.c:179-200 | rotates a ready queue and dispatches if the best task changed; keeps the kernel invariant |
| `SysManage.IRotRdq` | asp-arm-athrill/kernel/sys_manage.c:209-228 | the same from an interrupt handler; keeps the kernel invariant |
| `SysManage.DisDsp` | asp-arm-athrill/kernel/sys_manage.c:395-412 | no dispatch any more; keeps the kernel invariant |
| `SysManage.EnaDsp` | asp-arm-athrill/kernel/sys_manage.c:421-443 | dispatching again, if the interrupt mask permits, with the dispatch that is due made at once; keeps the kernel invariant |
| `SysManage.ChgIpm` | asp-arm-athrill/kernel/interrupt.c:194-227 | ipmflg and dspflg follow the mask, and a deferred dispatch is made; keeps the kernel invariant |
| `SysManage.ExitInt` | asp-arm-athrill/arch/arm_gcc/common/core_support.S:313-404 | the exit of the outermost handler dispatches iff it was requested and is possible, so that the best task runs; keeps the kernel invariant |
| `SysManage.EnterInt` | asp-arm-athrill/arch/arm_gcc/common/core_support.S:313-404 | a handler may be entered in any state between steps |
| `Handlers.StaAlm` | asp-arm-athrill/kernel/alarm.c:138-201 | starts or restarts an alarm: exactly one registration, counted from now |
| `Handlers.StpAlm` | asp-arm-athrill/kernel/alarm.c:210-263 | cancels it if it runs |
| `Handlers.EnqueueCyc` | asp-arm-athrill/kernel/cyclic.c:100-106 | evttim is the registered time, as a word |
| `Handlers.StaCyc` | asp-arm-athrill/kernel/cyclic.c:139-164 | starts or restarts a cyclic handler with its phase |
| `Handlers.StpCyc` | asp-arm-athrill/kernel/cyclic.c:173-195 | stops it and cancels its registration |
| `Handlers.NextPeriod` | asp-arm-athrill/kernel/cyclic.c:238-250 | the handler is registered again one period after the time it was due, not after now |
| `Startup.InitializeCyclic` | asp-arm-athrill/kernel/cyclic.c:113-130 | exactly the handlers with TA_STA are registered, for their phases |
| `Startup.StartKernel` | asp-arm-athrill/kernel/startup.c:83-112 | start-up leads to the state from which all runs start, and that state is in order |
| `SignalTime.DrainHeap` | asp-arm-athrill/kernel/time_event.c:380-389 | the loop ends whatever interrupt handlers call in between; then nothing is due |
| `SignalTime.SignalTime` | asp-arm-athrill/kernel/time_event.c:351-397 | a tick is its head, turns of the loop with calls in between, and its tail, and keeps the kernel invariant |
| `SignalTime.FireTop` | asp-arm-athrill/kernel/time_event.c:385-389 | one turn takes out an earliest due event and runs its callback up to where interrupts are let in |
| `SignalTime.Window` | asp-arm-athrill/kernel/cyclic.c:252-266 | while interrupts are let in, handlers may make any calls on tasks, ready queues and alarms, and end the waits of any tasks in any wait queue |
| `SignalTime.Serve` | asp-arm-athrill/kernel/eventflag.c:194-210 | tasks anywhere in a wait queue are served one by one, with a dispatch request for each that needs one |
| `SignalTime.TickIsRun` | asp-arm-athrill/kernel/time_event.c:351-397 | a tick is part of a run of the kernel |
| `Drain.FiresInOrder` | asp-arm-athrill/kernel/time_event.c:385-389 | events fire in the order of their times, and only when due |
| `Drain.EveryDueEventFires` | asp-arm-athrill/kernel/time_event.c:385-389 | every event due when the loop starts fires, unless a call let in cancels or restarts it |
| `Drain.NotDueDoesNotFire` | asp-arm-athrill/kernel/time_event.c:385-389 | a timeout or alarm that is not due does not fire, nor one that has been restarted in the same tick |
| `Drain.FiresOnce` | asp-arm-athrill/kernel/time_event.c:385-389 | a timeout or alarm fires at most once in a tick |
| `Drain.IntOpCalm` | asp-arm-athrill/kernel/time_event.c:385-389 | calls let in register nothing that is due in the same tick |
| `Ticks.CyclicFires` | asp-arm-athrill/kernel/cyclic.c:243-250 | the k-th activation of a running cyclic handler is due k periods after the first and never happens earlier |
| `Ticks.CyclicHandlerOncePerPeriod` | asp-arm-athrill/kernel/cyclic.c:243-250 | between ticks a running cyclic handler has been activated exactly once for each k with first + k * cyctim <= now, even if several fall in one tick |
| `Ticks.StepKept` | asp-arm-athrill/kernel/time_event.h:157-193 | no step changes the registration of a time event but those that start, stop or fire it |
| `Timeouts.Registers` | asp-arm-athrill/kernel/time_event.h:149-165 | a delay, a timeout, an alarm or a cyclic handler that is started for d ms at tick n is registered for base_time + d |
| `Timeouts.FiresInItsTick` | asp-arm-athrill/kernel/time_event.c:380-389 | over any run that leaves it alone, a registered time event fires in the first tick that reaches its time, and as long as it has not fired no tick that is over has reached it |
| `Timeouts.TimeoutOnTime` | asp-arm-athrill/kernel/time_event.c:361-389 | from the call to the firing: between ticks it has fired if and only if base_time + d has been reached; the tick it fires in comes at least d ms, and the one before it less than d + 1 ms, after tick n + 1 in exact time |
| `Timeouts.FireEnds` | asp-arm-athrill/kernel/wait.c:93-125 | when it fires, the task no longer waits and gets E_TMOUT, or E_OK after a delay; an alarm is off |
| `KernelRuns.StepKeeps` | asp-arm-athrill/kernel/task.h:211-233 | every service call, timer callback, tick and interrupt keeps the kernel invariant |
| `KernelRuns.ReachableStates` | asp-arm-athrill/kernel/task.h:211-233 | in every reachable state: each task is in exactly the queue its state says, once; state bits and queued requests fit; dspflg is ipmflg and not disdsp; the best task runs or its dispatch is requested; TA_TPRI queues are sorted; exactly the waiting tasks with timeout and the running handlers have time events; between ticks none is due |
| `KernelRuns.BootOk` | asp-arm-athrill/kernel/task.c:107-135 | the state after start-up satisfies the invariant |
| `KernelInv.TerminateKeeps` | asp-arm-athrill/kernel/task_manage.c:304-319 | the end of a task, whatever it was doing, keeps queues, timers and state bits in order |
| `KernelInv.MakeWaitKeeps` | asp-arm-athrill/kernel/task.h:127-163 | waiting with the required settings keeps the invariant |
| `KernelInv.SchedRunnable` | asp-arm-athrill/kernel/task.c:69-72 | the task that should run can run |
| `KernelInv.TaskEndKeeps` | asp-arm-athrill/kernel/task.c:64-92 | a step from a task that ends with a dispatch leaves the best task running |
| `Capacity.FewTimers` | asp-arm-athrill/kernel/time_event.h:125-130 | there are never more time events than tasks, cyclic handlers and alarm handlers |
| `Capacity.RoomFor` | asp-arm-athrill/kernel/time_event.c:213-216 | so the heap array has room whenever an event is registered |
| `WaitSteps.ForeignStep` | asp-arm-athrill/kernel/task.h:142-154 | a step that is no call on an object changes its wait queue only by ending waits with E_TMOUT or E_RLWAI or by terminating tasks, and keeps the order of a FIFO queue |
| `ObjectSteps.ForeignLeaves` | asp-arm-athrill/kernel/wait.c:78-141 | what other steps leave of a wait queue: nobody there got what it waits for; the others wait on |
| `ObjectSteps.HandOverFacts` | asp-arm-athrill/kernel/wait.c:78-84 | the first waiting task leaves the queue with E_OK; all other tasks and wait queues are untouched |
| `ObjectSteps.JoinFacts` | asp-arm-athrill/kernel/wait.c:151-188 | the running task joins the queue, last if it is FIFO; all other tasks and wait queues are untouched |
| `ObjectSteps.FlushFacts` | asp-arm-athrill/kernel/wait.c:196-211 | all tasks of the queue return with E_DLT; all other tasks and wait queues are untouched |
| `ObjectSteps.EndEachFacts` | asp-arm-athrill/kernel/eventflag.c:195-210 | several tasks, anywhere in the queue, are served; the others wait on in their order |
| `Semaphores.Semaphore.constructor` | asp-arm-athrill/kernel/semaphore.c:128-140 | the count is isemcnt |
| `Semaphores.Semaphore.SigSem` | asp-arm-athrill/kernel/semaphore.c:149-222 | hands over, counts up, or E_QOVR (sig_sem and isig_sem) |
| `Semaphores.Semaphore.TwaiSem` | asp-arm-athrill/kernel/semaphore.c:231-335 | takes a resource, polls, or waits (wai_sem and twai_sem) |
| `Semaphores.Semaphore.PolSem` | asp-arm-athrill/kernel/semaphore.c:268-292 | takes a resource or E_TMOUT |
| `Semaphores.Semaphore.IniSem` | asp-arm-athrill/kernel/semaphore.c:344-368 | waiting tasks return with E_DLT, the count is isemcnt |
| `Semaphores.SemStepKeeps` | asp-arm-athrill/kernel/semaphore.c:149-368 | in every state 0 <= semcnt <= maxsem, and nobody waits while semcnt > 0, whatever else happens in the kernel |
| `Semaphores.Conservation` | asp-arm-athrill/kernel/semaphore.c:149-335 | over any run since initialisation: semcnt + resources taken = isemcnt + signals accepted, where a blocked call counts iff its wait ended with E_OK |
| `Semaphores.WaitEndsWithResource` | asp-arm-athrill/kernel/semaphore.c:161-168 | a blocked call gets E_OK iff an accepted signal is handed to it, and it is the first in the queue |
| `EventFlags.EventFlag.constructor` | asp-arm-athrill/kernel/eventflag.c:136-148 | the pattern is iflgptn |
| `EventFlags.EventFlag.CheckFlgCond` | asp-arm-athrill/kernel/eventflag.c:157-169 | true iff some bit (TWF_ORW) or all bits (TWF_ANDW) waited for are in the pattern; reports the pattern, and clears it if TA_CLR |
| `EventFlags.EventFlag.WakeLoop` | asp-arm-athrill/kernel/eventflag.c:194-210 | the loop wakes up the specified tasks in queue order and stops at the first one if TA_CLR |
| `EventFlags.EventFlag.SetFlg` | asp-arm-athrill/kernel/eventflag.c:178-267 | set_flg and iset_flg |
| `EventFlags.EventFlag.ClrFlg` | asp-arm-athrill/kernel/eventflag.c:276-295 | the pattern is masked |
| `EventFlags.EventFlag.TwaiFlg` | asp-arm-athrill/kernel/eventflag.c:304-433 | wai_flg and twai_flg: E_PAR for a bad pattern or mode, E_ILUSE without TA_WMUL, at once, poll, or wait |
| `EventFlags.EventFlag.PolFlg` | asp-arm-athrill/kernel/eventflag.c:351-380 | at once or E_TMOUT |
| `EventFlags.EventFlag.IniFlg` | asp-arm-athrill/kernel/eventflag.c:442-466 | waiting tasks return with E_DLT, the pattern is iflgptn |
| `EventFlags.WokenExactly` | asp-arm-athrill/kernel/eventflag.c:194-210 | woken up are exactly the tasks whose conditions the pattern satisfies, or only the first of them in queue order if TA_CLR |
| `EventFlags.SetWakes` | asp-arm-athrill/kernel/eventflag.c:194-210 | each woken task returns with E_OK and the pattern seen; all others wait on |
| `EventFlags.NothingSatisfies` | asp-arm-athrill/kernel/eventflag.c:206-208 | 0 satisfies no condition, so that the loop may stop after clearing |
| `EventFlags.FlgStepKeeps` | asp-arm-athrill/kernel/eventflag.c:304-342 | every step keeps: no waiting task's condition is satisfied, and without TA_WMUL at most one task waits |
| `EventFlags.NobodyWaitsInVain` | asp-arm-athrill/kernel/eventflag.c:157-466 | so it is in every state of every run |
| `DataQueue.DataQueue.constructor` | asp-arm-athrill/kernel/dataqueue.c:160-175 | an empty ring |
| `DataQueue.DataQueue.EnqueueData` | asp-arm-athrill/kernel/dataqueue.c:184-193 | appends to the ring contents |
| `DataQueue.DataQueue.ForceEnqueueData` | asp-arm-athrill/kernel/dataqueue.c:202-216 | appends, and drops the oldest datum of a full ring |
| `DataQueue.DataQueue.DequeueData` | asp-arm-athrill/kernel/dataqueue.c:225-234 | takes the oldest datum |
| `DataQueue.DataQueue.SendData` | asp-arm-athrill/kernel/dataqueue.c:243-262 | hands over to a waiting receiver, stores, or fails |
| `DataQueue.DataQueue.ForceSendData` | asp-arm-athrill/kernel/dataqueue.c:271-285 | hands over or stores by force |
| `DataQueue.DataQueue.ReceiveData` | asp-arm-athrill/kernel/dataqueue.c:294-322 | takes the oldest datum and lets a waiting sender in, or takes from a sender, or fails |
| `DataQueue.DataQueue.TsndDtq` | asp-arm-athrill/kernel/dataqueue.c:331-482 | snd_dtq and tsnd_dtq |
| `DataQueue.DataQueue.PsndDtq` | asp-arm-athrill/kernel/dataqueue.c:372-435 | psnd_dtq and ipsnd_dtq |
| `DataQueue.DataQueue.FsndDtq` | asp-arm-athrill/kernel/dataqueue.c:491-544 | fsnd_dtq and ifsnd_dtq; E_ILUSE without capacity |
| `DataQueue.DataQueue.TrcvDtq` | asp-arm-athrill/kernel/dataqueue.c:553-677 | rcv_dtq and trcv_dtq |
| `DataQueue.DataQueue.PrcvDtq` | asp-arm-athrill/kernel/dataqueue.c:599-626 | prcv_dtq |
| `DataQueue.DataQueue.IniDtq` | asp-arm-athrill/kernel/dataqueue.c:686-715 | senders and receivers return with E_DLT, the ring is empty |
| `DataQueueRuns.DtqStepKeeps` | asp-arm-athrill/kernel/dataqueue.c:243-322 | in every state senders wait only if the buffer is full, receivers only if it is empty, and never both; priority data are in order |
| `DataFlows.FirstInFirstOut` | asp-arm-athrill/kernel/dataqueue.c:184-322 | over any run, forced, cancelled and waiting sends included, what was delivered followed by what is in the queue is the line that accepted data stand in, in its order; nothing is missing unless a full buffer was forced or the queue was re-initialised. New data stand last, those of a forced send ahead of the waiting senders' data; cancelled data leave the line |
| `DataFlows.LineIsAccepted` | asp-arm-athrill/kernel/dataqueue.c:184-322 | the line holds nothing but accepted data, and as long as no forced send overtakes a waiting one it is the order of sending without the cancelled data |
| `DataFlows.SendingOrder` | asp-arm-athrill/kernel/dataqueue.c:184-322 | so without such forced sends data are delivered in the order in which they were accepted, and all of them if none are dropped or cancelled |
| `DataFlows.ForceEffect` | asp-arm-athrill/kernel/dataqueue.c:271-285 | a forced send drops the oldest datum of a full buffer only, and puts its own behind the stored ones but ahead of waiting senders |
| `DataFlows.ForceKeepsOrderIff` | asp-arm-athrill/kernel/dataqueue.c:271-285 | so it keeps the order of sending if and only if no task waits to send; if a receiver waits, the datum is delivered at once |
| `ForcedSends.ForcedRun` | asp-arm-athrill/kernel/dataqueue.c:271-285 | a run from start-up in which the third datum, forced in by an interrupt handler, overtakes the second one, whose sender waits |
| `DataFlows.ReceiveTakesHead` | asp-arm-athrill/kernel/dataqueue.c:294-322 | a receive takes the head of the sequence of stored data followed by waiting senders' data |
| `DataBags.NothingInventedNothingLost` | asp-arm-athrill/kernel/dataqueue.c:184-322 | the same conservation for priority data queues and for send waiting in task priority order, without the order |
| `DataBags.Rendezvous` | asp-arm-athrill/kernel/dataqueue.c:243-322 | with capacity 0, sends succeed iff a receiver waits and receives iff a sender waits, which then meet |
| `PriDataQueue.PriDataQueue.constructor` | asp-arm-athrill/kernel/pridataq.c:145-161 | no cell is in use |
| `PriDataQueue.PriDataQueue.GetCell` | asp-arm-athrill/kernel/pridataq.c:176-186 | a cell from the free list, or one never used, that is in no list |
| `PriDataQueue.PriDataQueue.FindPlace` | asp-arm-athrill/kernel/pridataq.c:188-194 | the place behind all data that are not worse |
| `PriDataQueue.PriDataQueue.LinkCell` | asp-arm-athrill/kernel/pridataq.c:195-197 | the cell is in the list at that place, and no other list is disturbed |
| `PriDataQueue.PriDataQueue.EnqueuePridata` | asp-arm-athrill/kernel/pridataq.c:170-198 | the stored data are those before with the new one inserted by priority; cells below unused split into data list and free list |
| `PriDataQueue.PriDataQueue.DequeuePridata` | asp-arm-athrill/kernel/pridataq.c:207-221 | takes the first datum and frees its cell |
| `PriDataQueue.PriDataQueue.SendPridata` | asp-arm-athrill/kernel/pridataq.c:230-250 | hands over, stores by priority, or fails |
| `PriDataQueue.PriDataQueue.ReceivePridata` | asp-arm-athrill/kernel/pridataq.c:259-291 | takes the first datum and lets a waiting sender in, or takes from a sender, or fails |
| `PriDataQueue.PriDataQueue.TsndPdq` | asp-arm-athrill/kernel/pridataq.c:301-457 | snd_pdq and tsnd_pdq; E_PAR for a priority out of range |
| `PriDataQueue.PriDataQueue.PsndPdq` | asp-arm-athrill/kernel/pridataq.c:344-408 | psnd_pdq and ipsnd_pdq |
| `PriDataQueue.PriDataQueue.TrcvPdq` | asp-arm-athrill/kernel/pridataq.c:467-592 | rcv_pdq and trcv_pdq |
| `PriDataQueue.PriDataQueue.PrcvPdq` | asp-arm-athrill/kernel/pridataq.c:514-540 | prcv_pdq |
| `PriDataQueue.PriDataQueue.IniPdq` | asp-arm-athrill/kernel/pridataq.c:602-631 | senders and receivers return with E_DLT, no cell is in use |
| `DataQueues.InsertPriOrder` | asp-arm-athrill/kernel/pridataq.c:188-197 | insertion keeps the order of priorities, and for each priority the order of arrival |
| `DataBags.BestIsReceived` | asp-arm-athrill/kernel/pridataq.c:259-263 | a receiver gets the datum that arrived first of those with the best priority |
| `MemPool.MemoryPool.constructor` | asp-arm-athrill/kernel/mempfix.c:127-141 | all blocks unused |
| `MemPool.MemoryPool.GetMpfBlock` | asp-arm-athrill/kernel/mempfix.c:150-167 | a block that was not allocated, marked as allocated; the free list stays a chain of distinct free blocks |
| `MemPool.MemoryPool.TgetMpf` | asp-arm-athrill/kernel/mempfix.c:176-286 | get_mpf and tget_mpf |
| `MemPool.MemoryPool.PgetMpf` | asp-arm-athrill/kernel/mempfix.c:216-240 | pget_mpf |
| `MemPool.MemoryPool.CheckBlock` | asp-arm-athrill/kernel/mempfix.c:308-313 | the checks accept exactly the addresses of allocated blocks |
| `MemPool.MemoryPool.PutMpfBlock` | asp-arm-athrill/kernel/mempfix.c:325-327 | the block joins the free list |
| `MemPool.MemoryPool.CommitBlock` | asp-arm-athrill/kernel/mempfix.c:315-331 | the locked part of rel_mpf: straight to the first waiting task, or to the free list |
| `MemPool.MemoryPool.RelMpf` | asp-arm-athrill/kernel/mempfix.c:295-335 | rel_mpf, with nothing between the checks and the locked part |
| `MemPool.MemoryPool.IniMpf` | asp-arm-athrill/kernel/mempfix.c:344-370 | waiting tasks return with E_DLT, all blocks unused |
| `MemPools.AddrIndex` | asp-arm-athrill/kernel/mempfix.c:163-164 | from index to address and back is the identity |
| `MemPools.IndexAddr` | asp-arm-athrill/kernel/mempfix.c:309-312 | from a checked address to index and back is the identity |
| `MemPools.GetBlockFacts` | asp-arm-athrill/kernel/mempfix.c:150-167 | exactly one block changes from free to allocated |
| `MemPools.PutBlockFacts` | asp-arm-athrill/kernel/mempfix.c:325-327 | returning a block undoes its allocation |
| `LateReturns.CommitKeepsIff` | asp-arm-athrill/kernel/mempfix.c:308-323 | the locked part of rel_mpf, both branches, keeps the pool in order and one holder for each block if and only if the grant that the checks made before have found still stands |
| `LateReturns.LateReturnIff` | asp-arm-athrill/kernel/mempfix.c:308-327 | over any run in which a task is preempted between the checks and the locked part: so it does if and only if the block was in use when it passed the checks, and since then neither it has been returned, by anybody, nor the pool initialised; that somebody has got the block again does not help |
| `LateReturns.ChecksAgree` | asp-arm-athrill/kernel/mempfix.c:311-313 | a block that passes both checks is in use, unless the pool is initialised between them |
| `LateReturns.ProperUse` | asp-arm-athrill/kernel/mempfix.c:295-335 | if tasks return only blocks that they hold, and the pool is not initialised while a task is in rel_mpf, every run keeps the pool in order and one holder for each block, whatever comes between checks and locked part |
| `LateReturns.NothingBetween` | asp-arm-athrill/kernel/mempfix.c:308-327 | with nothing between them, checks and locked part are the one step that the other results take rel_mpf for |
| `DoubleReturns.TwoHolders` | asp-arm-athrill/kernel/mempfix.c:308-327 | a run from start-up in which a block that is in use comes into the free list, so that the next task gets it too |
| `MemPools.HoldersStep` | asp-arm-athrill/kernel/mempfix.c:150-370 | every step, hand-over included, keeps exactly the blocks in use granted, each to one task |
| `MemPools.GrantEnds` | asp-arm-athrill/kernel/mempfix.c:308-334 | rel_mpf accepts a block if and only if some task holds it; a grant ends if and only if its block is returned or the pool initialised |
| `MemPools.OneHolderPerBlock` | asp-arm-athrill/kernel/mempfix.c:150-335 | over any run since initialisation exactly the blocks in use are held, each by one task, given that the checks of rel_mpf and what follows them are one step |
| `MemPools.HolderKeepsBlock` | asp-arm-athrill/kernel/mempfix.c:150-335 | if tasks return only what they hold, a task that has got a block keeps it, alone, until it returns it itself or the pool is initialised |
| `SerialPort.Spcb.constructor` | asp-arm-athrill/syssvc/serial.c:275-289 | empty buffers, echo and flow control on |
| `SerialPort.Spcb.WriChr` | asp-arm-athrill/syssvc/serial.c:432-452 | the character goes to the device or to the end of the buffer; full is reported exactly |
| `SerialPort.Spcb.ReaChr` | asp-arm-athrill/syssvc/serial.c:512-534 | the oldest character; empty is reported exactly |
| `SerialPort.Spcb.IrdySnd` | asp-arm-athrill/syssvc/serial.c:658-691 | the oldest character goes out; a signal is due iff there is room where there was none |
| `SerialPort.Spcb.IrdyRcv` | asp-arm-athrill/syssvc/serial.c:696-764 | stop, restart, drop or store; signals are due iff a buffer stops being full or empty |
| `SerialPort.Spcb.TakeUnsent` | asp-arm-athrill/syssvc/serial.c:769-786 | the oldest unsent character is taken back |
| `SerialTokens.SafeIff` | asp-arm-athrill/syssvc/serial.c:410-598 | a step keeps exactly one send token while there is room and exactly one receive token while there is a character, if and only if it is not one of three: a wait broken while the task has the receive token (an echoing reader with characters left), the termination of a task that has a token, and serial_get_chr on a full buffer |
| `SerialTokens.HolderProceeds` | asp-arm-athrill/syssvc/serial.c:461-598 | whoever has a token finds room or a character; no signal overflows |
| `SerialTokens.TokenProtocol` | asp-arm-athrill/syssvc/serial.c:410-764 | under any interleaving of any number of tasks with the callbacks, in which those three do not occur: tokens in order, no buffer over- or underrun, characters sent in the order accepted |
| `SerialTokens.UnsafeLoses` | asp-arm-athrill/syssvc/serial.c:410-598 | each of the three loses a token: there is room, or a character, and the token is nowhere |
| `SerialTokens.LostForever` | asp-arm-athrill/syssvc/serial.c:410-764 | then, whatever is done while the port is open, the token does not come back: no further character is ever accepted for sending, or no character is ever read |
| `SerialTokens.EchoBreakRun` | asp-arm-athrill/syssvc/serial.c:567-597 | a run from the opening of a port that ends so, by a broken wait |
| `SerialTokens.TerminateRun` | asp-arm-athrill/syssvc/serial.c:410-479 | one that ends so by the termination of a writer |
| `SerialTokens.StealRun` | asp-arm-athrill/syssvc/serial.c:769-786 | one that ends so by serial_get_chr |
| `SerialTokens.StealKeeps` | asp-arm-athrill/syssvc/serial.c:777-781 | serial_get_chr keeps the tokens iff the send buffer is not full |
| `Rings.SlotIsModulo` | asp-arm-athrill/kernel/dataqueue.c:187-192 | wrapping at the end is counting modulo the size |
| `Queues.Queue.constructor` | asp-arm-athrill/include/queue.h:73-78 | a ring of the header alone |
| `Queues.NextPrevInverse` | asp-arm-athrill/include/queue.h:63-66 | p_next and p_prev are inverse to each other all round |
| `Queues.InsertPrev` | asp-arm-athrill/include/queue.h:86-93 | the ring with the entry before the given place; before the header means at the end; every disjoint ring is unchanged |
| `Queues.InsertNext` | asp-arm-athrill/include/queue.h:101-108 | the ring with the entry after the given place; every disjoint ring is unchanged |
| `Queues.Delete` | asp-arm-athrill/include/queue.h:115-120 | the ring without the entry; every disjoint ring is unchanged |
| `Queues.DeleteNext` | asp-arm-athrill/include/queue.h:130-140 | the first entry, and the ring without it; every disjoint ring is unchanged |
| `Queues.Empty` | asp-arm-athrill/include/queue.h:147-155 | true iff the header is alone |
| `Queues.Rotate` | asp-arm-athrill/kernel/task.c:408-410 | removing the first entry and inserting it before the header rotates the sequence |
| `Queues.DeleteAll` | asp-arm-athrill/kernel/wait.c:202-203 | removing first entries until the queue is empty leaves the header alone |
| `QueueLoops.InsertTpri` | asp-arm-athrill/kernel/wait.h:59-72 | on the pointers: the search loop links the entry where priority order says, behind equals; every disjoint ring is unchanged |
| `QueueLoops.WakeEntries` | asp-arm-athrill/kernel/eventflag.c:194-210 | on the pointers: the loop that reads the successor before it moves an entry to a ready queue takes out exactly the entries it should, or only the first of them, in order |
| `Worlds.CallIsStep` | asp-arm-athrill/kernel/task.h:142-154 | what any call on a semaphore, event flag, data queue, priority data queue or memory pool does to the kernel is one of its steps, or none, and is no call on any other object |
| `Worlds.EveryObjectOk` | asp-arm-athrill/kernel/startup.c:83-112 | from start-up on, with any number of objects of all kinds that share the kernel, the kernel invariant and the invariants of all objects hold in every state |
| `WorldRuns.SeenFrom` | asp-arm-athrill/kernel/task.h:142-154 | from one object, a step of all the rest is a step of the kernel that is no call on it, or nothing |
| `WorldRuns.LedgerStepIs` | asp-arm-athrill/kernel/semaphore.c:149-335 | in the company of any other objects, each step changes the books of a semaphore as one of its own steps does, or not at all |
| `WorldRuns.SemaphoreConserves` | asp-arm-athrill/kernel/semaphore.c:128-335 | from start-up on, in the company of any other objects: semcnt + resources taken = isemcnt + signals accepted, counted over the calls on this semaphore and the waits that end in that run |
| `WorldRuns.FlowStepIs` | asp-arm-athrill/kernel/dataqueue.c:184-322 | in the company of any other objects, the calls on a data queue change its history as they do alone, and any other step as a foreign step does, or not at all |
| `WorldRuns.DataQueueIsFifo` | asp-arm-athrill/kernel/dataqueue.c:160-322 | from start-up on, in the company of any other objects: what a data queue has delivered in that run, followed by what it holds, is its line, in its order, and all of it if no call on it drops stored data |
| `WorldRuns.GrantStepIs` | asp-arm-athrill/kernel/mempfix.c:150-335 | in the company of any other objects, each step changes the grants of a memory pool as one of its own steps does, or not at all |
| `WorldRuns.PoolHasOneHolder` | asp-arm-athrill/kernel/mempfix.c:127-335 | from start-up on, in the company of any other objects: of the blocks granted and returned in that run, exactly those in use are held, each by one task |
| `TaskFates.RefusedExactly` | asp-arm-athrill/kernel/task_manage.c:124-369 | of every service call on tasks, ready queues, flags and handlers: exactly when it is refused, with which error code, the checks coming in the order context, identifier, parameter, state; and a call that is refused changes nothing |
| `TaskFates.StepFate` | asp-arm-athrill/kernel/task_sync.c:140-529 | what every step makes of every field of every task's control block, read from the field and not from the call: which steps end its wait and with which code, start one, suspend or resume it, queue or take its requests, set its priority |
| `Requests.WakeupsAnswered` | asp-arm-athrill/kernel/task_sync.c:140-323 | over every run, for each task: wakeups accepted = sleeps ended with E_OK + calls of slp_tsk and tslp_tsk that returned E_OK at once + requests reported by can_wup + requests dropped when the task ended + 1 if one is queued, counted from what calls return and from the control block |
| `Requests.ActivationsAnswered` | asp-arm-athrill/kernel/task_manage.c:124-330 | over every run, for each task: activations accepted = times it has ended + requests reported by can_act + 1 if it is active + 1 if one is queued; so that E_OK of ter_tsk means that it has ended |
| `Requests.RequestsFromStart` | asp-arm-athrill/kernel/task.c:107-135 | so it is from start-up on, the activation by TA_ACT counted in |
| `Requests.CancelledAll` | asp-arm-athrill/kernel/task_sync.c:299-323 | can_act and can_wup report the requests that there are, and leave none |
| `Requests.EndedIsFresh` | asp-arm-athrill/kernel/task_manage.c:230-330 | a task that ext_tsk or ter_tsk has ended is as at start-up, active again only if that was requested; no other task changes |
| `WhoRuns.SchedIsFirst` | asp-arm-athrill/kernel/task.c:227-234 | the scheduler's choice is the runnable task before which no other one comes: none is of better priority, and none of the same priority has been runnable for longer |
| `Precedence.StepOrdered` | asp-arm-athrill/kernel/task.c:247-417 | no step lets a task overtake another one of the same priority that stays runnable, unless chg_pri or rot_rdq sends that one back or it ends; newcomers go behind all that are there |
| `Precedence.ServedInOrder` | asp-arm-athrill/kernel/wait.c:196-211 | tasks that are served in one call become runnable in the order in which they are served |
| `WhoRuns.NeverOvertaken` | asp-arm-athrill/kernel/task.c:227-417 | over every run in which a task stays runnable and is not sent back, no task that was behind it runs, however often that one leaves and comes back, as long as it gets no better priority |
| `WhoRuns.ChgPriSets` | asp-arm-athrill/kernel/task_manage.c:339-369 | chg_pri: the condition of each error code; after E_OK the internal priority is tskpri - 1, for 1 to 16, or the initial one for 0, and nothing else in any control block has changed |
| `WhoRuns.PriorityHolds` | asp-arm-athrill/kernel/task_manage.c:339-369 | a priority holds over every run until chg_pri changes it or the task ends |
| `WhoRuns.BetterPriorityRuns` | asp-arm-athrill/kernel/task_manage.c:339-369 | of two tasks that chg_pri has set to p < q, whatever happens in between and since, the second does not run while the first is runnable |
| `WhoRuns.RotRdqTurns` | asp-arm-athrill/kernel/sys_manage.c:179-228 | rot_rdq and irot_rdq turn the ready queue of the priority given, or of the caller's own for 0, by exactly one place forward; nothing else changes in queues and tasks |
| `WhoRuns.RoundRobin` | asp-arm-athrill/kernel/sys_manage.c:209-228 | n calls for a priority turn its queue by n places, so that every task of the priority is first in turn |
| `Dispatching.StepFlags` | asp-arm-athrill/kernel/sys_manage.c:395-443 | each step sets disdsp, ipmflg and the context as it must; dspflg is ipmflg and not disdsp; if that holds, outside of handlers the task runs that comes first, and else the same task goes on |
| `Dispatching.LockAndUnlock` | asp-arm-athrill/kernel/sys_manage.c:395-443 | from dis_dsp to ena_dsp, over every run, only the caller runs; then whoever comes first, unless interrupts are masked |
| `Dispatching.MaskAndUnmask` | asp-arm-athrill/kernel/interrupt.c:194-227 | the same from chg_ipm with a mask to chg_ipm with TIPM_ENAALL, unless dispatching is disabled by dis_dsp |
| `Dispatching.InterruptSwitchesAtEnd` | asp-arm-athrill/arch/arm_gcc/common/core_support.S:313-404 | over every run of an interrupt handler the interrupted task stays the running one; at the exit the task runs that comes first, if dispatching is possible |
| `TaskRuns.WaitEndsIff` | asp-arm-athrill/kernel/wait.c:78-141 | a wait ends if and only if one of five things happens (a wakeup of a sleeping task, rel_wai, its timer, the object that serves it, its termination), with the error code of that; else it goes on for the same thing; then the task is runnable unless suspended |
| `TaskRuns.WaitBegins` | asp-arm-athrill/kernel/task_sync.c:140-206 | a call that waits leaves its caller waiting for the cause and the object of the call, with a timer if and only if there is a limit, and the task running that comes first |
| `TaskRuns.SuspendedIff` | asp-arm-athrill/kernel/task_sync.c:402-495 | sus_tsk and rsm_tsk change only the suspension, whether the task waits or not; a task that does not wait is runnable again when it is resumed; a wait that ends leaves it suspended |
| `TaskRuns.SuspendedStays` | asp-arm-athrill/kernel/task_sync.c:402-495 | over every run, a suspended task does not run until it is resumed or ends |
| `HandlerRuns.RegisteredIff` | asp-arm-athrill/kernel/cyclic.c:139-195 | a cyclic or alarm handler is on, and its time event registered, if and only if it is started now, or was on and is neither stopped nor an alarm that fires now |
| `HandlerRuns.StoppedIsSilent` | asp-arm-athrill/kernel/cyclic.c:173-195 | over every run from stp_cyc or stp_alm on, the handler is not called and has no time event until it is started again |
| `HandlerRuns.AlarmOnce` | asp-arm-athrill/kernel/alarm.c:210-263 | an alarm handler is called at most once for each start |
| `KernelRuns.BootIs` | asp-arm-athrill/kernel/task.c:107-135 | at start-up exactly the tasks with TA_ACT are runnable, those of the same priority in the order of torder_table; exactly the cyclic handlers with TA_STA are on |
| `FlagBits.WaitOutcome` | asp-arm-athrill/kernel/eventflag.c:304-433 | wai_flg and twai_flg, on bits: E_OK at once if and only if some bit (TWF_ORW) or all bits (TWF_ANDW) waited for are in the pattern, reporting the pattern; the condition of each error code; what fails changes nothing |
| `FlagBits.PollOutcome` | asp-arm-athrill/kernel/eventflag.c:351-380 | the same for pol_flg, with E_TMOUT if the condition does not hold |
| `FlagBits.SetOutcome` | asp-arm-athrill/kernel/eventflag.c:178-267 | set_flg and iset_flg, on bits: the task at each place of the queue is woken up if and only if one or all of its bits are in the old pattern or among the set ones, and with TA_CLR nobody before it is; it sees these bits; all are cleared iff TA_CLR and somebody is woken up |
| `FlagBits.ClearOutcome` | asp-arm-athrill/kernel/eventflag.c:276-295 | clr_flg leaves exactly the bits that are in its argument |
| `FlagBits.ResetOutcome` | asp-arm-athrill/kernel/eventflag.c:442-466 | ini_flg: all waits end with E_DLT, the pattern is iflgptn |
| `FlagBits.NothingThere` | asp-arm-athrill/kernel/eventflag.c:157-466 | in every state of every run, of a waiting task's bits none (TWF_ORW), or not all (TWF_ANDW), are in the pattern |
| `Outcomes.SemOutcome` | asp-arm-athrill/kernel/semaphore.c:149-368 | calls on a semaphore fail exactly when they must, changing nothing; tasks wait iff there is no resource; a signal that nobody waits for is counted |
| `Outcomes.DtqOutcome` | asp-arm-athrill/kernel/dataqueue.c:331-700 | calls on a data queue or priority data queue fail exactly when they must, changing nothing; senders wait iff the buffer is full and nobody receives, receivers iff nothing is stored or offered |
| `Outcomes.MpfOutcome` | asp-arm-athrill/kernel/mempfix.c:176-370 | calls on a memory pool fail exactly when they must, changing nothing; tasks wait iff all blocks are in use; a block that is got was in nobody's use |
| `Outcomes.SemDeletes` | asp-arm-athrill/kernel/wait.c:196-211 | ini_sem ends all waits with E_DLT |
| `Outcomes.MpfDeletes` | asp-arm-athrill/kernel/wait.c:196-211 | ini_mpf ends all waits with E_DLT |
| `Outcomes.DtqDeletes` | asp-arm-athrill/kernel/wait.c:196-211 | ini_dtq and ini_pdq end the waits of senders and receivers with E_DLT |
| `SerialOrder.WritesInOrder` | asp-arm-athrill/syssvc/serial.c:410-501 | under any interleaving: what a call of serial_wri_dat has put is the data that it has looked at, in order, a CR before each LF if IOCTL_CRLF was set then, but for what is pending of the last character; the rest of the data is untouched; all is put when it ends normally |
| `SerialOrder.WritesAll` | asp-arm-athrill/syssvc/serial.c:461-501 | a call of serial_wri_dat that is not broken has put exactly the caller's data, in order, with the CRs that IOCTL_CRLF asks for |
| `SerialOrder.ReadsInOrder` | asp-arm-athrill/syssvc/serial.c:506-598 | what tasks have got followed by what is in the receive buffer is what was stored in it; a call of serial_rea_dat that ends normally has got as many characters as it was to read |
| `SerialOrder.EchoesAll` | asp-arm-athrill/syssvc/serial.c:581-589 | with echo on it has put exactly the characters that it has got, in order |
| `SerialTokens.StopSilences` | asp-arm-athrill/syssvc/serial.c:704-728 | from the reception of a STOP to that of a START nothing is handed to the device |

## Left out

- SysManage.TexReturn: of the task exception handling only the flags that call_texrtn restores are modelled; the loop over texptn, enatex and the routines themselves are not.
- SysManage.ChgIpm: the call of a pending task exception routine at its end is left out.
- SysManage.ExitInt: handlers nest one level deep, the exit that counts being that of the outermost one; the assembly code around it (stack, mode, priority mask), the idle loop of the dispatcher and the call of a pending task exception routine are left out.
- Task.MakeDormant: enatex and texptn, which it clears, are not modelled.
- Startup.StartKernel: the objects are initialised by their own constructors, and the other initialisation routines and those of the user are left out.
- The CPU-locked state as something an application can enter (loc_cpu, unl_cpu): every step starts and ends unlocked.
- SignalTime.Window: calls on objects appear with what they do to tasks; the contents of objects change in the runs of `Worlds` instead.
- Timeouts are assumed to be no larger than the largest relative time, as tmevtb_enqueue asserts.
- DataQueue.DataQueue.TsndDtq: the fields that WINFO_DTQ, WINFO_PDQ, WINFO_FLG and WINFO_MPF add to WINFO are fields of the object, by task, instead of lying on the stacks of the tasks.
- MemPool.MemoryPool.RelMpf: the checks, which run before the CPU is locked, and the locked part are one step here; LateReturns takes them apart.
- MemPools.OneHolderPerBlock: takes rel_mpf for one step, as WorldRuns.PoolHasOneHolder does; what holds without that is in LateReturns.
- SerialTokens.TokenProtocol: a task to which a signal is handed while it waits counts as having acquired the token at once; what other orders the model allows is more than can happen.
- SerialPort.Spcb.IrdyRcv: START and STOP characters bypass the buffers; when they are due is stated, their order on the line is not modelled.
- Queues.InsertPrev: queues elsewhere in the project are sequences; that the pointer operations and loops are the sequence operations is shown in `Queues` and `QueueLoops`, for one ring and any other ring apart from it.
- KernelRuns.ReachableStates: object identifiers are checked by the caller of an object's methods, so that E_ID of object calls does not occur.
- Opening and closing of serial ports, apart from the initial values; errors of service calls that cannot occur on an open port.
- Mailboxes, the dcre extension, system log, trace, ref_ calls and get_ calls: they would repeat what is shown or only read it.
- Memory-mapped devices, the interrupt controller, context switching and the host libraries.
