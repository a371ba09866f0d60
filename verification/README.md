# HRP2 kernel model

A model of the TOPPERS/HRP2 real-time kernel and proofs about it: scheduling, waiting,
priority-ceiling mutexes, time events, and the objects with storage of their own; and of the
serial driver's buffers. It takes the kernel at the level of its critical sections: a service
call, the entry or exit of interrupt handling, and each event of a time tick are atomic steps.

## How it is put together

* `TimeEvent` is the time-event heap as the code has it: an array of nodes, blocks with back
  pointers, 32-bit event times compared relative to `min_time`. Ghost unbounded times stand
  beside the words, and the proofs show that the words never mislead.
* `QueueRing` is `include/queue.h` with real pointers: rings of objects, spliced in place.
* `KernelSpec` is the kernel as a state machine on values: 31 service calls, interrupts and
  ticks as steps (`Step`), the need for a dispatch read off the state. The ready structures are
  one list in precedence order, and timers a map to unbounded times.
* `KernelInv` and `KernelCalls` state the kernel invariant and show that every step keeps it;
  `Runs` draws the conclusions for every state that any run from start-up reaches.
* `Ceiling` proves that the ceiling protocol never blocks and bounds priority inversion, and
  `Needed` shows by runs from start-up that each of its rules is needed. `Ticks` proves that the tick loop
  ends, what it fires and when. `Waits` says how every wait ends and that semaphores conserve
  their units. `Undo` says what unlocking and rotation undo.
* `Laws` says what each call does: each answer if and only if its condition holds, and the
  tables after the step in terms of the tables before it, without the functions that define
  the step. `Effects` has the vocabulary for that (waits that end, tasks that line up, mutexes
  that change hands) and measures the parts of the calls against it. `Requests` and `Handlers`
  draw conclusions over runs: no accepted activation or wakeup is lost, and handlers are
  neither early nor late.
* `Kernel` is the kernel as the code keeps its state: a class with the control-block fields,
  ready queues, bitmap, cached task to run, `dspflg` and the heap, which its methods update in
  place, with the loops and early exits of the code. Every method is proved to do exactly what
  the state machine says, and to ask for a dispatch exactly when one is needed; so the theorems
  about runs hold of the tables. `ReadyQueue` has the facts about queues and bitmap.
* `PriDataQueue`, `DataQueue`, `MemPool` and `EventFlag` are the objects with storage, as
  classes over their arrays. Waiting tasks appear in them as task numbers with their wait
  information, in the queues of `WaitQueue`; `priority` is the column of the task table that
  the queues are sorted by, and the answer `woken` names the tasks that are woken. In `KernelSpec`
  and `Kernel` their wait queues are objects of a third kind, with the steps of waiting, waking and
  initialization; `Linked` shows that both sides agree.
* `Serial` is the send and the receive side of a port: tasks and interrupt callbacks as
  interleaved steps around a ring buffer and a binary semaphore used as a token; `Token` shows
  that the token steps are the kernel's steps on a semaphore.

Smaller numbers are higher priorities throughout. `dispatch()` is taken as
`p_runtsk := p_schedtsk`, and the exit of interrupt handling performs the dispatch that was
asked for. A handler's body is any list of calls that a handler may make, so the results about
ticks hold whatever the handlers do.

Where code and intention differ, the model follows the code: `fsnd_dtq` and `ifsnd_dtq` answer
E_OK even for a queue without capacity (kernel/dataqueue.c:749, 785), and `serial_get_chr`
does not give the token of a full buffer back (syssvc/serial.c:818-835). The second has its
exact condition as a theorem, with a run that meets it.

## Model

| member | source | states |
|---|---|---|
| Ceiling.CeilingNeverBlocks | kernel/mutex.c:560-609 | in every run from start-up in which all mutexes have ceilings and every step is allowed, nobody waits for a mutex, and no lock operation blocks or times out; `Allowed` forbids only, of calls that take effect: suspending a holder, letting a holder wait for something else, letting the base priority of a holder or of a running task that cannot be preempted sink to or below another holder that it is above, letting such a running task go behind an equal before it locks, and rotating a holder or such a running task to the back; dispatching may be disabled at any time |
| Ceiling.StepCeil | kernel/mutex.c:327-336 | the protocol's invariant is inductive: any ready task ahead of a holder has a base priority above the holder's current priority; every allowed step of any call, tick or interrupt keeps it |
| Ceiling.NeverWaits | kernel/mutex.c:560-660 | in any state of the protocol a mutex is free, the caller's own, or refused because of its ceiling; `loc_mtx`, `tloc_mtx` and `ploc_mtx` never wait and never answer E_TMOUT |
| Ceiling.RotationBreaks | kernel/sys_manage.c:187-209 | in every state in which a holder rotates its own queue and a task that may lock the mutex comes to the front, that task does have to wait |
| Ceiling.OneInverts | kernel/mutex.c:327-336 | in any state of the protocol and for each priority, at most one holder is lifted from below that priority to it or above: priority inversion is bounded by one critical section |
| Ceiling.InversionBounded | kernel/mutex.c:327-336 | at most one task at a time inverts a priority, in every allowed run from start-up |
| Needed.HoldersMustStay | kernel/task_sync.c:464-515 | the rule that a holder is not suspended and does not wait is needed: for sus_tsk, slp_tsk, dly_tsk (any delay) and wai_sem there is a run from start-up that breaks the rules by that call alone and ends with a task that has to wait for a mutex |
| Needed.HoldersMustLead | kernel/sys_manage.c:187-209 | the rule that a holder is not rotated to the back is needed: a run from start-up that breaks only this rule ends with a task that has to wait |
| Needed.RunnersMustLead | kernel/sys_manage.c:187-209 | the rule that a running task that cannot be preempted is not rotated to the back is needed, shown by such a run |
| Needed.RunnersMustNotSink | kernel/task_manage.c:628-678 | the rule that a running task that cannot be preempted does not go behind an equal before it locks is needed, shown by such a run in which it sinks |
| Needed.RunnersMustNotRise | kernel/task_manage.c:628-678 | the same rule is needed for a task that rises to the priority of another one, shown by such a run |
| Needed.RunnersMustNotPass | kernel/task_manage.c:628-678 | the rule that such a running task does not sink below a holder is needed, shown by such a run with two mutexes |
| Needed.HoldersMustNotSink | kernel/task_manage.c:628-678 | the rule that a holder's base priority does not sink to another holder that it is above is needed, shown by such a run with two nested mutexes |
| Needed.PathIsRun | kernel/mutex.c:560-609 | such a path is a run, and in the state that it leads to the next lock operation blocks |
| Runs.ReachableInv | kernel/task.c:122-161 | the kernel invariant holds in every state that any run from start-up reaches |
| Runs.BootInv | kernel/startup.c:85-116 | start-up (tasks with TA_ACT activated in table order, handlers with TA_STA started, first dispatch) establishes the invariant, for every configuration |
| KernelCalls.StepInv | kernel/task.c:273-286 | every step - each of 31 calls from a task or a handler, entry and exit of interrupts, each part of a tick - keeps the invariant |
| Runs.CurrentPriorityExact | kernel/mutex.c:274-322 | under the invariant, and so in every reachable state (`Runs.ReachableInv`), a task's current priority is its base priority or the highest ceiling it holds, and no ceiling held or waited for is above its base priority |
| Runs.NoMissedDispatch | kernel/sys_manage.c:437-487 | whenever dispatching is possible, the highest ready task runs, or an interrupt is being handled and a dispatch has been asked for; the highest task is runnable and no runnable task has a higher priority |
| Runs.OneQueue | kernel/wait.h:59-155 | under the invariant a task is in the ready queue exactly if it is runnable, in a wait queue (of a mutex, a semaphore, or any other object) exactly if it waits on it, and nowhere twice |
| Runs.QueuesInOrder | kernel/wait.h:59-72 | under the invariant the ready queue and every TA_TPRI wait queue are sorted by current priority, although priorities change while tasks wait |
| Runs.ArmedExactly | kernel/wait.c:55-69 | the registered event blocks are exactly those of tasks waiting with a timer (delays included), of started cyclic handlers and of started alarm handlers |
| Runs.TimersMatch | kernel/wait.c:55-141 | the armed timers are exactly the registered ones in every reachable state, and every delayed task has one |
| Kernel.Hrp2.HeapSize | kernel/time_event.c:213-229 | the heap holds exactly the armed timers, so `last_index` is their number after every call |
| Runs.MutualExclusion | kernel/mutex.c:327-370 | a mutex is in a task's list of held mutexes exactly if the task is its owner; a mutex with waiters has an owner who is not one of them |
| Runs.TerminationReleases | kernel/task_manage.c:535-549 | a dormant task owns no mutex |
| Runs.TerminationHandsOver | kernel/mutex.c:343-393 | when a task ends or is terminated, each mutex it held becomes free or goes to its first waiter, and no other mutex changes its owner |
| Runs.ReleaseListOwners | kernel/mutex.c:379-393 | `mutex_release_all` gives each mutex of the list to its first waiter, or frees it, in whatever order they come |
| Waits.WaitEnds | kernel/wait.c:78-141 | for every step and every waiting task, the wait goes on untouched, or ends with exactly the answer a reference definition (`EndOf`) names: E_OK only for the first waiter, E_TMOUT only when the time has come, E_RLWAI only by rel_wai, E_DLT only by re-initialization |
| Waits.GrantedOwns | kernel/mutex.c:343-370 | a task whose wait for a mutex ends with E_OK owns the mutex afterwards |
| Waits.WhoIsServed | kernel/semaphore.c:331-413 | the tasks that a step takes from waiting for a semaphore to ready with E_OK: none, except the first waiter when the step is a signal to that semaphore |
| Waits.WokenAsSaid | kernel/wait.c:78-141 | a task's wait ends with E_OK in the tables exactly when the reference definition says so |
| Waits.UnitsKept | kernel/semaphore.c:331-498 | a step changes the count of a semaphore by what is signalled minus what is granted, to the caller or to a waiter |
| Waits.UnitsConserved | kernel/semaphore.c:331-550 | over any run without ini_sem: final count + units granted = initial count + units signalled, whatever timeouts, forced releases and terminations happen |
| Waits.TerminateEnds | kernel/task_manage.c:561-619 | terminating a task ends with E_OK the waits of the first waiters of its mutexes and touches no other task |
| Undo.UnlockUndoesLock | kernel/mutex.c:733-775 | locking a free mutex and unlocking it restores the whole kernel state if and only if the lock does not raise the caller's priority or the caller is the first ready task of its priority |
| Undo.LockUnlock | kernel/mutex.c:560-609 | for a running task a successful `loc_mtx` or `tloc_mtx` followed by `unl_mtx` restores the whole kernel state |
| Undo.BackInPlace | kernel/task.c:379-428 | a task that leaves the ready list and joins again ahead of its equals is back in its old place if and only if it was the first of them |
| Undo.RoundRobin | kernel/task.c:440-455 | rotation gives the tasks of a priority their turns in order, and as many rotations as there are tasks restore the whole state |
| Ticks.TickLoopEnds | kernel/time_event.c:351-397 | the loop of `signal_time` ends: however handlers and interrupts call the kernel in between, the number of events that happen in a tick is bounded by a backlog fixed at its start; this includes cyclic handlers that register themselves again |
| Ticks.TickLoopStops | kernel/time_event.c:385-389 | the loop can stop exactly when no event can happen, and exactly when the backlog is zero |
| Ticks.WorkShrinks | kernel/time_event.c:385-389 | each event that happens makes the backlog smaller, and no call from a handler makes it larger |
| Ticks.TickStep | kernel/time_event.c:385-389 | during a tick no step makes any event more overdue, and whatever is newly registered lies after the current time |
| Ticks.FiredInOrder | kernel/time_event.c:385-389 | within a tick events happen in non-decreasing order of their times, none after the current time |
| Ticks.FiresInItsTick | kernel/time_event.c:351-397 | an event happens in the first tick whose time reaches it: the tick before was still too early |
| Ticks.TimerStaysRun | kernel/wait.c:55-69 | as long as a task keeps waiting, no step moves its timeout |
| Ticks.TimeoutBounds | kernel/time_event.h:119-165 | a timeout of d ms that was started at any moment between two ticks never fires before d ms have passed, and fires earlier than d + 1 ms and two tick periods later |
| Ticks.NoDrift | kernel/cyclic.c:455-483 | the k-th activation of a cyclic handler after any moment is due exactly k periods after the event that was registered then |
| Ticks.CallTimers | kernel/time_event.h:157-179 | a call leaves registered events alone, cancels them, or registers the one that belongs to it at or after the current base time |
| KernelCalls.TaskCallPost | kernel/task_manage.c:375-678 | before the dispatch, a call by the running task keeps every part of the invariant, and if its task can no longer run, dispatching is possible |
| KernelCalls.IntrCallPost | kernel/task_manage.c:420-453 | a call by an interrupt handler keeps every part of the invariant and stops no runnable task |
| KernelCalls.ReleaseStep | kernel/mutex.c:379-393 | one round of `mutex_release_all` settles one mutex and keeps the invariant for all the others, with the rest still in transit |
| KernelCalls.TerminateCore | kernel/task_manage.c:534-549 | a task that is in no queue any more becomes dormant, or runnable if its activation was queued, with nothing queued afterwards, no mutex held, and the invariant complete |
| KernelCalls.FirePost | kernel/time_event.c:385-389 | each callback (timeout, end of delay, cyclic, alarm) keeps the invariant |
| KernelInv.HandOverCore | kernel/mutex.c:343-370 | handing a mutex to its first waiter, whose priority may rise to the ceiling, keeps every part of the invariant |
| KernelInv.AcquireCore | kernel/mutex.c:327-336 | acquiring a free mutex, with the raise to its ceiling, keeps every part of the invariant |
| KernelInv.GiveUpCore | kernel/mutex.c:310-322 | giving up a mutex, with the drop to what the remaining mutexes ask for, keeps every part of the invariant |
| KernelSpec.CalcPri | kernel/mutex.c:274-291 | the result is the base priority or one of the ceilings held, and at or above all of them |
| Laws.WhoWaits | kernel/mutex.c:669-724 | for slp_tsk, dly_tsk, loc_mtx, wai_sem and waiting in another queue, with their timed forms: each answer if and only if its condition holds; a call waits exactly if dispatching is possible, it gives TMO_FEVR or a positive time, a lock is not forbidden by the ceiling, what it wants is not there (a queued wakeup, a unit, a free mutex; a mutex must be another task's) and waits are not forbidden; E_TMOUT exactly when it would have to wait and polls |
| Laws.WaitCalls | kernel/wait.c:55-69 | after such a call has blocked, the caller waits for the object it named, in its queue at the end or behind its equals, off the ready list, and with a timer if and only if it gave a time, for base time + that time; after E_OK it has what it asked for and nothing else changed; after any other answer nothing changed |
| Laws.Activated | kernel/task_manage.c:375-453 | a dormant task becomes ready behind its equals; for another one activation is queued, with E_QOVR and no change for a second |
| Laws.Exits | kernel/task_manage.c:498-552 | the caller is ready again, behind its equals and behind the new owners of its mutexes, if its activation was queued, otherwise dormant; no flag is left, priorities are the initial ones, its mutexes change hands in their order, and dispatching is possible |
| Laws.Terminated | kernel/task_manage.c:561-619 | the same for another task, which leaves whatever queue and timer it has; E_ILUSE for oneself and E_OBJ for a dormant task, with no change |
| Laws.Rebased | kernel/task_manage.c:628-678 | each answer if and only if its guard holds; after E_OK, for any task, the base priority is the new one, and so is the current priority unless a ceiling is held; a ready task, or a waiter of a TA_TPRI object, stands behind all its new equals; no other task's priority changes; after any other answer nothing changes |
| Laws.WokenUp | kernel/task_sync.c:253-337 | the sleep of a sleeping task ends with E_OK; for another one wakeup is queued, with E_QOVR and no change for a second; E_OBJ for a dormant task |
| Laws.Released | kernel/task_sync.c:385-455 | any wait ends with E_RLWAI: the task leaves queue and timer and is ready behind its equals unless suspended; E_OBJ exactly if it does not wait |
| Laws.IsSuspended | kernel/task_sync.c:464-515 | each answer if and only if its condition holds; a ready task leaves the ready list, a waiting one is marked and goes on waiting |
| Laws.Resumed | kernel/task_sync.c:524-569 | a suspended task is ready behind its equals, a task suspended while waiting just waits; E_OBJ for all others, with no change |
| Laws.WaitsForbidden | kernel/task_sync.c:578-656 | waits become forbidden exactly in the exception mask state of a task that is not dormant; E_QOVR exactly if they are already |
| Laws.WaitsAllowed | kernel/task_sync.c:665-731 | waits become possible again, E_OBJ exactly if they are |
| Laws.LockedOrNot | kernel/mutex.c:618-660 | ploc_mtx takes a free mutex unless the ceiling forbids it, and otherwise answers E_ILUSE, E_OBJ to the owner and E_TMOUT to others, with no change |
| Laws.Unlocked | kernel/mutex.c:733-775 | E_OK if and only if the caller owns the mutex: it leaves the caller's list, and if that lowers the caller it stands ahead of its new equals; the first waiter owns it, at the end of its list, its wait has ended with E_OK and it is ready behind its equals; no other task is touched |
| Laws.MutexReset | kernel/mutex.c:784-827 | the waits of all waiters end with E_DLT, in the order of the queue; then the owner gives the mutex up, with a change of place as in unl_mtx; the mutex is free |
| Laws.Signals | kernel/semaphore.c:331-413 | the first waiter gets the unit and is ready behind its equals; without one the count rises, and E_QOVR is answered exactly at the maximum |
| Laws.TakesUnit | kernel/semaphore.c:468-498 | E_OK and one unit less if and only if there is one; otherwise E_TMOUT with no change |
| Laws.SemaphoreReset | kernel/semaphore.c:559-591 | the waits of all waiters end with E_DLT, in the order of the queue, and the count is the initial one |
| Laws.Serves | kernel/eventflag.c:383-401 | of the named tasks exactly those that wait in the queue are woken with E_OK, each once and in the order named; the others keep their order |
| Laws.QueuesReset | kernel/wait.c:196-211 | the waits of all tasks in one queue, then in the other, end with E_DLT, in the order of the queues |
| Laws.Rotated | kernel/sys_manage.c:187-237 | the tasks of the priority come in the same order, the first now last, and those of every other priority as before; E_PAR if and only if the priority is out of range |
| Laws.CyclicStarted | kernel/cyclic.c:331-364 | registered for base time + phase, whether it was started before or not |
| Laws.CyclicStopped | kernel/cyclic.c:373-403 | afterwards the handler is neither started nor registered, whether it was before or not; nothing else changes |
| Laws.AlarmStarted | kernel/alarm.c:319-395 | registered for base time + the given time, whether it was started before or not; E_PAR with no change if and only if the time is above TMAX_RELTIM |
| Laws.AlarmStopped | kernel/alarm.c:404-470 | afterwards the handler is neither started nor registered, whether it was before or not; nothing else changes |
| Laws.Happens | kernel/time_event.c:385-389 | a wait whose time has come ends with E_TMOUT, or E_OK if it was a delay, and the task is ready behind its equals unless suspended; a cyclic handler is registered one period after the event that happens; an alarm handler stops |
| Laws.Dispatches | kernel/sys_manage.c:437-487 | `disdsp`, `ipmflg`, what runs and whether a dispatch is asked for, after every step: the dispatching state changes only in the calls for it and in ext_tsk, which allows dispatching; the highest task runs after every call of a task if dispatching is possible, and after interrupt handling if the highest task had changed |
| Laws.StartsUp | kernel/startup.c:85-116 | after start-up exactly the tasks with TA_ACT are ready, by priority and in the order of activation, exactly the handlers with TA_STA are registered, each for its phase, and all else is as configured |
| Effects.TerminateEffect | kernel/task_manage.c:534-549 | from the point where the task is in no queue: `mutex_release_all`, `make_dormant` and the restart leave exactly the state described, for any number of mutexes with any waiters |
| Effects.ReleaseListEffect | kernel/mutex.c:379-393 | the waits of the first waiters end with E_OK in the order of the list of mutexes, each gets its mutex at the end of its list and is ready behind its equals at its new priority, and no other task changes |
| Effects.DrainEffect | kernel/wait.c:196-211 | `init_wait_queue` ends the waits of the whole queue, and the tasks get ready in the order in which they waited |
| Effects.ChangePriorityEffect | kernel/task.c:379-428 | the task stands ahead of or behind all its new equals, as the mode says; the others keep their order |
| OrderedList.LevelsDetermine | kernel/task.c:122-161 | a list sorted by priority is determined by the order of the tasks within each priority, so the laws about places leave no choice |
| Requests.ActivationsConserved | kernel/task_manage.c:375-453 | over any run: activations that act_tsk accepts + one queued at the start = starts of the task + one queued at the end; none is lost when the task ends, and none starts it twice |
| Requests.WakeupsConserved | kernel/task_sync.c:172-337 | over any run: wakeups that wup_tsk accepts + one queued at the start = sleeps that end or are saved by one + those dropped because the task ends + one queued at the end |
| Requests.FlagsFollow | kernel/task_sync.c:578-731 | for every step and every task, the queued activation, the queued wakeup, the prohibition of waits and whether the task is dormant change exactly when the reference definitions (`FlagAfter`, `DormantAfter`) say so |
| Handlers.AlarmBounds | kernel/alarm.c:319-395 | an alarm set for d ms at any moment between two ticks, by a task or a handler, never happens before d ms have passed, and if it stays set happens earlier than d + 1 ms and two tick periods later |
| Handlers.CyclicBounds | kernel/cyclic.c:331-364 | after sta_cyc every activation, the first included, comes no earlier than the phase and the periods before it, and earlier than that and one millisecond and two tick periods, however many there were |
| Handlers.AlarmStaysRun | kernel/alarm.c:319-395 | as long as an alarm stays set, only sta_alm moves it |
| TimeEvent.CompareAcrossWrap | kernel/time_event.c:64-65 | comparing two event times as 32-bit words relative to `min_time` agrees with comparing the unbounded times, even if one has wrapped around |
| TimeEvent.AdvanceKeepsOrder | kernel/time_event.c:390-394 | moving `min_time` forward keeps every comparison between times that are still ahead |
| TimeEvent.RootIsEarliest | kernel/time_event.c:124-201 | in a heap in order no node is earlier than the root |
| TimeEvent.MoveUp | kernel/time_event.c:124-151 | one round of `tmevt_up` keeps links, order around the hole, and the set of events |
| TimeEvent.MoveDown | kernel/time_event.c:164-201 | one round of `tmevt_down` keeps links, order around the hole, and the set of events |
| TimeEvent.StepTick | kernel/time_event.c:366-378 | whole milliseconds and fraction at tick n add up to exactly n periods, and adding one tick with its carry gives the pair for n + 1: no error accumulates |
| TimeEvent.CeilTick | kernel/time_event.h:119-123 | `base_time` rounds up exactly when there is a fraction, and lies after the tick before |
| TimeEvent.TimeEvents.constructor | kernel/time_event.c:101-111 | the heap starts empty with the clock one tick ahead |
| TimeEvent.TimeEvents.TmevtUp | kernel/time_event.c:124-151 | the hole ends where the time belongs: not earlier than its parent, not later than its children; no event is lost |
| TimeEvent.TimeEvents.TmevtDown | kernel/time_event.c:164-201 | on the way down past the earlier child each time, the hole ends where the time belongs: not earlier than its parent, not later than its children; no event is lost |
| TimeEvent.TimeEvents.Insert | kernel/time_event.c:213-229 | exactly block b is added, with its time, and heap order and the back-pointers hold |
| TimeEvent.TimeEvents.Delete | kernel/time_event.c:238-287 | exactly block b is removed, from any position including the last node, and heap order and back-pointers hold |
| TimeEvent.TimeEvents.DeleteTop | kernel/time_event.c:294-320 | the earliest block is removed and returned |
| TimeEvent.TimeEvents.BaseTime | kernel/time_event.h:119-123 | the word is the next tick, rounded up to a whole millisecond, of the unbounded clock |
| TimeEvent.TimeEvents.Enqueue | kernel/time_event.h:157-165 | b is registered for `base_time` + t in unbounded time, for all t up to TMAX_RELTIM |
| TimeEvent.TimeEvents.EnqueueEvttim | kernel/time_event.h:171-179 | b is registered for a given event time |
| TimeEvent.TimeEvents.LeftTime | kernel/time_event.c:327-342 | the milliseconds left until the event, 0 if it is due; just after enqueuing t this is t |
| TimeEvent.TimeEvents.BeginTick | kernel/time_event.c:359-378 | the clock goes one tick on, with the fraction carried, across wrap-around |
| TimeEvent.TimeEvents.TopDue | kernel/time_event.c:385-385 | the loop condition is true exactly if some registered event is due |
| TimeEvent.TimeEvents.EndTick | kernel/time_event.c:390-394 | with nothing due any more, `min_time` may move to `current_time`: order and window hold for all remaining events |
| Kernel.Hrp2.constructor | kernel/task.c:122-161 | the tables at the start: all tasks dormant, nothing registered |
| ReadyQueue.BitmapSearch | kernel/task.c:193-208 | for a bitmap that is not zero: the number of the lowest bit set |
| ReadyQueue.FirstQueue | kernel/task.c:253-260 | the head of the first queue that is not empty is the head of the list in precedence order |
| ReadyQueue.AppendIsInsertLast | kernel/task.c:273-286 | joining the queue of one's own priority at its end is joining the precedence list behind one's equals |
| ReadyQueue.PrependIsInsertFirst | kernel/task.c:379-428 | joining it at its head is joining the precedence list ahead of one's equals |
| ReadyQueue.DeleteIsRemove | kernel/task.c:300-321 | leaving the queue of one's own priority is leaving the precedence list |
| ReadyQueue.HeadIsFirstOf | kernel/task.c:440-455 | the head of a priority's queue is the first task of that priority in the precedence list |
| Kernel.Hrp2.SearchSchedtsk | kernel/task.c:253-260 | finds the first task of the precedence list |
| Kernel.Hrp2.MakeRunnable | kernel/task.c:273-286 | the task joins behind its equals; queues, bitmap and cached task agree afterwards; true if and only if the task to run changed and dispatching is possible |
| Kernel.Hrp2.MakeNonRunnable | kernel/task.c:300-321 | the task leaves; queues, bitmap and cached task agree; true if and only if the task to run changed and dispatching is possible |
| Kernel.Hrp2.ChangePriority | kernel/task.c:379-428 | in both modes the task gets its place in the ready list or in its wait queue; the three ready structures agree; the answer is exact |
| Kernel.Hrp2.RotateReadyQueue | kernel/task.c:440-455 | the first task of the priority goes behind the others; the three ready structures agree; the answer is exact |
| Kernel.Hrp2.MakeActive | kernel/task.c:354-361 | a dormant task becomes runnable behind its equals |
| Kernel.Hrp2.MakeDormant | kernel/task.c:330-345 | base and current priority are the initial ones again, and nothing but activation stays queued |
| Kernel.Hrp2.QueueInsertTpri | kernel/wait.h:59-72 | a task goes in front of the first waiter of a lower priority |
| Kernel.Hrp2.WobjChangePriority | kernel/wait.h:270-277 | a waiter of a priority-ordered object moves behind its new equals; other queues stay |
| Kernel.Hrp2.MakeNonWait | kernel/wait.h:106-127 | a waiting task becomes runnable, or suspended if it was suspended while waiting |
| Kernel.Hrp2.WaitDequeueWobj | kernel/wait.h:135-141 | a task leaves the wait queue of its object |
| Kernel.Hrp2.WaitDequeueTmevtb | kernel/wait.h:149-155 | a timer that is registered is cancelled, and only that one |
| Kernel.Hrp2.MakeWait | kernel/wait.c:55-69 | the running task stops being runnable, and its timer is registered if there is one |
| Kernel.Hrp2.WobjQueueInsert | kernel/wait.c:151-160 | by arrival or by priority, as the object's attribute says |
| Kernel.Hrp2.StartWait | kernel/wait.c:167-187 | state, wait queue, ready queue and timer of a task that starts to wait, in one |
| Kernel.Hrp2.WaitComplete | kernel/wait.c:78-84 | the wait ends with the given result: queue and timer left, ready again |
| Kernel.Hrp2.WaitTmout | kernel/wait.c:93-125 | the callback of a timeout or delay is the event step of the state machine, and asks for a dispatch exactly if needed |
| Kernel.Hrp2.WaitRelease | kernel/wait.c:134-141 | the wait ends with E_RLWAI |
| Kernel.Hrp2.InitWaitQueue | kernel/wait.c:196-211 | the draining loop wakes every waiter with E_DLT and ends with an empty queue |
| Kernel.Hrp2.MutexCheckCeilpri | kernel/mutex.c:207-241 | true exactly if no ceiling held or waited for is above the base priority |
| Kernel.Hrp2.MutexScanCeilmtx | kernel/mutex.c:250-265 | true exactly if a held mutex has a ceiling |
| Kernel.Hrp2.MutexCalcPriority | kernel/mutex.c:274-291 | the loop finds the highest of base priority and held ceilings |
| Kernel.Hrp2.MutexDropPriority | kernel/mutex.c:310-322 | the priority drops exactly if the mutex just given up determined it |
| Kernel.Hrp2.MutexAcquire | kernel/mutex.c:298-336 | owner, list of held mutexes and, if the ceiling is higher, the priority |
| Kernel.Hrp2.MutexRelease | kernel/mutex.c:343-370 | to the first waiter, with its ceiling, or free |
| Kernel.Hrp2.MutexReleaseAll | kernel/mutex.c:379-393 | the loop ends with nothing held, and equals handing over mutex by mutex |
| Kernel.Hrp2.ActTsk | kernel/task_manage.c:375-453 | the code, with early exits and loops in place, changes the tables exactly as the state machine's step: a dormant task becomes ready, otherwise one activation is queued, a second answers E_QOVR; it asks for a dispatch exactly if one is needed |
| Kernel.Hrp2.ExtTsk | kernel/task_manage.c:498-552 | the code, with early exits and loops in place, changes the tables exactly as the state machine's step: the caller's mutexes are handed over, it becomes dormant or starts again if its activation was queued, and dispatching is possible again; it asks for a dispatch exactly if one is needed |
| Kernel.Hrp2.TerTsk | kernel/task_manage.c:561-619 | the code, with early exits and loops in place, changes the tables exactly as the state machine's step: a ready, waiting or suspended task leaves its queue and timer, hands its mutexes over and becomes dormant or starts again; E_ILUSE for oneself, E_OBJ for a dormant task; it asks for a dispatch exactly if one is needed |
| Kernel.Hrp2.ChgPri | kernel/task_manage.c:628-678 | the code, with early exits and loops in place, changes the tables exactly as the state machine's step: E_PAR, E_OBJ and E_ILUSE (minimum priority, ceilings held or waited for) in that order, then the new base priority, which shows unless a ceiling mutex is held; it asks for a dispatch exactly if one is needed |
| Kernel.Hrp2.SlpTsk | kernel/task_sync.c:172-244 | the code, with early exits and loops in place, changes the tables exactly as the state machine's step: takes a queued wakeup, or waits with or without a timer; E_CTX, E_PAR, E_TMOUT, E_RLWAI as the code checks them; it asks for a dispatch exactly if one is needed |
| Kernel.Hrp2.WupTsk | kernel/task_sync.c:253-337 | the code, with early exits and loops in place, changes the tables exactly as the state machine's step: ends the sleep of a sleeping task, otherwise queues one wakeup, a second answers E_QOVR; it asks for a dispatch exactly if one is needed |
| Kernel.Hrp2.RelWai | kernel/task_sync.c:385-455 | the code, with early exits and loops in place, changes the tables exactly as the state machine's step: ends any wait with E_RLWAI, E_OBJ if the task does not wait; it asks for a dispatch exactly if one is needed |
| Kernel.Hrp2.SusTsk | kernel/task_sync.c:464-515 | the code, with early exits and loops in place, changes the tables exactly as the state machine's step: takes a ready task out of the ready queue and marks a waiting one; E_QOVR if already suspended; it asks for a dispatch exactly if one is needed |
| Kernel.Hrp2.RsmTsk | kernel/task_sync.c:524-569 | the code, with early exits and loops in place, changes the tables exactly as the state machine's step: undoes the suspension: ready behind its equals, or just waiting; E_OBJ if not suspended; it asks for a dispatch exactly if one is needed |
| Kernel.Hrp2.DisWai | kernel/task_sync.c:578-656 | the code, with early exits and loops in place, changes the tables exactly as the state machine's step: sets the flag in the exception mask state only, E_QOVR if already set; it asks for a dispatch exactly if one is needed |
| Kernel.Hrp2.EnaWai | kernel/task_sync.c:665-731 | the code, with early exits and loops in place, changes the tables exactly as the state machine's step: clears the flag, E_OBJ if it is not set; it asks for a dispatch exactly if one is needed |
| Kernel.Hrp2.DlyTsk | kernel/task_sync.c:740-771 | the code, with early exits and loops in place, changes the tables exactly as the state machine's step: waits for base time + d, E_PAR above TMAX_RELTIM; it asks for a dispatch exactly if one is needed |
| Kernel.Hrp2.LocMtx | kernel/mutex.c:560-724 | acquires a free mutex, E_OBJ for the owner, E_ILUSE by ceiling, otherwise E_TMOUT, E_RLWAI or a place in the queue with or without a timer, exactly as the state machine's step; a lock that succeeds never needs a dispatch, and one that blocks always does |
| Kernel.Hrp2.PlocMtx | kernel/mutex.c:618-660 | the code, with early exits and loops in place, changes the tables exactly as the state machine's step: acquires a free mutex, otherwise E_OBJ for the owner and E_TMOUT for others; E_ILUSE by ceiling; never waits and never dispatches; it asks for a dispatch exactly if one is needed |
| Kernel.Hrp2.UnlMtx | kernel/mutex.c:733-775 | the code, with early exits and loops in place, changes the tables exactly as the state machine's step: gives up the mutex with the drop in priority and hands it to the first waiter; E_OBJ if the caller is not the owner; it asks for a dispatch exactly if one is needed |
| Kernel.Hrp2.IniMtx | kernel/mutex.c:784-827 | the code, with early exits and loops in place, changes the tables exactly as the state machine's step: every waiter is woken with E_DLT, the owner loses the mutex and the priority it gave; it asks for a dispatch exactly if one is needed |
| Kernel.Hrp2.SigSem | kernel/semaphore.c:331-413 | the code, with early exits and loops in place, changes the tables exactly as the state machine's step: wakes the first waiter or counts up, E_QOVR at the maximum; it asks for a dispatch exactly if one is needed |
| Kernel.Hrp2.WaiSem | kernel/semaphore.c:422-550 | the code, with early exits and loops in place, changes the tables exactly as the state machine's step: takes a unit or waits; E_CTX, E_PAR, E_TMOUT, E_RLWAI as the code checks them; it asks for a dispatch exactly if one is needed |
| Kernel.Hrp2.PolSem | kernel/semaphore.c:468-498 | the code, with early exits and loops in place, changes the tables exactly as the state machine's step: takes a unit or answers E_TMOUT; it asks for a dispatch exactly if one is needed |
| Kernel.Hrp2.IniSem | kernel/semaphore.c:559-591 | the code, with early exits and loops in place, changes the tables exactly as the state machine's step: every waiter is woken with E_DLT, the count is the initial one; it asks for a dispatch exactly if one is needed |
| Kernel.Hrp2.WaiQue | kernel/dataqueue.c:567-573 | what a call does that has to wait for a data queue, a pool or an event flag: its answers in the order of the checks, and the task with its timer in the queue of the object, exactly as the state machine's step |
| Kernel.Hrp2.WakQue | kernel/eventflag.c:383-401 | the tasks that sending, receiving, rel_mpf or set_flg serves leave the queue and their timers and are woken with E_OK one by one, exactly as the state machine's step; a dispatch is asked for exactly if the highest task changed |
| Kernel.Hrp2.IniQue | kernel/dataqueue.c:981-984 | every task in the queues of the object is woken with E_DLT, exactly as the state machine's step |
| Linked.ShownInOrder | kernel/wait.c:151-187 | a queue that the task tables show for an object is in order as the object has it, and holds exactly the tasks that wait on it |
| Linked.Joins | kernel/wait.c:167-187 | a task that has to wait joins the kernel's queue where the object puts it, and touches no other queue |
| Linked.Served | kernel/wait.c:78-84 | waking tasks takes exactly them out of the kernel's queue, in any order, and touches no other queue |
| Linked.FirstServed | kernel/wait.c:78-84 | serving the first task leaves the tail of the queue |
| Linked.FlagServed | kernel/eventflag.c:383-401 | waking the satisfied waiters of an event flag leaves exactly the others, in their order |
| Linked.GivesUp | kernel/wait.c:93-141 | a wait that ends by timeout, force or termination takes the task out of the kernel's queue as it does out of the object's |
| Linked.Moves | kernel/wait.h:270-277 | a change of priority moves a waiting task in the kernel's queue as it does in the object's |
| Linked.Emptied | kernel/wait.c:196-211 | initialization empties the kernel's queues of the object |
| Kernel.Hrp2.RotRdq | kernel/sys_manage.c:187-237 | the code, with early exits and loops in place, changes the tables exactly as the state machine's step: rotates the queue of the given or of the caller's base priority, E_PAR out of range; it asks for a dispatch exactly if one is needed |
| Kernel.Hrp2.DisDsp | kernel/sys_manage.c:437-455 | dispatching becomes impossible, and `dspflg` is exact |
| Kernel.Hrp2.EnaDsp | kernel/sys_manage.c:464-487 | dispatching becomes possible if the mask allows it; the answer says whether to dispatch |
| Kernel.Hrp2.ChgIpm | kernel/interrupt.c:496-531 | `ipmflg` and `dspflg` after a change of the mask; the answer says whether to dispatch |
| Kernel.Hrp2.StaCyc | kernel/cyclic.c:331-364 | registered for base time + phase, replacing an earlier registration |
| Kernel.Hrp2.StpCyc | kernel/cyclic.c:373-403 | cancelled if it was started |
| Kernel.Hrp2.StaAlm | kernel/alarm.c:319-395 | registered for base time + t, replacing an earlier registration; E_PAR above TMAX_RELTIM |
| Kernel.Hrp2.StpAlm | kernel/alarm.c:404-470 | cancelled if it was started |
| Kernel.Hrp2.CallCychdr | kernel/cyclic.c:455-483 | up to the handler: registered again for the old event time + period |
| Kernel.Hrp2.CallAlmhdr | kernel/alarm.c:522-546 | up to the handler: no longer started |
| Kernel.Hrp2.TaskCall | kernel/task_manage.c:375-678 | a whole service call of a task, with its dispatch, is one step of the state machine; in particular the dispatch happens exactly if the highest task changed and dispatching is possible |
| Kernel.Hrp2.IntrCall | kernel/task_manage.c:420-453 | a whole service call of an interrupt handler is one step of the state machine |
| Kernel.Hrp2.FireTop | kernel/time_event.c:385-389 | one round of the loop of `signal_time`: the earliest event is taken out and its callback does the matching step |
| Kernel.Hrp2.SignalTime | kernel/time_event.c:351-397 | the whole tick with the loop, for any calls that handlers and interrupts make after each event: it ends, is a run of the state machine from start to end of the tick, and leaves nothing due |
| Kernel.Hrp2.StartKernel | kernel/startup.c:85-116 | start-up ends in the boot state of the state machine |
| Kernel.Hrp2.ExitInterrupt | arch/arm_gcc/common/core_support.S:525-575 | on the way out of interrupt handling the dispatch that was asked for takes place |
| WaitQueue.PlaceTpri | kernel/wait.h:59-72 | the search stops where the list function puts the task: behind its equals |
| WaitQueue.PlaceOf | kernel/wait.c:151-160 | by priority with TA_TPRI, otherwise at the end |
| WaitQueue.Join | kernel/wait.c:151-160 | the task joins with its wait information; every task is there once, and a TA_TPRI queue stays sorted |
| WaitQueue.Move | kernel/wait.h:270-277 | after a change of its priority the task is behind its new equals, nobody is lost, and a TA_TPRI queue is sorted by the new priorities |
| WaitQueue.JoinedOk | kernel/wait.c:151-160 | joining keeps a queue in order |
| WaitQueue.MovedOk | kernel/wait.h:270-277 | changing a priority and moving the task keeps a queue in order by the new priorities |
| QueueRing.Initialize | include/queue.h:73-78 | a queue is a ring of itself alone, standing for the empty list |
| QueueRing.InsertPrev | include/queue.h:86-93 | the pointers form a ring again, with the new entry in front of the given one and everything else in place |
| QueueRing.InsertNext | include/queue.h:101-108 | the pointers form a ring again, with the new entry behind the given one and everything else in place |
| QueueRing.Delete | include/queue.h:115-120 | the ring without the entry, wherever it was |
| QueueRing.DeleteNext | include/queue.h:130-140 | takes out and returns the first entry |
| QueueRing.Empty | include/queue.h:147-155 | true exactly if the list is empty |
| QueueRing.EndsOfQueue | include/queue.h:86-108 | insertion in front of the header appends, insertion behind it prepends |
| QueueRing.DeleteRemoves | include/queue.h:115-120 | deletion takes the task out of the list of tasks |
| QueueRing.InsertTpri | kernel/wait.h:59-72 | the pointer walk inserts where the list function puts the task: behind its equals |
| PriDataQueue.InsertStable | kernel/pridataq.c:209-237 | an insertion appends to the data of its own priority and leaves those of every other priority alone |
| PriDataQueue.HeadIsOldest | kernel/pridataq.c:246-260 | the head is the oldest datum of the highest priority present |
| PriDataQueue.Storage.Enqueue | kernel/pridataq.c:209-237 | the linked list becomes the sorted insertion; no cell is shared between data list and free list, none beyond the capacity is used, `count` is the length |
| PriDataQueue.Storage.Dequeue | kernel/pridataq.c:246-260 | the head is returned and its cell goes to the free list |
| PriDataQueue.Storage.TakeCell | kernel/pridataq.c:215-222 | a cell that is in neither list, from the free list or the unused rest |
| PriDataQueue.Storage.FindPlace | kernel/pridataq.c:227-233 | the walk stops where the sorted insertion puts the datum |
| PriDataQueue.PriDataq.SendPridata | kernel/pridataq.c:269-289 | to the first receiver, into the queue, or not at all; nothing is lost, and within each priority the data delivered, queued and offered are those submitted, in that order |
| PriDataQueue.PriDataq.ReceivePridata | kernel/pridataq.c:298-330 | from the queue, refilled by the first sender, or from the first sender; the waiting invariants hold |
| PriDataQueue.PriDataq.SndPdq | kernel/pridataq.c:510-706 | snd_pdq and tsnd_pdq with their answers in the order of the checks: E_CTX when dispatching is disabled, E_PAR, sent, E_TMOUT, E_RLWAI, otherwise the caller joins the senders by arrival or priority; what is submitted is exactly what is sent or offered |
| PriDataQueue.PriDataq.PsndPdq | kernel/pridataq.c:565-645 | psnd_pdq and ipsnd_pdq: E_PAR, sent, or E_TMOUT with nothing changed |
| PriDataQueue.PriDataq.RcvPdq | kernel/pridataq.c:715-872 | rcv_pdq and trcv_pdq with their answers, E_CTX included; the head of the queue, or the first sender's datum |
| PriDataQueue.PriDataq.PrcvPdq | kernel/pridataq.c:773-808 | the head of the queue or the first sender's datum, or E_TMOUT with nothing changed |
| PriDataQueue.PriDataq.ChangePriority | kernel/wait.h:270-277 | a sender whose priority changes moves behind its new equals, and the queue of senders stays sorted |
| PriDataQueue.OfPriSnoc | kernel/pridataq.c:209-237 | what is appended shows at the end of its own priority only |
| PriDataQueue.Enqueued | kernel/pridataq.c:269-289 | storing a datum keeps the order within every priority |
| PriDataQueue.Refilled | kernel/pridataq.c:298-330 | moving the first sender's datum into the queue keeps the order within every priority |
| PriDataQueue.PriDataq.ReceiverGivesUp | kernel/wait.c:134-141 | a receiver that gives up leaves its queue, and nothing else changes |
| PriDataQueue.PriDataq.WaitToSend | kernel/pridataq.c:543-549 | a sender waits only when the queue is full and no receiver waits |
| PriDataQueue.PriDataq.WaitToReceive | kernel/pridataq.c:746-758 | a receiver waits only when the queue is empty and no sender waits |
| PriDataQueue.PriDataq.SenderGivesUp | kernel/wait.c:134-141 | a sender that gives up takes its datum with it, and nothing else changes |
| PriDataQueue.PriDataq.InitPdq | kernel/pridataq.c:881-919 | all senders, then all receivers, are woken with E_DLT, and the storage is empty |
| DataQueue.DataRing.Enqueue | kernel/dataqueue.c:223-232 | the ring's contents are extended at the end |
| DataQueue.DataRing.ForceEnqueue | kernel/dataqueue.c:241-255 | a full ring loses its oldest datum and gains the new one |
| DataQueue.DataRing.Dequeue | kernel/dataqueue.c:264-273 | the oldest datum |
| DataQueue.Dataq.SendData | kernel/dataqueue.c:282-301 | to the first receiver, into the ring, or not at all |
| DataQueue.Dataq.ForceSendData | kernel/dataqueue.c:310-324 | to the first receiver or into the ring, by overwriting if it is full; order is kept unless something was overwritten |
| DataQueue.Dataq.FsndDtq | kernel/dataqueue.c:725-791 | answers E_OK in every case, also for a queue without capacity, where nothing is sent |
| DataQueue.Dataq.ReceiveData | kernel/dataqueue.c:333-361 | delivered ++ ring ++ waiting senders' data is the sequence submitted, as long as nothing was overwritten, withdrawn or queued by priority; as a bag always; including capacity 0 |
| DataQueue.Dataq.SndDtq | kernel/dataqueue.c:538-716 | snd_dtq and tsnd_dtq with their answers in the order of the checks, E_CTX included; what is submitted is exactly what is sent or offered |
| DataQueue.Dataq.PsndDtq | kernel/dataqueue.c:588-660 | psnd_dtq and ipsnd_dtq: sent, or E_TMOUT with nothing changed |
| DataQueue.Dataq.RcvDtq | kernel/dataqueue.c:800-951 | rcv_dtq and trcv_dtq with their answers, E_CTX included: the first of the pending data whenever there is one |
| DataQueue.Dataq.PrcvDtq | kernel/dataqueue.c:856-890 | the first of the pending data, or E_TMOUT with nothing changed |
| DataQueue.Dataq.ChangePriority | kernel/wait.h:270-277 | a sender whose priority changes moves behind its new equals, and the queue of senders stays sorted |
| DataQueue.Dataq.ReceiverGivesUp | kernel/wait.c:134-141 | a receiver that gives up leaves its queue, and nothing else changes |
| DataQueue.Dataq.WaitToSend | kernel/dataqueue.c:567-573 | a sender waits only with a full ring and no receiver waiting |
| DataQueue.Dataq.WaitToReceive | kernel/dataqueue.c:830-842 | a receiver waits only with an empty ring and no sender waiting |
| DataQueue.Dataq.SenderGivesUp | kernel/wait.c:134-141 | its datum is withdrawn, nothing else changes |
| DataQueue.Dataq.InitDtq | kernel/dataqueue.c:960-997 | all senders, then all receivers, are woken with E_DLT, and the ring is empty |
| MemPool.Pool.GetMpfBlock | kernel/mempfix.c:189-206 | a block that is not outstanding; free list, marks and `fblkcnt` stay exact |
| MemPool.Pool.GetMpf | kernel/mempfix.c:391-528 | get_mpf and tget_mpf with their answers, E_CTX included: a block while there is one; a task waits only when there is none, by arrival or priority |
| MemPool.Pool.PgetMpf | kernel/mempfix.c:441-472 | a block while there is one, otherwise E_TMOUT with nothing changed |
| MemPool.Pool.ChangePriority | kernel/wait.h:270-277 | a waiting task whose priority changes moves behind its new equals, and the queue stays sorted |
| MemPool.Pool.RelMpf | kernel/mempfix.c:537-588 | accepts exactly the addresses of outstanding blocks (E_PAR otherwise); with a waiter the block stays allocated and goes to the first waiter |
| MemPool.Pool.BlocksApart | kernel/mempfix.c:404-426 | outstanding blocks lie in the pool and do not overlap |
| MemPool.Pool.InitMpf | kernel/mempfix.c:597-631 | everybody who waits is woken with E_DLT, and every block is free again |
| MemPool.Accepts | kernel/mempfix.c:559-565 | the four checks of `rel_mpf`, in 32-bit arithmetic, succeed exactly for outstanding blocks, and find their index |
| EventFlag.MetExactly | kernel/eventflag.c:379-401 | the tasks to wake are exactly the waiters whose condition holds, by bits: with TWF_ANDW every bit waited for is set, with TWF_ORW some bit is |
| EventFlag.CondByBits | kernel/eventflag.c:199-200 | the test of the code on the whole word decides the condition stated bit by bit from `wfmode`: with TWF_ANDW every bit of the pattern is set, with TWF_ORW some bit is |
| EventFlag.BitByBit | kernel/eventflag.c:380-380 | set_flg sets bit i exactly if it was set or is given, and clr_flg keeps it exactly if it was set and is given |
| EventFlag.ClearKeeps | kernel/eventflag.c:486-489 | clearing bits meets no waiter's condition |
| EventFlag.EventFlg.CheckFlgCond | kernel/eventflag.c:196-208 | true exactly if the condition holds by bits for the waiter's own mode; then the pattern before clearing, and the clearing |
| EventFlag.EventFlg.SetFlg | kernel/eventflag.c:357-459 | wakes exactly the waiters whose conditions hold by bits, in order, each with the new pattern; with TA_CLR only the first, after which the pattern is 0; nobody whose condition holds is left waiting |
| EventFlag.EventFlg.ClrFlg | kernel/eventflag.c:468-495 | the pattern is masked; still nobody satisfied waits |
| EventFlag.EventFlg.WaiFlg | kernel/eventflag.c:504-660 | wai_flg and twai_flg with their answers in the order of the checks (E_CTX, E_PAR for the pattern, the mode and the timeout, E_ILUSE for a second waiter without TA_WMUL): E_OK at once exactly if the condition holds by bits for the given mode, otherwise waiting by arrival or priority |
| EventFlag.EventFlg.PolFlg | kernel/eventflag.c:561-597 | the answers of pol_flg, which never waits: E_OK exactly if the condition holds by bits for the given mode |
| EventFlag.EventFlg.ChangePriority | kernel/wait.h:270-277 | a waiting task whose priority changes moves behind its new equals; the queue stays sorted, and nobody satisfied waits |
| EventFlag.EventFlg.InitFlg | kernel/eventflag.c:669-701 | everybody who waits is woken with E_DLT, and the pattern is the initial one |
| Serial.WriterProgress | syssvc/serial.c:486-536 | a step of a writer puts the next of the characters it has left (with CR before LF if asked for), and waiting for the token changes nothing about them |
| Serial.SendSide.WriterStep | syssvc/serial.c:430-536 | in every interleaving: tokens + holders + (1 if the buffer is full) is 1, so a holder always finds room; characters leave in the order written |
| Serial.SendSide.WhatWasWritten | syssvc/serial.c:430-536 | when a writer is done, in any interleaving with others, the characters it has put since it started are exactly the text it counts, with CR before each LF if the port asks for it; only a release between CR and LF leaves that CR as well |
| Serial.OnTheLine | syssvc/serial.c:440-454 | the text on the line has the characters of the text given in their order, with CR right before each LF that has found IOCTL_CRLF on; `LineLength`: and nothing else |
| Serial.LineLength | syssvc/serial.c:440-454 | the number of characters on the line is that of the text and one for each such LF |
| Serial.LogStep | syssvc/serial.c:430-481 | each step of a writer keeps its log exact: the characters completed so far, each as its own setting of IOCTL_CRLF asks, and the CR of an LF that is still to come |
| Serial.SendSide.SigSem | kernel/semaphore.c:331-413 | the token goes to the first waiting writer or back to the semaphore, never beyond its maximum |
| Serial.SendSide.SendNext | syssvc/serial.c:707-740 | the next character leaves the buffer; the token of a full buffer comes back, and the signal never answers E_QOVR |
| Serial.SendSide.RelWai | syssvc/serial.c:512-520 | a writer that is released by force has no token, and the protocol goes on |
| Serial.SendSide.SerialGetChr | syssvc/serial.c:818-835 | takes a character if there is one, without giving back the token of a full buffer: the protocol survives if and only if the buffer was not full |
| Serial.TokenLost | syssvc/serial.c:818-835 | the buffer can be full: a run of one writer, a buffer of one character and a device that refuses it, after which serial_get_chr leaves no token at all |
| Serial.SendSide.HolderAlone | syssvc/serial.c:430-481 | a writer with the token is the only one, and there is room |
| Serial.RecvSide.ReaChr | syssvc/serial.c:541-573 | a reader with the token finds a character; START is sent once the buffer has emptied enough, at once if the device takes it, otherwise left for the next callback |
| Serial.RecvSide.ReaderStep | syssvc/serial.c:578-644 | a reader at the head of its loop takes the token it has, gets one, or waits; the token count stays 1 |
| Serial.RecvSide.HolderAlone | syssvc/serial.c:541-573 | a reader with the token is the only one, and there is a character |
| Serial.RecvSide.Arrive | syssvc/serial.c:775-812 | a character goes into the buffer or is discarded if it is full; the signal never answers E_QOVR; STOP is sent once the buffer has filled up enough, at once if the device takes it, otherwise left for the next callback |
| Token.KernelSignals | kernel/semaphore.c:331-413 | sig_sem on a semaphore of the kernel with maximum 1 is the step of the driver's token, with the same answer, and wakes the first waiter |
| Token.KernelWaits | kernel/semaphore.c:422-459 | wai_sem on such a semaphore is the step of the driver's token: the unit, or a place in the queue |
| Token.KernelReleases | kernel/task_sync.c:385-417 | rel_wai of a task that waits on it is the step of the driver's token |
| Serial.SioIrdySnd | syssvc/serial.c:707-740 | flow-control character first, then data, otherwise the callback is switched off; both protocols hold |
| Serial.SioIrdyRcv | syssvc/serial.c:745-813 | START and STOP act on the send side, and a resumed side hands its next character to the device if it takes one; other characters arrive; both protocols hold |

## Left out

- Creation and deletion (`acre_*`, `del_*`, `sac_*`): the configuration is fixed at start-up.
- Checks of identifiers, access rights and calling context (kernel/check.h): calls carry arguments that name existing objects; parameter and state errors are modelled, and so is E_CTX where a call refuses to wait while dispatching is disabled.
- Task exceptions, overrun timers, CPU exceptions and memory protection: they depend on assembly and hardware. That a task is in the exception mask state is a parameter of `dis_wai`, and a pending exception never interrupts a modelled step.
- The target-dependent part, devices and interrupt controllers: `sio_snd_chr` answers an arbitrary truth value, except in `sio_irdy_snd`, where the code assumes success.
- Inquiry and cancellation calls (`ref_*`, `get_pri`, `get_inf`, `can_act`, `can_wup`), log output and trace macros: they read or clear one field.
- Data queues, priority data queues, pools and event flags are classes of their own next to `Kernel.Hrp2`: that one call changes both is not one method, but `Linked` shows that the steps of the two agree queue by queue.
- Firing order of events with equal times: the heap is not stable, and nothing is claimed beyond non-decreasing times.
- Queues inside `Kernel.Hrp2` are sequences; `QueueRing` proves that the pointer operations of include/queue.h do on rings what the sequence operations do.
- Serial.RecvSide: IOCTL_ECHO is off, because with echo a forced release during the wait loses the token (syssvc/serial.c:621-638).
- Serial.SendSide: one open session without `errorflag`, which is set only when a signal fails, and none does; closing a port while a transfer is going on (syssvc/serial.c:384-389) is not modelled, and the semaphores start with the counts that the configuration gives them (1 and 0); `Token` relates them to those of the kernel.
- Loops of handlers that never return and starvation of lower-priority tasks: a handler's list of calls is finite.
