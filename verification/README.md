# Verified models of the RIOT kernel core and of a CoAP resource directory

A Dafny project that models three parts of the repository and proves what they are for.

**The kernel core** (`RIOT/core`: `sched.c`, `thread.c`, `mutex.c`, `cond.c`, `msg.c`, `mbox.c`,
`thread_flags.c`). All of these share one link per thread, which is on the run queue of its priority
or on one wait list, and a table of circular run queues indexed by a bit cache. There are two layers.

* The state machine: `KernelTypes`, `KernelSpec` (every call, as a function of the whole state, in the
  order in which the code does things) and `KernelSteps` (what may happen when, the invariant, runs).
  A step is one section with interrupts disabled, the next action of a call that goes on after
  `irq_restore`, an interrupt handler beginning or ending, or a preemption. `KernelLinks` to
  `KernelMboxSteps` prove the invariant call by call and `KernelInvariant` puts them together;
  `KernelWaking`, `KernelHistory` and `KernelFrames` say what one step can do to a thread, to its
  messages, to a mutex and to a mailbox; `KernelResults`, `KernelMessageResults` and
  `KernelMailResults` are the theorems about reachable states and whole runs. `KernelCalls`,
  `KernelDeliveries` and `KernelReceipts` say, call by call and without the functions of `KernelSpec`,
  what a call made in a reachable state returns, to whom it does what, and what it leaves alone.
  `KernelLimits` has the exact conditions under which the code does not do what one would like, and
  `KernelExamples` runs from the start that get there, followed step by step with the pictures of
  `KernelSights`.
* The machine: `KernelMachine` has a class `Kernel` with the data as the code stores it: links, list
  heads, the mutex word, the bit cache, and for every message queue and mailbox an array with the
  counters of `Cib`. Its methods are the code of the calls, with their loops over links, and each is
  proved to do what the function of `KernelSpec` does; `KernelMemory` has the lemmas about links and
  rings for this, `KernelSections` those about single calls, and `BitArithmetic` proves the bit cache
  and the bit searches. `KernelRefinement` puts the two layers together: from every state that
  satisfies the invariant, every step of the state machine is what these methods do, and so is every
  run. `KernelGuards` has the facts that let them be called, `KernelFields` which fields a call leaves
  alone.

**Data structures of the kernel**: `ClistSort` (the in-place merge sort of circular lists), `Cib` (the
counters behind message queues and mailboxes), `RingBuffer` (the byte ring buffer), and `Rmutex` with
`RmutexCalls` (the recursive mutex, with all threads interleaved between single statements, and its
calls from the first statement to the last).

**The resource directory** (`coaperator/pkg/corerd.py`, which follows
draft-ietf-core-resource-directory-25, now RFC 9176, section 5): `Registry` has the registrations and
the effect of requests as functions, `RegistryEntries` which requests succeed and what they leave in
the directory, `ResourceDirectory` what the events do to the dictionaries, objects and timers and a
class whose methods are proved to do it, and `DirectoryRuns` the theorems about all runs of
registrations, updates, deletions, refused requests and timers that end.

`dafny verify dfyconfig.toml` checks everything.

## How the kernel is modelled

* A thread is named by the index of its control block, which is never used again for another
  thread; PIDs are reused. Priorities are below 16 and PIDs at most 32.
* `todo` is what a thread still does in its current call after `irq_restore`. A switch that is asked
  for with interrupts disabled is such an action, so any number of interrupt handlers can run between
  `irq_restore` and the switch (`RIOT/cpu/native/irq_cpu.c:178-214`,
  `RIOT/cpu/native/native_cpu.c:228-247`). A preemption is a call of `sched_run` at any time with
  interrupts enabled and may happen more often than on the native port.
* When `sched_run` finds no thread it idles, and an interrupt handler may end that. Two things differ
  from the code here. While the processor idles after the last runnable thread has ended there is no
  active thread, and the code of `sched_switch` reads through that NULL (`RIOT/core/sched.c:281-291`);
  the model takes it as a request. And if the thread that was active before idling is woken with
  status Running and another one is chosen, the code, which has forgotten it by then, leaves that
  status (`RIOT/core/sched.c:152-199`), where the model makes it Pending; both are runnable, and no
  result depends on which it is.
* A new thread starts with no flags set, whereas `thread_create` leaves that field as it finds it.
* `mutex_trylock` is a step of threads only, not of interrupt handlers.
* Blocking calls are made by threads with interrupts enabled. Further assumptions are the guards of
  `KernelSteps`: a reply goes to an existing thread and, if that waits for one, after its request was
  received; a request goes to an existing thread other than the caller; `mutex_cancel` gets the
  structure that the waiting thread uses, and such a structure is not initialized anew while in use;
  a thread that changes priority is the head of its run queue or on no list; `msg_init_queue` is
  called with an empty queue and nobody waiting. `KernelLimits` shows for which calls the reply, the
  target and the head are needed.
* Fields that no branch depends on record history: `loc` and `ticket` of a link, `lock`,
  `answerable`, `answer`, `mail`, `sent`, `got`, the counts `grants` and `releases`, `put`, `taken`,
  `takers`, `waited` and `overtaken` of a mailbox, `late` of a cancellation, serial numbers of
  messages. `MutexAccounts`, `LockAnswers`, `UnlocksAlike`, `StepAccepts`, `SendAnswers`,
  `SendIntAnswers`, `ReceiveAnswers`, `StepRecords`, `DeliveryArrives` and `LateIffCancelledLate` tie
  them to what calls return and do.
* The refinement takes queues and mailboxes whose size is 0 or a power of 2 below 2^31; `cib_init`
  asserts the first, and `Cib.FullIs` shows why the largest size does not work.
* The message that `_mbox_put` hands to a waiting reader keeps the sender field of the caller's
  structure, whereas one that goes to the ring gets the sender's PID, as in `RIOT/core/mbox.c:60-95`.

## Where the code falls short

Each of these is proved with its exact condition: `msg_send_receive` to a missing target takes its
caller off the run queue (`KernelLimits.MissingTargetTakesCallerOffQueue`); a blocking `_mbox_put`
can leave a reader blocked beside its message (`KernelLimits.RetryLosesWakeup`);
`mutex_lock_cancelable` can report a cancellation although its caller holds the mutex
(`KernelResults.CancelableReturns` with `LateIffCancelledLate`); a reply before its request was
received breaks the lists (`KernelLimits.EarlyReplyBreaksLinks`); a message ring of the largest
documented size is never full (`Cib.Ring.Put`); `refcount` of a recursive mutex wraps
(`Rmutex.OverflowBreaks`); a failed re-registration has deleted the registration, against the comment
at `coaperator/pkg/corerd.py:357` (`Registry.FailedRegistration`); an update can fail with an
unassigned variable after it has set the lifetime, and then nobody is told (`Registry.RejectedUpdate`,
`DirectoryRuns.ChangesAreTold`). Examples that start at the beginning are in `KernelExamples`,
`Rmutex.OverflowHappens` and `DirectoryRuns.LateFailureHappens`; `Registry.FailedRegistrationExample`
has a re-registration that fails.

## Model

| member | source | states |
|---|---|---|
| `KernelInvariant.StepKeeps` | RIOT/cpu/native/irq_cpu.c:178-214 | Every step - a kernel call up to the point where it restores interrupts, the next action of a call in progress, an interrupt handler beginning or ending, a preemption - keeps the whole invariant: link discipline, wait conditions, rendezvous, message flow, strict priority, PID table, mutex accounts, mailboxes, serial numbers |
| `KernelInvariant.RunKeeps` | RIOT/cpu/native/native_cpu.c:228-247 | So does every run, with any number of other steps between irq_restore and the switch that it allows |
| `KernelInvariant.ReachableOk` | RIOT/cpu/native/native_cpu.c:228-247 | The invariant holds in every state that any interleaving reaches from one running thread |
| `KernelResults.OneLink` | RIOT/core/sched.c:230-279 | In every reachable state a thread is on at most one list, on the run queue of its priority exactly if it is runnable, on a list of the kind its status names if it is mutex, condition, mailbox or send blocked, on no list but one of senders if it waits for a reply, and on none otherwise |
| `KernelResults.ListsInOrder` | RIOT/core/thread.c:154-172 | No list holds a thread twice; wait lists are sorted by priority, and among equals (in run queues too) by the time of joining |
| `KernelResults.BlockerIsHead` | RIOT/core/sched.c:251-263 | A thread that makes a blocking call, also one that does so at the end of another call, is the head of its run queue, so the pop, which takes the head and not its argument, takes out exactly that thread |
| `KernelResults.StrictPriority` | RIOT/core/sched.c:281-305 | Whenever a thread runs its own code with interrupts on, no runnable thread has a higher priority, and the running one is the first of its priority |
| `KernelResults.SchedRunTakesTheFirst` | RIOT/core/sched.c:147-225 | A switch gives the processor to the head of the highest-priority run queue that is not empty, and takes back the request |
| `KernelResults.SchedRunIdles` | RIOT/core/sched.c:147-225 | Sched_run never changes the order of any list, and idles exactly if no thread is runnable |
| `KernelResults.IdleMeansNobodyRuns` | RIOT/core/sched.c:147-225 | Outside interrupt handlers the processor idles only while no thread is runnable: no wake-up from the idle loop is lost |
| `KernelResults.NoOvertaking` | RIOT/core/thread.c:154-172 | In no step of any run does a thread get ahead of one that waits, unless it has just arrived with a strictly higher priority; those that keep waiting keep their order |
| `KernelMessageResults.RoundRobin` | RIOT/core/thread.c:141-152 | K threads that share the highest runnable priority and only call thread_yield run in queue order, one turn each, and after k turns the queue is as it was |
| `KernelWaking.OnlyTheAwaitedCallWakes` | RIOT/core/sched.c:265-279 | A blocked thread keeps its status, its link and its buffer in every step that is not the call it waits for |
| `KernelWaking.BlockedUntilServed` | RIOT/core/sched.c:265-279 | Every step leaves a blocked thread as it is or serves it: it becomes runnable, or its request is received |
| `KernelCalls.PreemptionMarks` | RIOT/core/sched.c:147-225 | A preemption changes no list and no record but for which thread is marked as running |
| `KernelCalls.HandlerEnds` | RIOT/cpu/native/irq_cpu.c:178-214 | When a handler ends the processor switches exactly if a switch was requested, or it was idle and some thread is runnable now; otherwise nothing changes |
| `KernelCalls.CallerYields` | RIOT/core/thread.c:141-152 | Thread_yield puts its caller behind the others of its priority, with the order of these and every other list as before |
| `KernelCalls.WaiterYields` | RIOT/core/mbox.c:44-58 | The thread_yield at the end of a wait for a mailbox rotates the queue of a caller that is runnable again, and does nothing to one that is not |
| `KernelCalls.CallerRetires` | RIOT/core/thread.c:56-110 | Thread_sleep and thread_zombify take the caller off the head of its run queue with that status, and make it give up the processor |
| `KernelCalls.CallerExits` | RIOT/core/sched.c:307-326 | Sched_task_exit stops its caller, takes it off its run queue, frees its PID and no other, and something else runs |
| `KernelCalls.WakeupAnswers` | RIOT/core/thread.c:112-139 | Thread_wakeup returns 1 exactly for the PID of a sleeping thread, which is then runnable and on its run queue; otherwise it returns -1 and changes nothing |
| `KernelCalls.KillAnswers` | RIOT/core/thread.c:71-97 | Thread_kill_zombie returns 1 exactly for the PID of a zombie, and frees that PID alone; otherwise it returns -1 and changes nothing |
| `KernelCalls.CreateAnswers` | RIOT/core/thread.c:191-332 | Thread_create returns -EINVAL exactly for a bad priority and else -EOVERFLOW exactly without a free PID, with nothing changed; otherwise the least free PID, which now names a new thread of that priority without messages or flags, asleep or on its run queue |
| `KernelCalls.PriorityChanges` | RIOT/core/sched.c:335-370 | Sched_change_priority gives the thread that priority, and moves a runnable one whose priority differs to the tail of the new run queue |
| `KernelResults.MutexAccounts` | RIOT/core/mutex.c:97-135 | In every run grants minus releases of a mutex is 1 if it is locked and 0 if not, and a mutex with waiters is locked |
| `KernelResults.NoBarging` | RIOT/core/mutex.c:186-235 | While threads wait for a mutex no step unlocks it; a step that grants it releases it too and grants it to the first of them, who had none before; and in no step does any other thread come to hold it |
| `KernelResults.UnlockHandsOver` | RIOT/core/mutex.c:186-235 | Mutex_unlock gives the mutex to the first waiter, which becomes runnable and leaves the list alone with the others; without waiters it becomes free |
| `KernelResults.LockReturnsHeld` | RIOT/core/mutex.c:50-95 | A mutex_lock that had to block resumes only with the mutex granted to its caller |
| `KernelResults.CancelableStarts` | RIOT/core/mutex.c:137-175 | Calling mutex_lock_cancelable returns -ECANCELED at once, with nothing changed, exactly if it was cancelled before; otherwise it returns 0 with a free mutex granted, or blocks among the waiters of a locked one |
| `KernelResults.CancelableReturns` | RIOT/core/mutex.c:137-184 | A mutex_lock_cancelable that blocked returns 0 or -ECANCELED; 0 means granted, and -ECANCELED not granted, if and only if no cancellation came after the hand-over |
| `KernelResults.LateIffCancelledLate` | RIOT/core/mutex.c:267-297 | Over every run, the flag that says so is set exactly if, since mutex_cancel_init, some mutex_cancel of this structure was made while its thread was runnable in mutex_lock_cancelable with the mutex already handed to it |
| `KernelResults.CancelRemovesTheWaiter` | RIOT/core/mutex.c:267-297 | Mutex_cancel of a queued waiter takes out exactly that waiter, keeps the order of the others, wakes it without the mutex, grants and releases nothing |
| `KernelResults.CondWaitIsAtomic` | RIOT/core/cond.c:35-51 | Cond_wait, one section with interrupts disabled, releases the mutex or hands it to its first waiter, and ends with the caller among the waiters of the condition, due to lock the mutex again |
| `KernelResults.SignalWakesTheFirst` | RIOT/core/cond.c:53-78 | Cond_signal makes the first waiter runnable, takes it alone off the list and leaves the others as they are |
| `KernelResults.BroadcastWakesAll` | RIOT/core/cond.c:53-78 | Cond_broadcast makes all waiters runnable and empties the list |
| `KernelResults.CondWaitRelocks` | RIOT/core/cond.c:35-51 | A woken waiter gets the mutex, or blocks in a lock that resumes only with it |
| `KernelCalls.LockAnswers` | RIOT/core/mutex.c:97-135 | Mutex_trylock returns 1 exactly if the mutex is free, and then its caller has it and one grant more is counted; a trylock of a locked mutex returns 0 and changes nothing, a mutex_lock of one blocks its caller among the waiters |
| `KernelCalls.UnlocksAlike` | RIOT/core/mutex.c:186-265 | Mutex_unlock, mutex_unlock_and_sleep and cond_wait free the mutex or hand it to its first waiter alike, and touch no other thread; none of them does anything to a mutex that is not locked |
| `KernelCalls.UnlockerSleeps` | RIOT/core/mutex.c:237-265 | Mutex_unlock_and_sleep leaves its caller asleep and on no list |
| `KernelCalls.CancelMarks` | RIOT/core/mutex.c:267-297 | Mutex_cancel always marks its structure, before, during and after the wait, and does no more unless the thread waits for the mutex |
| `KernelCalls.CancelStartsAnew` | RIOT/core/include/mutex.h:266-271 | Mutex_cancel_init makes a structure for the caller that is not cancelled |
| `KernelMessageResults.ExactlyOnce` | RIOT/core/msg.c:86-181 | What was accepted for a thread is at any time received, queued or in the buffer of a waiting sender, as multisets, and no message was accepted twice |
| `KernelMessageResults.RunConservesMessages` | RIOT/core/msg.c:353-440 | Over any run, received plus queued plus waiting messages are exactly those of the sends that reported 1 |
| `KernelMessageResults.StepAccepts` | RIOT/core/msg.c:86-181 | A step that reports a send as 1 adds exactly its message - the value given, the PID of the caller or that of interrupt handlers, and a fresh serial number - to what the target was sent; every other step adds nothing |
| `KernelDeliveries.SendAnswers` | RIOT/core/msg.c:64-192 | Msg_send and msg_try_send return -1 exactly without a target, and 0 exactly if the target neither waits nor has room and they may not wait, with no thread changed; otherwise 1, and one message with the value given and the PID of the caller has arrived: in the buffer of the receiver, who is runnable, at the end of the queue, or in the buffer of the blocked caller, with flag 15 set in the last two cases |
| `KernelDeliveries.SendIntAnswers` | RIOT/core/msg.c:194-240 | The same of msg_send_int, whose message has the value given and KERNEL_PID_ISR as its sender, and which never waits |
| `KernelDeliveries.SendReceiveAnswers` | RIOT/core/msg.c:274-288 | Msg_send_receive sends that message as msg_send does, and leaves the caller waiting for a reply with the message in its own buffer too |
| `KernelReceipts.ReceiveAnswers` | RIOT/core/msg.c:353-440 | Receiving takes the oldest message and returns 1 if there is one: the first of the queue, whose slot goes to the first waiting sender's message, or without a queue that message itself, and that sender goes on unless it waits for a reply; with nothing to receive it returns -1 or blocks |
| `KernelReceipts.ReplyAnswers` | RIOT/core/msg.c:290-341 | A reply returns 1 exactly if its target waits for one, which then is runnable with the reply in its buffer; otherwise -1, with nothing changed |
| `KernelReceipts.QueueStarts` | RIOT/core/msg.c:484-490 | Msg_init_queue gives the caller an empty queue of that size, and changes nothing else |
| `KernelMessageResults.FirstInFirstOut` | RIOT/core/msg.c:353-440 | What a thread has received of one sender is a prefix of what that sender sent it, across direct copy, queue and blocked senders |
| `KernelMessageResults.NoStuckRendezvous` | RIOT/core/msg.c:112-154 | A receive-blocked thread has an empty queue and no waiting senders, and senders wait only for a full queue |
| `KernelMessageResults.RefillFits` | RIOT/core/msg.c:362-418 | When a receive takes a queued message while senders wait, the first sender's message fits in the slot just freed |
| `KernelMessageResults.RequestKept` | RIOT/core/msg.c:274-288 | In every step the request of a thread that waits for a reply stays in its buffer and the thread stays blocked, unless the step is a reply to it, which makes it runnable with that reply in the buffer |
| `KernelMessageResults.RequestReturnsReply` | RIOT/core/msg.c:290-341 | Msg_send_receive resumes with exactly the reply that was made in its buffer |
| `KernelMessageResults.ReceiveReturnsMessage` | RIOT/core/msg.c:424-430 | A msg_receive that had to block resumes with the last message received in its buffer |
| `KernelMessageResults.FlagWaitersLackFlags` | RIOT/core/thread_flags.c:28-54 | In every reachable state, flags set by queued messages included, an ANY waiter has none of its flags and an ALL waiter lacks one |
| `KernelCalls.FlagsAreSet` | RIOT/core/thread_flags.c:145-159 | Thread_flags_set adds exactly the flags of the mask to those of the thread, makes it runnable exactly if it waits for any or all of a mask that is now met, and changes no other thread |
| `KernelCalls.FlagsAreCleared` | RIOT/core/thread_flags.c:85-93 | Thread_flags_clear returns the flags of the mask that were set, and clears exactly those |
| `KernelCalls.FlagsAreAwaited` | RIOT/core/thread_flags.c:95-143 | The three waits block exactly while no flag of the mask is set, or for `all` while one is missing |
| `KernelMessageResults.WaitAnyReturns` | RIOT/core/thread_flags.c:108-114 | Thread_flags_wait_any returns a non-empty part of the mask and clears just that |
| `KernelMessageResults.WaitAllReturns` | RIOT/core/thread_flags.c:127-143 | Thread_flags_wait_all returns exactly the mask and clears it |
| `KernelMessageResults.WaitOneChooses` | RIOT/core/thread_flags.c:116-125 | Thread_flags_wait_one chooses the lowest flag of the mask that is set when it reads the flags |
| `KernelMessageResults.WaitOneReturns` | RIOT/core/thread_flags.c:116-125 | And returns that one flag, whatever is set in between |
| `KernelMailResults.StepRecords` | RIOT/core/mbox.c:60-127 | The histories of a mailbox are what its calls report: a put that returns 1, at once or after waiting for room, adds its message, a get that need not wait and a put that finds a reader deliver one, no other step adds anything |
| `KernelMailResults.DeliveryArrives` | RIOT/core/mbox.c:97-111 | A get that need not wait returns 1 with the oldest message of the ring; a put that finds readers puts its message into the buffer of the first, who is then about to return from its get |
| `KernelReceipts.PutAnswers` | RIOT/core/mbox.c:60-95 | A put returns 1 exactly if a reader waits, who then goes on with the message in its buffer, or there is room, and the message is then the last of the ring; 0 with nothing changed from a full mailbox if it may not block, and else it waits |
| `KernelReceipts.GetAnswers` | RIOT/core/mbox.c:97-127 | A get returns 0 exactly if the ring is empty and it may not block, with nothing changed; from a ring that is not empty it takes the oldest message and lets the first writer go on, and else it waits |
| `KernelReceipts.RetryAnswers` | RIOT/core/mbox.c:79-92 | A put that waited stores its message at the end of the ring exactly if there is room now, and else waits again |
| `KernelReceipts.MailboxStarts` | RIOT/core/include/mbox.h:62-68 | Mbox_init makes an empty mailbox of that size, and changes no other |
| `KernelMailResults.MailReturnsMessage` | RIOT/core/mbox.c:113-125 | An _mbox_get that had to block resumes with the message in its buffer that its mailbox delivered to it last |
| `KernelMailResults.RunConservesMail` | RIOT/core/mbox.c:60-127 | Over any run, the messages of the puts that returned 1 are those delivered plus those in the ring, as multisets, and the ring never holds more than its capacity |
| `KernelMailResults.NonBlockingPutsKeepOrder` | RIOT/core/mbox.c:60-127 | If no put blocks, delivery order is put order, and a reader waits only while the ring is empty |
| `KernelLimits.MissingTargetTakesCallerOffQueue` | RIOT/core/msg.c:274-288 | Msg_send_receive leaves its caller running off every run queue if and only if the target does not exist |
| `KernelLimits.EarlyReplyBreaksLinks` | RIOT/core/msg.c:290-319 | A reply keeps the link discipline if and only if the request it answers is no longer among the waiting senders |
| `KernelLimits.OnlyTheHeadCanChangePriority` | RIOT/core/sched.c:335-370 | Sched_change_priority of a runnable thread keeps the link discipline if and only if the thread is the head of its run queue |
| `KernelLimits.CreateWithoutYield` | RIOT/core/thread.c:316-328 | Creating a runnable thread without the final switch leaves the caller the right one to run if and only if the new thread has no higher priority |
| `KernelLimits.RetryLosesWakeup` | RIOT/core/mbox.c:60-95 | A put that waited for room stores its message beside a blocked reader if and only if there is room and a reader waits when it tries again |
| `KernelExamples.RetryStrandsReader` | RIOT/core/mbox.c:66-92 | And that happens: a run from the start, with a writer of priority 5 and a reader of priority 4, ends with the reader blocked on a mailbox that has a message |
| `KernelExamples.CancelledCallHoldsMutex` | RIOT/core/mutex.c:137-184 | A run from the start, in which the holder unlocks and then cancels before the waiter runs, ends with mutex_lock_cancelable returning -ECANCELED to the thread that holds the mutex |
| `KernelExamples.MissingTargetAtStart` | RIOT/core/msg.c:274-288 | The only thread sends a request to a PID that does not exist, and runs on off its run queue |
| `KernelExamples.EarlyReplyHappens` | RIOT/core/msg.c:290-319 | A run from the start leads to a state in which the thread that was asked can reply before it has received the request, which breaks the lists |
| `KernelRefinement.Do` | RIOT/cpu/native/irq_cpu.c:178-214 | Every step of the state machine, enabled in a state that satisfies the invariant, can be made by calling the methods of the machine, whose demands are then met, and leads to exactly the state it should |
| `KernelRefinement.Execute` | RIOT/cpu/native/native_cpu.c:228-247 | So can every run, one step after the other, with links, bit cache and rings intact after each |
| `KernelRefinement.Boot` | RIOT/core/thread.c:263-326 | The machine starts in a state that is an initial state of the state machine |
| `KernelMachine.Kernel.ListRemoveHead` | RIOT/core/lib/include/list.h:67-75 | List_remove_head on the links: the head of the list is unlinked, and no other list changes |
| `KernelMachine.Kernel.ThreadAddToList` | RIOT/core/thread.c:154-172 | The loop of thread_add_to_list links the thread behind all of the same or a higher priority |
| `KernelMachine.Kernel.ListRemove` | RIOT/core/lib/include/list.h:86-96 | List_remove finds the thread if it is listed and unlinks only it; otherwise nothing changes |
| `KernelMachine.Kernel.RunqueuePush` | RIOT/core/sched.c:230-246 | _runqueue_push appends to the circular run queue and sets its bit in the cache |
| `KernelMachine.Kernel.RunqueuePop` | RIOT/core/sched.c:251-263 | _runqueue_pop takes off the head, whichever thread that is, and clears the bit of a queue that becomes empty |
| `KernelMachine.Kernel.RunqueueAdvance` | RIOT/core/include/sched.h:323-326 | Sched_runq_advance moves the head of a run queue to its tail |
| `KernelMachine.Kernel.SchedSetStatus` | RIOT/core/sched.c:265-279 | Sched_set_status links or unlinks the thread exactly if it becomes or ceases to be runnable |
| `KernelMachine.Kernel.SchedRunNow` | RIOT/core/sched.c:147-225 | Sched_run, with the queue it looks at found through the bit cache, is the abstract choice of the first thread of the highest priority |
| `KernelMachine.Kernel.TestForSwitch` | RIOT/core/sched.c:281-305 | The tests that decide on a switch after interrupts were restored |
| `KernelMachine.Kernel.SchedChangePriority` | RIOT/core/sched.c:335-370 | Sched_change_priority moves a runnable head to the tail of the queue of its new priority |
| `KernelMachine.Kernel.EndThread` | RIOT/core/sched.c:307-326 | Sched_task_exit up to the switch |
| `KernelMachine.Kernel.ThreadYield` | RIOT/core/thread.c:141-152 | Thread_yield |
| `KernelMachine.Kernel.ThreadRetire` | RIOT/core/thread.c:99-110 | Thread_sleep; with the status of a zombie, thread_zombify |
| `KernelMachine.Kernel.ThreadWakeup` | RIOT/core/thread.c:112-139 | Thread_wakeup: only a sleeping thread is woken, and it is marked as running |
| `KernelMachine.Kernel.ThreadKillZombie` | RIOT/core/thread.c:71-97 | Thread_kill_zombie frees the PID of a zombie only |
| `KernelMachine.Kernel.ThreadCreate` | RIOT/core/thread.c:191-332 | Thread_create: the priority check, the least free PID or -EOVERFLOW, the new record, its status and the switch |
| `KernelMachine.Kernel.MutexLockInternal` | RIOT/core/mutex.c:97-135 | Mutex_lock_internal on the mutex word, a null pointer, MUTEX_LOCKED or the first waiter; what it returns is said by KernelCalls.LockAnswers |
| `KernelMachine.Kernel.MutexLockCancelable` | RIOT/core/mutex.c:137-184 | Mutex_lock_cancelable up to its blocking |
| `KernelMachine.Kernel.MutexUnlock` | RIOT/core/mutex.c:186-235 | Mutex_unlock: nothing if unlocked, free without waiters, else handed to the first waiter with the word set to MUTEX_LOCKED if it was the last |
| `KernelMachine.Kernel.MutexUnlockAndSleep` | RIOT/core/mutex.c:237-265 | Mutex_unlock_and_sleep |
| `KernelMachine.Kernel.MutexCancelCall` | RIOT/core/mutex.c:267-297 | Mutex_cancel |
| `KernelMachine.Kernel.CondWaitCall` | RIOT/core/cond.c:35-51 | Cond_wait up to irq_restore: the unlock, whose switch is only requested, and the blocking |
| `KernelMachine.Kernel.CondSignal` | RIOT/core/cond.c:53-78 | _cond_signal: its loop wakes one or all waiters and switches to the highest priority among them |
| `KernelMachine.Kernel.RaiseFlagsOf` | RIOT/core/thread_flags.c:28-54 | The flags are set and the thread is woken exactly if it waits for them, which KernelCalls.FlagsAreSet says flag by flag |
| `KernelMachine.Kernel.ThreadFlagsSet` | RIOT/core/thread_flags.c:145-159 | Thread_flags_set on the machine, with the effect that KernelCalls.FlagsAreSet states |
| `KernelMachine.Kernel.ThreadFlagsWaitAny` | RIOT/core/thread_flags.c:95-106 | _thread_flags_wait_any |
| `KernelMachine.Kernel.ThreadFlagsWaitAll` | RIOT/core/thread_flags.c:127-143 | Thread_flags_wait_all up to its blocking |
| `KernelMachine.Kernel.ChooseFlag` | RIOT/core/thread_flags.c:116-125 | The choice of thread_flags_wait_one |
| `KernelSections.LowestIsWord` | RIOT/core/thread_flags.c:121-124 | V & (~v + 1) on the 16-bit word is the word with just the lowest flag of v, for every word |
| `KernelMachine.Kernel.QueueMsg` | RIOT/core/msg.c:44-62 | Queue_msg on the counters and the message array, with the flag that may wake the target |
| `KernelMachine.Kernel.StoreMsg` | RIOT/core/msg.c:44-62 | A message is stored to the slot that cib_put gives, and the queue of the thread, as the counters and the array hold it, is longer by that message |
| `KernelMachine.Kernel.FetchMsg` | RIOT/core/msg.c:362-372 | The slot that cib_get gives has the first message of the queue, which is then shorter by it |
| `KernelMachine.Kernel.MsgSendTo` | RIOT/core/msg.c:86-181 | _msg_send: direct copy, queue, refusal or blocking |
| `KernelMachine.Kernel.MsgSendOther` | RIOT/core/msg.c:64-84 | Msg_send and msg_try_send to another thread |
| `KernelMachine.Kernel.MsgSendToSelf` | RIOT/core/msg.c:183-192 | Msg_send_to_self |
| `KernelMachine.Kernel.SendOneway` | RIOT/core/msg.c:194-229 | _msg_send_oneway on the machine, with the message that KernelDeliveries.SendIntAnswers states |
| `KernelMachine.Kernel.MsgSendInt` | RIOT/core/msg.c:231-240 | Msg_send_int on the machine, with the answer and the message that KernelDeliveries.SendIntAnswers states |
| `KernelMachine.Kernel.MsgSendReceive` | RIOT/core/msg.c:274-288 | Msg_send_receive, the missing target included |
| `KernelMachine.Kernel.MsgReply` | RIOT/core/msg.c:290-341 | Msg_reply, and msg_reply_int in an interrupt handler |
| `KernelMachine.Kernel.MsgReceive` | RIOT/core/msg.c:353-440 | _msg_receive: queue, first waiting sender, both, neither |
| `KernelMachine.Kernel.StoreMail` | RIOT/core/mbox.c:87-92 | The same for the ring of a mailbox, without a test for room |
| `KernelMachine.Kernel.FetchMail` | RIOT/core/mbox.c:101-106 | And for taking a message out of it |
| `KernelMachine.Kernel.MboxPutCall` | RIOT/core/mbox.c:60-95 | _mbox_put up to its blocking |
| `KernelMachine.Kernel.RetryMboxPut` | RIOT/core/mbox.c:79-92 | The loop of _mbox_put goes round |
| `KernelMachine.Kernel.MboxGetCall` | RIOT/core/mbox.c:97-127 | _mbox_get up to its blocking |
| `KernelMachine.Kernel.ExitIsr` | RIOT/cpu/native/irq_cpu.c:178-214 | The switch that an interrupt handler has requested, or the end of the idle loop |
| `KernelGuards.CallerIsHead` | RIOT/core/sched.c:251-263 | The invariant gives every blocking call what it needs: the caller is the head of its run queue |
| `KernelGuards.CondWaitGuard` | RIOT/core/cond.c:35-51 | And still is after it has handed the mutex over |
| `KernelGuards.SendGuard` | RIOT/core/msg.c:86-181 | A sender may join the senders of a full target: whoever the message flag wakes is on no list |
| `KernelGuards.RequestGuard` | RIOT/core/msg.c:274-288 | So may a thread that asks for a reply |
| `KernelGuards.ReceiveGuard` | RIOT/core/msg.c:362-418 | The first waiting sender is another thread and stays the first while the queue is emptied by one |
| `BitArithmetic.HighestBit` | RIOT/core/lib/bitarithm.c:26-40 | The shift-based search finds the highest bit of every 32-bit word |
| `BitArithmetic.LowestBit` | RIOT/core/lib/include/bitarithm.h:222-232 | The loop finds the lowest bit of every word but 0 |
| `BitArithmetic.BitsSet` | RIOT/core/lib/bitarithm.c:42-51 | The loop counts the bits that are 1 |
| `BitArithmetic.OnesCounts` | RIOT/core/lib/bitarithm.c:42-51 | And that count is the number of positions with a 1 |
| `BitArithmetic.SetKeepsIndex` | RIOT/core/sched.c:94-101 | _set_runqueue_bit adds exactly one priority to those the cache indexes, in both encodings |
| `BitArithmetic.ClearKeepsIndex` | RIOT/core/sched.c:103-110 | _clear_runqueue_bit takes exactly one away |
| `BitArithmetic.LeastPriority` | RIOT/core/sched.c:112-119 | _get_prio_queue_from_runqueue is the least priority that is indexed, by the highest bit with CLZ and by the lowest without |
| `BitArithmetic.EmptyIndex` | RIOT/core/sched.c:147-225 | The cache is 0 exactly if no run queue has a thread |
| `ClistSort.ClistSort` | RIOT/core/lib/clist.c:52-153 | _clist_sort ends, and for any comparator that is a total preorder on the nodes returns the tail of a circular list of the same nodes, ordered stably, with its head behind the tail; NULL gives NULL |
| `ClistSort.SortedAndStable` | RIOT/core/lib/include/clist.h:400-442 | What that order means: sorted by the comparator, and nodes that compare equal in the order of the input |
| `ClistSort.StableSortIsUnique` | RIOT/core/lib/include/clist.h:400-442 | There is only one such arrangement |
| `ClistSort.PassSizes` | RIOT/core/lib/clist.c:61-152 | A pass doubles the length of the runs and halves their number, so the merges strictly fall |
| `ClistSort.PassSorts` | RIOT/core/lib/clist.c:61-152 | A pass keeps every run sorted and stable, and the runs in the order of the input |
| `ClistSort.MergeOrders` | RIOT/core/lib/clist.c:84-137 | Merging two such runs gives one: on a tie the first run goes first |
| `ClistSort.MergeRuns` | RIOT/core/lib/clist.c:84-137 | The relinking loop builds exactly that merge behind what was merged before, and leaves the rest of the list linked |
| `ClistSort.StepAlong` | RIOT/core/lib/clist.c:69-81 | The loop that steps along finds the end of a run and counts it |
| `ClistSort.MergePass` | RIOT/core/lib/clist.c:61-143 | One pass over the list, with the number of merges |
| `Cib.Ring.Put` | RIOT/core/lib/include/cib.h:158-168 | Cib_put refuses exactly if the ring is full, for every size of 0 and the powers of 2 up to 2^30; at the largest documented size, 2^31, a full ring is not refused and the slot of the oldest item is handed out. The wrap of the counters at 2^32 never shows |
| `Cib.Ring.Get` | RIOT/core/lib/include/cib.h:112-119 | Cib_get yields the slot of the oldest item and removes it, or -1 if there is none |
| `Cib.Ring.Peek` | RIOT/core/lib/include/cib.h:128-135 | Cib_peek yields the same slot and changes nothing |
| `Cib.GetHolds` | RIOT/core/lib/include/cib.h:112-119 | The slot of cib_get has the oldest item, and the rest of the queue is what the counters and the array then hold |
| `Cib.PutHolds` | RIOT/core/lib/include/cib.h:158-168 | Storing to the slot of cib_put appends to the queue and overwrites no item of it |
| `Cib.FullIs` | RIOT/core/lib/include/cib.h:88-103 | For every size of 0 and the powers of 2, across the wrap of the counters, cib_avail is the length of the queue, and cib_full is true exactly if the ring is full and its size is not 2^31 |
| `Cib.PutTest` | RIOT/core/lib/include/cib.h:158-168 | The signed comparison, for every size |
| `Cib.PowerOfTwoTest` | RIOT/core/lib/include/cib.h:58-66 | The assertion of cib_init accepts exactly 0 and the powers of 2 |
| `Cib.SlotsDiffer` | RIOT/core/lib/include/cib.h:112-119 | Counters less than a ring apart have different slots |
| `Cib.SlotsWrap` | RIOT/core/lib/include/cib.h:158-168 | Counters that differ by a multiple of the size have the same slot, so wrapping at 2^32 is harmless |
| `RingBuffer.Buffer.AddOne` | RIOT/core/lib/ringbuffer.c:70-79 | Ringbuffer_add_one appends; a full buffer drops and returns its oldest byte |
| `RingBuffer.Buffer.Add` | RIOT/core/lib/ringbuffer.c:57-68 | Ringbuffer_add appends as many bytes as fit, in order |
| `RingBuffer.Buffer.GetOne` | RIOT/core/lib/ringbuffer.c:81-89 | Ringbuffer_get_one takes the oldest byte, or returns -1 |
| `RingBuffer.Buffer.Get` | RIOT/core/lib/ringbuffer.c:91-115 | Ringbuffer_get takes the n oldest bytes, in one or two copies, and is the same as n single gets; the rest of the target buffer is untouched |
| `RingBuffer.BulkIsRepeated` | RIOT/core/lib/ringbuffer.c:91-115 | Taking bytes one by one gives the same bytes, and leaves the same, as taking them at once |
| `RingBuffer.Buffer.Remove` | RIOT/core/lib/ringbuffer.c:117-134 | Ringbuffer_remove leaves what ringbuffer_get leaves |
| `RingBuffer.Buffer.PeekOne` | RIOT/core/lib/ringbuffer.c:136-141 | Ringbuffer_peek_one reads the oldest byte and changes nothing |
| `RingBuffer.Buffer.Peek` | RIOT/core/lib/ringbuffer.c:143-149 | Ringbuffer_peek reads the n oldest bytes and changes nothing |
| `Rmutex.MutualExclusion` | RIOT/core/lib/rmutex.c:35-116 | With any number of threads interleaved between all statements, never two have the mutex locked, and who has holds the inner mutex |
| `Rmutex.OwnerReadIsReliable` | RIOT/core/lib/rmutex.c:78-96 | The unprotected read of owner yields the reader's own PID exactly if the reader holds the inner mutex |
| `Rmutex.CountIsDepth` | RIOT/core/lib/rmutex.c:110-113 | Refcount is the number of unmatched locks of the holder, and 0 while the mutex is free |
| `Rmutex.OnlyTheHolderWrites` | RIOT/core/lib/rmutex.c:104-147 | A thread that executes a statement that writes owner or refcount holds the inner mutex, and no other statement changes them |
| `Rmutex.NoLostUpdate` | RIOT/core/lib/rmutex.c:110-113 | The read and the write of refcount are never separated by another write |
| `Rmutex.LockReturns` | RIOT/core/lib/rmutex.c:35-116 | The last statement of _lock returns 1 with one lock more, and 0 only to a thread without locks that does not hold the inner mutex; whole calls are RmutexCalls.LockCallReturns |
| `RmutexCalls.LockCallReturns` | RIOT/core/lib/rmutex.c:35-126 | Over every run from the beginning of a call to its end, whatever other threads do in between: rmutex_lock returns only with its caller as owner and holder of the inner mutex and one lock more; rmutex_trylock never waits, and returns 1 with the same or 0 with nothing locked |
| `RmutexCalls.TrylockReturns` | RIOT/core/lib/rmutex.c:35-96 | Rmutex_trylock returns 1 exactly if the mutex was free or the caller's own when it tried the inner mutex |
| `RmutexCalls.LockOfAnotherWaits` | RIOT/core/lib/rmutex.c:86-96 | A blocking call that reads another PID goes on to lock the inner mutex, which it gets if it is free by then, and waits for otherwise |
| `RmutexCalls.UnlockCallReturns` | RIOT/core/lib/rmutex.c:128-152 | Over every run, a call of rmutex_unlock takes back one lock of its caller, who keeps the mutex while locks are left and gives it away with the last; a caller without a lock never returns |
| `RmutexCalls.ReleaseHandsOver` | RIOT/core/lib/rmutex.c:139-151 | With the last lock the inner mutex becomes free, or one of those that wait has it and goes on |
| `Rmutex.UnlockFailsForOthers` | RIOT/core/lib/rmutex.c:128-132 | The assertions of rmutex_unlock fail exactly for a caller without a lock |
| `Rmutex.LastUnlockReleases` | RIOT/core/lib/rmutex.c:139-151 | The inner mutex is released by the unlock that matches the first lock and by no other |
| `Rmutex.WaitersWaitForSomebody` | RIOT/core/lib/rmutex.c:86-96 | Nobody waits for a mutex that is free or that he has locked himself |
| `Rmutex.OverflowBreaks` | RIOT/core/lib/rmutex.c:110-113 | Refcount has 16 bits: a lock keeps the invariant exactly if fewer than 65535 are nested already, and the next one makes refcount 0 |
| `Rmutex.OverflowHappens` | RIOT/core/lib/rmutex.c:110-113 | A run of one thread that locks 65536 times without unlocking gets there |
| `Registry.RegistrationPath` | coaperator/pkg/corerd.py:355-396 | A registration keeps the path of its endpoint or gets the least free number, and touches no other registration |
| `Registry.FailedRegistration` | coaperator/pkg/corerd.py:353-396 | The code claims that no error follows the first side effect; a failed request leaves the directory unchanged exactly if it fails the early checks or its endpoint is not registered, and otherwise the old registration is gone |
| `Registry.FailedRegistrationExample` | coaperator/pkg/corerd.py:353-396 | A re-registration with a lifetime that is no number deletes the registration |
| `Registry.RejectedUpdate` | coaperator/pkg/corerd.py:131-209 | An update fails exactly if a check fails, or if it has a base that is without a value or already in use while the registration's base comes from the network; it leaves the registration as it was unless it fails in that last way after setting another lifetime |
| `Registry.UpdatesNotifyOfChanges` | coaperator/pkg/corerd.py:160-206 | Observers are told of an update exactly if it changes the registration, and an empty update changes nothing but a base taken from the network |
| `RegistryEntries.UpdateStores` | coaperator/pkg/corerd.py:160-206 | A successful update stores the lifetime of the query if it has one, and else keeps it; stores a base of the query as an explicit one; without one keeps an explicit base, and else has the URI of the proxy host or of the client; and stores every other parameter, next to those it had |
| `RegistryEntries.RenewalStores` | coaperator/pkg/corerd.py:131-209 | A successful update request does that to its registration, lets the proxy host stand for the client, and changes no other registration or host |
| `RegistryEntries.RegistrationStores` | coaperator/pkg/corerd.py:89-209 | A successful registration stores its query in the same way, but for `proxy`, with a lifetime of 90000 if it names none |
| `RegistryEntries.RegistrationSetsProxy` | coaperator/pkg/corerd.py:367-392 | It lets its proxy host stand for the client, and touches no host but its own and the one its endpoint had |
| `RegistryEntries.AdmittedRequests` | coaperator/pkg/corerd.py:307-350 | The early checks pass exactly the requests with one endpoint, at most one sector, and a proxy only where there is one and with names that are host names |
| `RegistryEntries.AdmittedNames` | coaperator/pkg/corerd.py:307-350 | The endpoint, the sector and the host name of a request that passes |
| `RegistryEntries.AdmissionErrors` | coaperator/pkg/corerd.py:307-350 | A request that does not pass is told a fault that it has |
| `RegistryEntries.CheckedQueries` | coaperator/pkg/corerd.py:131-158 | The checks of an update pass exactly the queries with none of the keys that are not allowed, at most one base, a lifetime that is one number, and a base that can be found out |
| `RegistryEntries.CheckErrors` | coaperator/pkg/corerd.py:131-158 | A query that does not pass is told a fault that it has; a lifetime without a value leads to an exception instead |
| `RegistryEntries.AcceptedRegistrations` | coaperator/pkg/corerd.py:307-396 | A registration succeeds exactly if both sets of checks pass and a base that it names has a value |
| `Registry.BareProxyIsOn` | coaperator/pkg/corerd.py:307-330 | Proxy without a value counts as proxy=on |
| `Registry.RegisterKeeps` | coaperator/pkg/corerd.py:307-396 | Registering, successful or not, keeps paths and proxy hosts unshared and proxy_active exact |
| `Registry.RenewKeeps` | coaperator/pkg/corerd.py:131-209 | So does an update, rejected or not |
| `Registry.RemovedKeeps` | coaperator/pkg/corerd.py:211-214 | So does a deletion |
| `Registry.HostsDiffer` | coaperator/pkg/corerd.py:334-350 | Two endpoints never share a proxy host name |
| `ResourceDirectory.CoreRD.InitializeEndpoint` | coaperator/pkg/corerd.py:307-396 | Initialize_endpoint on the two dictionaries, the objects and the timers; a new registration is deleted after its lifetime and the grace period |
| `ResourceDirectory.CoreRD.UpdateParams` | coaperator/pkg/corerd.py:131-209 | Update_params of a registration in the directory, which stores what RegistryEntries.UpdateStores says; if it is rejected the timers are as before and nobody is notified |
| `ResourceDirectory.CoreRD.SetParams` | coaperator/pkg/corerd.py:163-200 | The checks and assignments of update_params, in their order, with the outcome that RegistryEntries.UpdateStores and CheckedQueries state |
| `ResourceDirectory.CoreRD.Delete` | coaperator/pkg/corerd.py:211-214 | Delete removes the registration from both dictionaries, with its timer and its host |
| `ResourceDirectory.CoreRD.Handle` | coaperator/pkg/corerd.py:448-520 | Each event - a registration, an update, a deletion, a request to a path that is not in use, the end of a timer - is handled by the methods on the two dictionaries, the objects and the timers, and has the effect and the error that Apply says |
| `ResourceDirectory.CoreRD.NewPathtail` | coaperator/pkg/corerd.py:296-305 | _new_pathtail ends, with the least number that is free |
| `ResourceDirectory.RegisteredOk` | coaperator/pkg/corerd.py:307-396 | What a registration does to the dictionaries, the objects and the timers is what Registry.Register does to the endpoints, and keeps all of them in agreement |
| `ResourceDirectory.UpdatedOk` | coaperator/pkg/corerd.py:131-209 | What an update does to them is what Registry.Renew does, with the same error |
| `DirectoryRuns.ReachableOk` | coaperator/pkg/corerd.py:260-396 | After any run of registrations, re-registrations, updates, deletions, refused requests and timers that end, dictionaries, objects, timers, paths, hosts and proxy_active agree |
| `DirectoryRuns.OneEntryEach` | coaperator/pkg/corerd.py:276-277 | In every reachable state a registered endpoint has one path and one timer, which lead back to it, and no other path or timer does |
| `DirectoryRuns.NoStrayEntries` | coaperator/pkg/corerd.py:272-277 | In every reachable state all paths and timers lead to registered endpoints, and there are as many of each as of endpoints: no timer is left of a registration that is gone |
| `DirectoryRuns.KeyKeepsPath` | coaperator/pkg/corerd.py:359-365 | An endpoint that is registered before and after an event has the same path, whatever the event |
| `DirectoryRuns.KeyKeepsPathOverRuns` | coaperator/pkg/corerd.py:359-365 | So over any run in which it stays registered, re-registrations included |
| `DirectoryRuns.RefusedChangesNothing` | coaperator/pkg/corerd.py:353-396 | A refused request changes nothing at all if and only if it is a registration that fails the early checks or whose endpoint is not registered, or an update that does not fail after having set another lifetime |
| `DirectoryRuns.UpdateRestartsTimer` | coaperator/pkg/corerd.py:229-231 | An update that succeeds replaces the timer of its registration by a new one, and touches no other timer, path or registration |
| `DirectoryRuns.ExpiryEndsOne` | coaperator/pkg/corerd.py:216-227 | A timer that ends takes out its registration, with path and host, tells the observers, and leaves all others as they are |
| `DirectoryRuns.DeletionEndsOne` | coaperator/pkg/corerd.py:211-215 | A deletion takes out the registration at its path, with timer and host, tells the observers, and leaves all others as they are |
| `DirectoryRuns.UnknownPathIsRefused` | coaperator/pkg/corerd.py:514-520 | A request to a path that no registration has is answered with NotFound and changes nothing |
| `DirectoryRuns.ChangesAreTold` | coaperator/pkg/corerd.py:160-206 | Whenever the registrations change, observers are told, except exactly by an update that is refused after it has set another lifetime |
| `DirectoryRuns.LateFailureHappens` | coaperator/pkg/corerd.py:163-200 | And that happens: an endpoint registers without a base and then names its own base and a lifetime in an update, which fails with the lifetime set |

## Left out

- KernelMachine.Kernel: links and control blocks are indexed by thread, so a list node is always the link of a thread; the model does not cover one node used for two purposes.
- KernelMachine.Kernel.ThreadCreate: no stack, thread-local storage, name or memory protection of the new thread; `THREAD_CREATE_WOUT_YIELD` is not a step of the state machine, and `KernelLimits.CreateWithoutYield` says exactly when it would keep strict priority.
- Rmutex: modelled on values, as interleaved statements of many threads; the order in which waiters get the inner mutex is left open, and a counter that wraps is excluded from runs (`Rmutex.OverflowBreaks` gives the exact condition).
- KernelRefinement.Do: a queue or mailbox of 2^31 messages is excluded, because it is never full (`Cib.Ring.Put`).
- ResourceDirectory.CoreRD: Registration objects are entries of a table and are referred to by number; decimal path names are replaced by their numbers, and Python's `int` is a parameter.
- Cib.Ring.Put: the slot is stored to in the same method, as the users of `cib_put` do.
- Priority inheritance and debugging of mutexes: optional modules, in which a hand-over does not update the owner.
- The type field of messages and `msg_bus`: they only add data that is copied along.
- The table lookup for the lowest bit and the unrolled population count: alternative forms of loops that are modelled.
- `priority_queue.c`: its insertion repeats `thread_add_to_list`.
- The atomic utilities: each is one critical section.
- Registers, context switches, signal handling and boot code of the ports in `RIOT/cpu` and `RIOT/boards`, beyond when a switch may happen.
- Scheduler callbacks, statistics, debug output, stack canaries.
- CoAP requests, link formats, observation and lookup in `corerd.py`, and the links of a registration: they need aiocoap and the contents of messages.
- What observers see at the moment they are called: before a deletion, and between the deletion and the new entry of a re-registration.
- The applications, the neural networks and the web services of the repository: floating point, CBOR and network plumbing over libraries that are not part of it.
