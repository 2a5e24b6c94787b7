/** The data of the RIOT kernel core: thread control blocks, the lists that share one link per
    thread, messages, mailboxes and the actions a thread still owes after a critical section. */
module KernelTypes {

  datatype Option<+T> = None | Some(value: T)

  /** A thread control block is named by its index: memory of a finished thread is never reused
      for another thread, whereas its PID is. */
  type Tid = nat

  /** SCHED_PRIO_LEVELS: 0 is the highest priority, LEVELS - 1 (THREAD_PRIORITY_IDLE) the lowest. */
  const LEVELS: nat := 16
  /** KERNEL_PID_LAST, with KERNEL_PID_FIRST being 1. */
  const PID_LAST: nat := 32
  /** KERNEL_PID_ISR: the sender of a message that an interrupt handler sends. */
  const PID_ISR: nat := PID_LAST + 1

  const EINVAL: int := -22
  const EOVERFLOW: int := -75
  const ECANCELED: int := -125

  /** thread_flags_t, as the set of the bits that are 1; BitArithmetic.LowestBit ties the one
      arithmetic operation on it, the choice of the lowest bit, to the 16-bit word. */
  type Bit = b: nat | b < 16
  type Flags = set<Bit>

  /** THREAD_FLAG_MSG_WAITING, 1 << 15 */
  const MSG_WAITING: Flags := {15}

  datatype Status =
    | Stopped | Zombie | Sleeping | MutexBlocked | ReceiveBlocked | SendBlocked | ReplyBlocked
    | FlagBlockedAny | FlagBlockedAll | MboxBlocked | CondBlocked | Running | Pending

  /** status >= STATUS_ON_RUNQUEUE */
  predicate OnRunqueue(status: Status) {
    status.Running? || status.Pending?
  }

  /** Every list a thread's single link can be on. */
  datatype ListId =
    | Rq(prio: nat)          // sched_runqueues[prio]
    | MutexQ(mutex: nat)     // mutex->queue
    | CondQ(cond: nat)       // cond->queue
    | Readers(mbox: nat)     // mbox->readers
    | Writers(mbox: nat)     // mbox->writers
    | Senders(target: Tid)   // target->msg_waiters

  /** A message.  `from` and `serial` are auxiliary: they tell apart messages of equal content. */
  datatype Msg = Msg(sender: nat, value: int, from: Option<Tid>, serial: nat)

  /** What wait_data points to (the content of the buffer) or encodes (a flag mask). */
  datatype Wait = NoData | Buffer(msg: Msg) | Mask(mask: Flags)

  /** What a thread still executes, with interrupts enabled, after a critical section. */
  datatype Act =
    | Yield                                // thread_yield_higher()
    | YieldRoundRobin                      // thread_yield()
    | Switch(prio: nat)                    // sched_switch(prio)
    | SwitchIfRequested                    // the test that follows queueing in _msg_send
    | CheckPriority(thread: Tid, prio: nat)// the test that ends sched_change_priority
    | Relock(mutex: nat)                   // the mutex_lock that ends cond_wait
    | Locked(mutex: nat)                   // return from a blocking mutex_lock
    | CheckCancel(id: nat)                 // the test that ends mutex_lock_cancelable
    | Received                             // return from a blocking msg_receive
    | Replied                              // return from msg_send_receive
    | RetryPut(mbox: nat, value: int)      // the loop of _mbox_put
    | GotMail(mbox: nat)                   // return from a blocking _mbox_get
    | ClearAny(mask: Flags)                 // the clearing that ends thread_flags_wait_any
    | ClearAll(mask: Flags)                 // the clearing that ends thread_flags_wait_all
    | ReadOne(mask: Flags)                  // thread_flags_wait_one reads the flags
    | ClearOne(bit: Flags)                 // thread_flags_wait_one clears the bit it chose

  /** thread_t.  The fields after `todo` are auxiliary: no branch of the code depends on them. */
  datatype Tcb = Tcb(
    status: Status,
    prio: nat,
    pid: nat,
    flags: Flags,
    wait: Wait,
    cap: nat,                 // size of the message queue, 0 if there is none
    queue: seq<Msg>,          // the message queue
    todo: seq<Act>,           // the rest of the kernel call the thread is in
    loc: Option<ListId>,      // the list its link is on
    ticket: nat,              // when it was linked
    lock: Option<nat>,        // the last mutex granted, None once it starts waiting for one
    answerable: bool,         // its msg_send_receive request has been received
    answer: Option<Msg>,      // the reply it got
    mail: Option<Msg>,        // the message that was handed to it while it waited for mail
    sent: seq<Msg>,           // messages accepted for this thread, oldest first
    got: seq<Msg>)            // messages this thread has received, oldest first

  /** mbox_t without its two lists; the fields after `ring` are auxiliary. */
  datatype Mbox = Mbox(
    cap: nat,
    ring: seq<Msg>,
    put: seq<Msg>,            // messages accepted, oldest first
    taken: seq<Msg>,          // messages delivered, oldest first
    takers: seq<Option<Tid>>, // to which threads, None being an interrupt handler
    waited: bool,             // a put had to wait for room
    overtaken: bool)          // a message was stored while a reader was blocked

  /** mutex_cancel_t; `late` is auxiliary: the cancellation came after the mutex was handed over. */
  datatype Cancel = Cancel(mutex: nat, thread: Tid, cancelled: bool, late: bool)

  /** The thread control blocks and the lists that link them; `clock` is auxiliary, the source of
      tickets and serial numbers. */
  datatype Core = Core(ts: seq<Tcb>, lists: map<ListId, seq<Tid>>, clock: nat)

  /** The whole kernel.  Mutexes and condition variables exist under every number; a mutex is
      unlocked unless it is in `locked`. */
  datatype State = State(
    k: Core,
    pids: seq<Option<Tid>>,     // sched_threads
    active: Option<Tid>,        // sched_active_thread
    activePid: nat,             // sched_active_pid
    request: bool,              // sched_context_switch_request
    isr: bool,                  // inside an interrupt handler
    idle: bool,                 // inside the idle loop of sched_run
    locked: set<nat>,
    mboxes: map<nat, Mbox>,
    cancels: map<nat, Cancel>,
    ret: int,                   // what the call decided to return
    flagsRet: Flags,            // the same for the thread_flags calls
    mailRet: Msg,               // the message that an mbox_get which need not wait copies out
    grants: map<nat, nat>,      // auxiliary: how often each mutex was granted
    releases: map<nat, nat>)    // auxiliary: how often each locked mutex was released
}
