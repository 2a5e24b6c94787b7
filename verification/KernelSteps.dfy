/** The steps of the kernel and the invariant that all of them keep. */
module KernelSteps {
  import opened KernelTypes
  import opened KernelSpec
  import opened KernelLinks
  import opened KernelInv
  import opened KernelState

  // ---------------------------------------------------------------- invariants of the other objects

  /** sched_threads finds exactly the threads that have not ended. */
  ghost predicate PidsOk(s: State) {
    && |s.pids| == PID_LAST + 1
    && (forall p {:trigger s.pids[p]} :: 0 <= p < |s.pids| && s.pids[p].Some? ==>
          var t := s.pids[p].value; 1 <= p && t < |s.k.ts| && T(s.k, t).pid == p && T(s.k, t).status != Stopped)
    && (forall t: Tid {:trigger T(s.k, t)} :: t < |s.k.ts| && T(s.k, t).status != Stopped ==>
          T(s.k, t).pid < |s.pids| && s.pids[T(s.k, t).pid] == Some(t))
  }

  /** A mutex with waiters is locked, and it is granted once more often than released iff it is locked. */
  ghost predicate MutexOk(s: State, m: nat) {
    && (L(s.k, MutexQ(m)) != [] ==> m in s.locked)
    && Count(s.grants, m) == Count(s.releases, m) + if m in s.locked then 1 else 0
  }

  ghost predicate MutexesOk(s: State) {
    forall m: nat :: MutexOk(s, m)
  }

  /** Where a thread in mutex_lock_cancelable stands. */
  predicate CancelOk(tcb: Tcb, t: Tid, c: Cancel) {
    && c.thread == t
    && (tcb.status == MutexBlocked ==> tcb.loc == Some(MutexQ(c.mutex)) && !c.cancelled && tcb.lock == None)
    && (tcb.status != MutexBlocked ==> (tcb.lock == Some(c.mutex) <==> !c.cancelled || c.late))
  }

  ghost predicate CancelsOk(s: State) {
    && (forall id :: id in s.cancels && s.cancels[id].late ==> s.cancels[id].cancelled)
    && (forall t: Tid {:trigger T(s.k, t)} :: t < |s.k.ts| && T(s.k, t).todo != [] && End(T(s.k, t)).CheckCancel? ==>
          End(T(s.k, t)).id in s.cancels && CancelOk(T(s.k, t), t, s.cancels[End(T(s.k, t)).id]))
  }

  /** What was put into a mailbox has been delivered or is in the ring.  Unless a message was
      stored although a reader was waiting, the order is kept and readers wait only for an empty
      ring. */
  ghost predicate MboxOk(s: State, b: nat)
    requires b in s.mboxes
  {
    var mb := s.mboxes[b];
    && |mb.ring| <= mb.cap && |mb.takers| == |mb.taken|
    && multiset(mb.put) == multiset(mb.taken) + multiset(mb.ring)
    && (mb.overtaken ==> mb.waited)
    && (!mb.overtaken ==> mb.put == mb.taken + mb.ring && (L(s.k, Readers(b)) != [] ==> mb.ring == []))
  }

  ghost predicate MboxesOk(s: State) {
    forall b :: b in s.mboxes ==> MboxOk(s, b)
  }

  /** A thread that is to retry a put has had to wait for room. */
  ghost predicate RetriesOk(s: State) {
    forall t: Tid {:trigger T(s.k, t)} :: t < |s.k.ts| && T(s.k, t).todo != [] && End(T(s.k, t)).RetryPut? ==>
      End(T(s.k, t)).mbox in s.mboxes && s.mboxes[End(T(s.k, t)).mbox].waited
  }

  /** The last message delivered to t. */
  function LastFor(taken: seq<Msg>, takers: seq<Option<Tid>>, t: Tid): Option<Msg> {
    if taken == [] || takers == [] then None
    else if takers[|takers| - 1] == Some(t) then Some(taken[|taken| - 1])
    else LastFor(taken[..|taken| - 1], takers[..|takers| - 1], t)
  }

  function LastMail(mb: Mbox, t: Tid): Option<Msg> {
    LastFor(mb.taken, mb.takers, t)
  }

  /** What was handed to a thread in _mbox_get is the last message that its mailbox delivered to it. */
  ghost predicate MailsOk(s: State) {
    forall t: Tid {:trigger T(s.k, t)} ::
      t < |s.k.ts| && T(s.k, t).todo != [] && End(T(s.k, t)).GotMail? && T(s.k, t).mail.Some? ==>
        var b := End(T(s.k, t)).mbox; b in s.mboxes && LastMail(s.mboxes[b], t) == T(s.k, t).mail
  }

  /** Serial numbers tell messages apart. */
  ghost predicate SerialsOk(k: Core) {
    forall t: Tid {:trigger T(k, t)} :: t < |k.ts| ==>
      && (forall i {:trigger T(k, t).sent[i]} :: 0 <= i < |T(k, t).sent| ==> T(k, t).sent[i].serial < k.clock)
      && (forall i, j {:trigger T(k, t).sent[i], T(k, t).sent[j]} :: 0 <= i < j < |T(k, t).sent| ==>
            T(k, t).sent[i].serial < T(k, t).sent[j].serial)
  }

  ghost predicate Inv(s: State) {
    && CoreOk(s.k) && SchedOk(s) && PidsOk(s)
    && MutexesOk(s) && CancelsOk(s) && MboxesOk(s) && RetriesOk(s) && MailsOk(s) && SerialsOk(s.k)
  }

  // ---------------------------------------------------------------- steps

  /** What the processor does by itself: interrupts, and going on with the call of the active thread. */
  datatype CpuEvent = EnterIsr | ExitIsr | Preempt | Continue

  /** Calls about threads, made by threads and interrupt handlers alike. */
  datatype ThreadCall =
    DoCreate(prio: nat, sleeping: bool) | DoWakeup(pid: nat) | DoKillZombie(pid: nat)
    | DoChangePriority(thread: Tid, newPrio: nat)

  /** Calls that may wake threads, made by threads and interrupt handlers alike. */
  datatype WakeCall =
    DoUnlock(mutex: nat) | DoCancel(id: nat) | DoSignal(cond: nat, broadcast: bool) |
    DoFlagsSet(target: Tid, mask: Flags)

  /** Calls of a thread about itself. */
  datatype OwnCall = DoYield | DoSleep | DoZombify | DoExit

  /** Calls in which a thread locks a mutex, or unlocks one and waits. */
  datatype LockCall =
    DoLock(mutex: nat, block: bool) | DoInitCancel(id: nat, mutex: nat) | DoLockCancelable(id: nat)
    | DoUnlockAndSleep(mutex: nat) | DoCondWait(cond: nat, mutex: nat)

  /** Calls in which a thread reads its flags. */
  datatype FlagsCall =
    DoFlagsClear(mask: Flags) | DoWaitAny(mask: Flags) | DoWaitOne(mask: Flags) | DoWaitAll(mask: Flags)

  /** Messages; DoSendInt is the call of interrupt handlers, and DoReply is open to both. */
  datatype MsgCall =
    DoSend(pid: nat, value: int, block: bool) | DoSendReceive(pid: nat, value: int) | DoReceive(block: bool)
    | DoInitQueue(cap: nat) | DoReply(pid: nat, reply: Msg) | DoSendInt(pid: nat, value: int)

  /** Mailboxes; interrupt handlers may only try. */
  datatype MboxCall =
    DoInitMbox(mbox: nat, cap: nat) | DoPut(mbox: nat, value: int) | DoTryPut(mbox: nat, value: int)
    | DoGet(mbox: nat) | DoTryGet(mbox: nat)

  datatype Event =
    | Cpu(cpu: CpuEvent) | ForThread(call: ThreadCall) | ForWaking(wake: WakeCall) | ForOwn(own: OwnCall)
    | ForLock(lock: LockCall) | ForFlags(flags: FlagsCall) | ForMsg(msg: MsgCall) | ForMbox(box: MboxCall)

  /** sched_change_priority: the thread is the head of its run queue, or on no list. */
  predicate MayReprioritize(s: State, t: Tid, prio: nat) {
    MayChangePriority(s.k, t) && prio < LEVELS
  }

  /** mutex_cancel: a thread that waits for the mutex does so with this cancellation structure. */
  predicate MayCancel(s: State, id: nat) {
    id in s.cancels &&
    var c := s.cancels[id];
    c.thread < |s.k.ts| &&
    (T(s.k, c.thread).loc == Some(MutexQ(c.mutex)) ==> InCancelable(T(s.k, c.thread), id))
  }

  /** msg_reply: the target exists, and if it waits for a reply its request has been received. */
  predicate MayReply(s: State, pid: nat) {
    Lookup(s, pid).Some? &&
    (T(s.k, Lookup(s, pid).value).status == ReplyBlocked ==> T(s.k, Lookup(s, pid).value).answerable)
  }

  /** mutex_cancel_init: nobody is using the structure. */
  ghost predicate MayInitCancel(s: State, id: nat) {
    forall t: Tid {:trigger T(s.k, t)} :: t < |s.k.ts| ==> !InCancelable(T(s.k, t), id)
  }

  ghost predicate CpuEnabled(s: State, e: CpuEvent) {
    match e
    case EnterIsr => !s.isr
    case ExitIsr => s.isr
    case Preempt => !s.isr && !s.idle
    case Continue => !s.isr && !s.idle && s.active.Some? && T(s.k, s.active.value).todo != []
  }

  ghost predicate ThreadEnabled(s: State, e: ThreadCall) {
    MayCall(s) && (e.DoChangePriority? ==> MayReprioritize(s, e.thread, e.newPrio))
  }

  ghost predicate WakeEnabled(s: State, e: WakeCall) {
    MayCall(s) && (e.DoCancel? ==> MayCancel(s, e.id)) && (e.DoFlagsSet? ==> e.target < |s.k.ts|)
  }

  ghost predicate LockEnabled(s: State, e: LockCall) {
    && Calling(s)
    && (e.DoInitCancel? ==> MayInitCancel(s, e.id))
    && (e.DoLockCancelable? ==> e.id in s.cancels && s.cancels[e.id].thread == s.active.value)
  }

  ghost predicate MsgEnabled(s: State, e: MsgCall) {
    match e
    case DoSend(pid, v, block) => Calling(s)
    case DoSendReceive(pid, v) => Calling(s) && pid != s.activePid && Lookup(s, pid).Some?
    case DoReceive(block) => Calling(s)
    case DoInitQueue(cap) => Calling(s) && T(s.k, s.active.value).queue == [] && L(s.k, Senders(s.active.value)) == []
    case DoReply(pid, reply) => MayCall(s) && MayReply(s, pid)
    case DoSendInt(pid, v) => s.isr
  }

  ghost predicate MboxEnabled(s: State, e: MboxCall) {
    match e
    case DoInitMbox(b, cap) => Calling(s) && b !in s.mboxes
    case DoPut(b, v) => Calling(s) && b in s.mboxes
    case DoTryPut(b, v) => MayCall(s) && b in s.mboxes
    case DoGet(b) => Calling(s) && b in s.mboxes
    case DoTryGet(b) => MayCall(s) && b in s.mboxes
  }

  ghost predicate Enabled(s: State, e: Event) {
    match e
    case Cpu(c) => CpuEnabled(s, c)
    case ForThread(c) => ThreadEnabled(s, c)
    case ForWaking(c) => WakeEnabled(s, c)
    case ForOwn(c) => Calling(s)
    case ForLock(c) => LockEnabled(s, c)
    case ForFlags(c) => Calling(s)
    case ForMsg(c) => MsgEnabled(s, c)
    case ForMbox(c) => MboxEnabled(s, c)
  }

  /** The end of an interrupt handler. */
  function LeaveIsr(s: State): State {
    var s1 := s.(isr := false);
    if s.idle then (if Next(s.k).Some? then SchedRun(s1) else s1)
    else if s.request then SchedRun(s1)
    else s1
  }

  /** The active thread a goes on with the kernel call it is in. */
  function Resume(s: State, a: Tid): State
    requires T(s.k, a).todo != []
  {
    var act := T(s.k, a).todo[0];
    var rest := T(s.k, a).todo[1..];
    var s1 := s.(k := SetTodo(s.k, a, rest));
    match act
    case Yield => SchedRun(s1)
    case YieldRoundRobin => YieldCall(s1, a)
    case Switch(p) => if MustSwitch(s, p) then s1.(k := Owe(s1.k, a, [Yield])) else s1
    case SwitchIfRequested =>
      if T(s.k, a).status == ReplyBlocked || s.request then s1.(k := Owe(s1.k, a, [Yield])) else s1
    case CheckPriority(t, p) => if PriorityMatters(s, t, p) then s1.(k := Owe(s1.k, a, [Yield])) else s1
    case Relock(m) => Lock(s1, a, m, true)
    case CheckCancel(id) =>
      s1.(ret := if id in s.cancels && s.cancels[id].cancelled then ECANCELED else 0)
    case RetryPut(b, v) => if b in s.mboxes then PutLoop(s1, b, v, true) else s1
    case ClearAny(mask) => FlagsClear(s1, a, mask)
    case ClearAll(mask) => FlagsClear(s1, a, mask)
    case ReadOne(mask) => s1.(k := Owe(s1.k, a, [ClearOne(Lowest(T(s.k, a).flags * mask))]))
    case ClearOne(bit) => FlagsClear(s1, a, bit)
    case _ => s1
  }

  ghost function CpuStep(s: State, e: CpuEvent): State
    requires CpuEnabled(s, e)
  {
    match e
    case EnterIsr => s.(isr := true)
    case ExitIsr => LeaveIsr(s)
    case Preempt => SchedRun(s)
    case Continue => Resume(s, s.active.value)
  }

  function ThreadStep(s: State, e: ThreadCall): State {
    match e
    case DoCreate(p, sl) => Create(s, p, sl)
    case DoWakeup(pid) => Wakeup(s, pid)
    case DoKillZombie(pid) => KillZombie(s, pid)
    case DoChangePriority(t, p) => ChangePriority(s, t, p)
  }

  ghost function WakeStep(s: State, e: WakeCall): State
    requires WakeEnabled(s, e)
  {
    match e
    case DoUnlock(m) => Unlock(s, m)
    case DoCancel(id) => MutexCancel(s, id)
    case DoSignal(c, bc) => Signal(s, c, bc)
    case DoFlagsSet(t, mask) => FlagsSet(s, t, mask)
  }

  function OwnStep(s: State, e: OwnCall): State
    requires Calling(s)
  {
    match e
    case DoYield => YieldCall(s, s.active.value)
    case DoSleep => Retire(s, s.active.value, Sleeping)
    case DoZombify => Retire(s, s.active.value, Zombie)
    case DoExit => TaskExit(s, s.active.value)
  }

  ghost function LockStep(s: State, e: LockCall): State
    requires LockEnabled(s, e)
  {
    match e
    case DoLock(m, block) => Lock(s, s.active.value, m, block)
    case DoInitCancel(id, m) => InitCancel(s, s.active.value, id, m)
    case DoLockCancelable(id) => LockCancelable(s, s.active.value, id)
    case DoUnlockAndSleep(m) => UnlockAndSleep(s, s.active.value, m)
    case DoCondWait(c, m) => CondWait(s, s.active.value, c, m)
  }

  function FlagsStep(s: State, e: FlagsCall): State
    requires Calling(s)
  {
    match e
    case DoFlagsClear(mask) => FlagsClear(s, s.active.value, mask)
    case DoWaitAny(mask) => WaitAny(s, s.active.value, mask, ClearAny(mask))
    case DoWaitOne(mask) => WaitAny(s, s.active.value, mask, ReadOne(mask))
    case DoWaitAll(mask) => WaitAll(s, s.active.value, mask)
  }

  ghost function MsgStep(s: State, e: MsgCall): State
    requires MsgEnabled(s, e)
  {
    match e
    case DoSend(pid, v, block) => Send(s, s.active.value, pid, v, block)
    case DoSendReceive(pid, v) => SendReceive(s, s.active.value, pid, v)
    case DoReceive(block) => Receive(s, s.active.value, block)
    case DoInitQueue(cap) => InitQueue(s, s.active.value, cap)
    case DoReply(pid, reply) => Reply(s, pid, reply)
    case DoSendInt(pid, v) => SendInt(s, pid, v)
  }

  ghost function MboxStep(s: State, e: MboxCall): State
    requires MboxEnabled(s, e)
  {
    match e
    case DoInitMbox(b, cap) => InitMbox(s, b, cap)
    case DoPut(b, v) => MboxPut(s, b, v, true)
    case DoTryPut(b, v) => MboxPut(s, b, v, false)
    case DoGet(b) => MboxGet(s, b, true)
    case DoTryGet(b) => MboxGet(s, b, false)
  }

  ghost function Step(s: State, e: Event): State
    requires Enabled(s, e)
  {
    match e
    case Cpu(c) => CpuStep(s, c)
    case ForThread(c) => ThreadStep(s, c)
    case ForWaking(c) => WakeStep(s, c)
    case ForOwn(c) => OwnStep(s, c)
    case ForLock(c) => LockStep(s, c)
    case ForFlags(c) => FlagsStep(s, c)
    case ForMsg(c) => MsgStep(s, c)
    case ForMbox(c) => MboxStep(s, c)
  }

  /** One running thread. */
  ghost predicate Init(s: State) {
    && |s.k.ts| == 1 && s.k.ts[0].prio < LEVELS && s.k.clock == 1
    && s.k.ts[0] == NO_TCB.(status := Running, prio := s.k.ts[0].prio, pid := 1, loc := Some(Rq(s.k.ts[0].prio)))
    && s.k.lists == map[Rq(s.k.ts[0].prio) := [0]]
    && |s.pids| == PID_LAST + 1 && s.pids[1] == Some(0)
    && (forall p :: 0 <= p < |s.pids| && p != 1 ==> s.pids[p] == None)
    && s.active == Some(0) && s.activePid == 1 && !s.isr && !s.idle
    && s.locked == {} && s.grants == map[] && s.releases == map[]
    && s.mboxes == map[] && s.cancels == map[]
  }

  ghost predicate Run(s: State, es: seq<Event>, s': State)
    decreases |es|
  {
    if es == [] then s' == s
    else Enabled(s, es[0]) && Run(Step(s, es[0]), es[1..], s')
  }
}
