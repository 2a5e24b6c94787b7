/** The kernel calls as functions on the whole kernel state, in the order in which the code
    performs them.  A function covers one section with interrupts disabled. */
module KernelSpec {
  import opened KernelTypes

  // ---------------------------------------------------------------- access

  const NO_TCB := Tcb(Stopped, 0, 0, {}, NoData, 0, [], [], None, 0, None, false, None, None, [], [])

  function T(k: Core, t: Tid): Tcb {
    if t < |k.ts| then k.ts[t] else NO_TCB
  }

  function SetT(k: Core, t: Tid, tcb: Tcb): (r: Core)
    ensures |r.ts| == |k.ts| && r.lists == k.lists && r.clock == k.clock
    ensures forall u {:trigger T(r, u)} :: T(r, u) == if u == t && t < |k.ts| then tcb else T(k, u)
  {
    if t < |k.ts| then k.(ts := k.ts[t := tcb]) else k
  }

  /** The threads on a list, head first. */
  function L(k: Core, l: ListId): seq<Tid> {
    if l in k.lists then k.lists[l] else []
  }

  function SetL(k: Core, l: ListId, q: seq<Tid>): (r: Core)
    ensures r.ts == k.ts && r.clock == k.clock
    ensures forall l' {:trigger L(r, l')} :: L(r, l') == if l' == l then q else L(k, l')
  {
    k.(lists := k.lists[l := q])
  }

  function Tick(k: Core): Core {
    k.(clock := k.clock + 1)
  }

  // ---------------------------------------------------------------- lists and run queues

  /** t is linked onto list l, now. */
  function Linked(tcb: Tcb, l: ListId, now: nat): Tcb {
    tcb.(loc := Some(l), ticket := now)
  }

  /** _runqueue_push */
  function Push(k: Core, t: Tid): Core {
    var l := Rq(T(k, t).prio);
    Tick(SetT(SetL(k, l, L(k, l) + [t]), t, Linked(T(k, t), l, k.clock)))
  }

  /** list_remove_head; _runqueue_pop is this on the run queue, whichever thread is its head. */
  function RemoveHead(k: Core, l: ListId): Core {
    var q := L(k, l);
    if q == [] then k else SetT(SetL(k, l, q[1..]), q[0], T(k, q[0]).(loc := None))
  }

  /** sched_set_status */
  function SetStatus(k: Core, t: Tid, status: Status): Core {
    var was := OnRunqueue(T(k, t).status);
    var k1 :=
      if OnRunqueue(status) && !was then Push(k, t)
      else if !OnRunqueue(status) && was then RemoveHead(k, Rq(T(k, t).prio))
      else k;
    SetT(k1, t, T(k1, t).(status := status))
  }

  /** sched_runq_advance */
  function Rotate(k: Core, p: nat): Core {
    var q := L(k, Rq(p));
    if q == [] then k
    else Tick(SetT(SetL(k, Rq(p), q[1..] + [q[0]]), q[0], T(k, q[0]).(ticket := k.clock)))
  }

  /** The position thread_add_to_list inserts at: behind every entry of the same or a higher
      priority. */
  function Insert(k: Core, q: seq<Tid>, t: Tid): seq<Tid> {
    if q == [] then [t]
    else if T(k, q[0]).prio > T(k, t).prio then [t] + q
    else [q[0]] + Insert(k, q[1..], t)
  }

  /** thread_add_to_list */
  function AddToList(k: Core, l: ListId, t: Tid): Core {
    Tick(SetT(SetL(k, l, Insert(k, L(k, l), t)), t, Linked(T(k, t), l, k.clock)))
  }

  function Without(q: seq<Tid>, t: Tid): seq<Tid> {
    if q == [] then []
    else if q[0] == t then q[1..]
    else [q[0]] + Without(q[1..], t)
  }

  /** list_remove, of a thread that is on the list */
  function RemoveFrom(k: Core, l: ListId, t: Tid): Core {
    SetT(SetL(k, l, Without(L(k, l), t)), t, T(k, t).(loc := None))
  }

  /** The head of a wait list becomes runnable. */
  function WakeHead(k: Core, l: ListId): Core {
    if L(k, l) == [] then k else SetStatus(RemoveHead(k, l), L(k, l)[0], Pending)
  }

  // ---------------------------------------------------------------- scheduler

  function Lookup(s: State, pid: nat): Option<Tid> {
    if pid < |s.pids| then s.pids[pid] else None
  }

  function Count(m: map<nat, nat>, i: nat): nat {
    if i in m then m[i] else 0
  }

  function SetTodo(k: Core, t: Tid, todo: seq<Act>): Core {
    SetT(k, t, T(k, t).(todo := todo))
  }

  /** The thread has the kernel call still ahead of it do `acts` before anything else. */
  function Owe(k: Core, t: Tid, acts: seq<Act>): Core {
    SetTodo(k, t, acts + T(k, t).todo)
  }

  /** The priority of the first non-empty run queue from p on. */
  function TopFrom(k: Core, p: nat): Option<nat>
    decreases LEVELS - p
  {
    if p >= LEVELS then None
    else if L(k, Rq(p)) != [] then Some(p)
    else TopFrom(k, p + 1)
  }

  function Unschedule(k: Core, t: Tid): Core {
    if T(k, t).status == Running then SetT(k, t, T(k, t).(status := Pending)) else k
  }

  /** The thread sched_run picks: the head of the highest non-empty run queue. */
  function Next(k: Core): Option<Tid> {
    match TopFrom(k, 0)
    case None => None
    case Some(p) => if L(k, Rq(p)) == [] then None else Some(L(k, Rq(p))[0])
  }

  function Dispatch(k: Core, active: Option<Tid>, next: Tid): Core {
    var k1 := SetT(k, next, T(k, next).(status := Running));
    if active.Some? && active.value != next then Unschedule(k1, active.value) else k1
  }

  /** sched_run; when no thread is runnable it stays in its idle loop. */
  function SchedRun(s: State): State {
    match Next(s.k)
    case None =>
      s.(k := if s.active.Some? then Unschedule(s.k, s.active.value) else s.k, idle := true)
    case Some(t) =>
      s.(k := Dispatch(s.k, s.active, t), active := Some(t), activePid := T(s.k, t).pid,
         request := false, idle := false)
  }

  /** The test of sched_switch. */
  predicate MustSwitch(s: State, prio: nat) {
    s.active.Some? ==>
      var a := T(s.k, s.active.value);
      !OnRunqueue(a.status) || a.prio > prio
  }

  /** The test that ends sched_change_priority. */
  predicate PriorityMatters(s: State, t: Tid, prio: nat) {
    s.active == Some(t)
    || (s.active.Some? && T(s.k, s.active.value).prio > prio && OnRunqueue(T(s.k, t).status))
  }

  /** What follows irq_restore: inside an interrupt handler the test is made at once and the
      switch only requested; a thread goes on with interrupts enabled. */
  function Then(s: State, act: Act): State {
    if s.isr then
      match act
      case Yield => s.(request := true)
      case Switch(p) => if MustSwitch(s, p) then s.(request := true) else s
      case CheckPriority(t, p) => if PriorityMatters(s, t, p) then s.(request := true) else s
      case _ => s
    else if s.active.Some? then
      s.(k := Owe(s.k, s.active.value, [act]))
    else s
  }

  /** The thread moves to the tail of the run queue of its new priority. */
  function Reprioritize(k: Core, t: Tid, prio: nat): Core {
    var on := OnRunqueue(T(k, t).status);
    var k1 := if on then RemoveHead(k, Rq(T(k, t).prio)) else k;
    var k2 := SetT(k1, t, T(k1, t).(prio := prio));
    if on then Push(k2, t) else k2
  }

  /** sched_change_priority */
  function ChangePriority(s: State, t: Tid, prio: nat): State {
    if T(s.k, t).prio == prio then s
    else Then(s.(k := Reprioritize(s.k, t, prio)), CheckPriority(t, prio))
  }

  // ---------------------------------------------------------------- thread.c

  /** thread_yield */
  function YieldCall(s: State, a: Tid): State {
    Then(s.(k := if OnRunqueue(T(s.k, a).status) then Rotate(s.k, T(s.k, a).prio) else s.k), Yield)
  }

  /** thread_sleep, and thread_zombify with the status Zombie */
  function Retire(s: State, a: Tid, status: Status): State {
    Then(s.(k := SetStatus(s.k, a, status)), Yield)
  }

  /** thread_wakeup */
  function Wakeup(s: State, pid: nat): State {
    match Lookup(s, pid)
    case None => s.(ret := -1)
    case Some(t) =>
      if T(s.k, t).status == Sleeping then
        Then(s.(k := SetStatus(s.k, t, Running), ret := 1), Switch(T(s.k, t).prio))
      else s.(ret := -1)
  }

  /** thread_kill_zombie */
  function KillZombie(s: State, pid: nat): State {
    match Lookup(s, pid)
    case None => s.(ret := -1)
    case Some(t) =>
      if T(s.k, t).status == Zombie then
        s.(pids := s.pids[pid := None], k := SetStatus(s.k, t, Stopped), ret := 1)
      else s.(ret := -1)
  }

  /** sched_task_exit: the switch follows at once, with no active thread. */
  function TaskExit(s: State, a: Tid): State {
    var pids := if s.activePid < |s.pids| then s.pids[s.activePid := None] else s.pids;
    SchedRun(s.(pids := pids, k := SetStatus(s.k, a, Stopped), active := None))
  }

  /** The least free PID from i on. */
  function FreePid(pids: seq<Option<Tid>>, i: nat): Option<nat>
    decreases |pids| - i
  {
    if i >= |pids| then None
    else if pids[i].None? then Some(i)
    else FreePid(pids, i + 1)
  }

  function AddThread(k: Core, prio: nat, pid: nat): Core {
    k.(ts := k.ts + [NO_TCB.(prio := prio, pid := pid)])
  }

  /** thread_create without THREAD_CREATE_WOUT_YIELD */
  function Create(s: State, prio: nat, sleeping: bool): State {
    if prio >= LEVELS then s.(ret := EINVAL)
    else
      match FreePid(s.pids, 1)
      case None => s.(ret := EOVERFLOW)
      case Some(pid) =>
        if pid >= |s.pids| then s else // never: FreePid yields an index
        var t := |s.k.ts|;
        var s1 := s.(pids := s.pids[pid := Some(t)], ret := pid,
                     k := SetStatus(AddThread(s.k, prio, pid), t, if sleeping then Sleeping else Pending));
        if sleeping then s1 else Then(s1, Switch(prio))
  }

  // ---------------------------------------------------------------- mutex.c

  /** The mutex becomes t's.  This only concerns auxiliary fields. */
  function Grant(s: State, m: nat, t: Tid): State {
    s.(k := SetT(s.k, t, T(s.k, t).(lock := Some(m))), grants := s.grants[m := Count(s.grants, m) + 1])
  }

  function Release(s: State, m: nat): State {
    s.(releases := s.releases[m := Count(s.releases, m) + 1])
  }

  /** _block up to irq_restore */
  function BlockOnMutex(k: Core, a: Tid, m: nat): Core {
    var k1 := AddToList(SetStatus(k, a, MutexBlocked), MutexQ(m), a);
    SetT(k1, a, T(k1, a).(lock := None))
  }

  /** mutex_lock_internal */
  function Lock(s: State, a: Tid, m: nat, block: bool): State {
    if m !in s.locked then Grant(s.(locked := s.locked + {m}), m, a).(ret := 1)
    else if !block then s.(ret := 0)
    else s.(k := Owe(BlockOnMutex(s.k, a, m), a, [Yield, Locked(m)]), ret := 1)
  }

  function LockCancelable(s: State, a: Tid, id: nat): State
    requires id in s.cancels
  {
    var c := s.cancels[id];
    if c.cancelled then s.(ret := ECANCELED)
    else if c.mutex !in s.locked then Grant(s.(locked := s.locked + {c.mutex}), c.mutex, a).(ret := 0)
    else s.(k := Owe(BlockOnMutex(s.k, a, c.mutex), a, [Yield, CheckCancel(id)]))
  }

  /** The thread that mutex_unlock hands the mutex to. */
  function Heir(s: State, m: nat): Option<Tid> {
    if m in s.locked && L(s.k, MutexQ(m)) != [] then Some(L(s.k, MutexQ(m))[0]) else None
  }

  /** mutex_unlock up to irq_restore, as in mutex_unlock_and_sleep */
  function UnlockCore(s: State, m: nat): State {
    if m !in s.locked then s
    else
      match Heir(s, m)
      case None => Release(s.(locked := s.locked - {m}), m)
      case Some(t) => Grant(Release(s.(k := WakeHead(s.k, MutexQ(m))), m), m, t)
  }

  function Unlock(s: State, m: nat): State {
    match Heir(s, m)
    case None => UnlockCore(s, m)
    case Some(t) => Then(UnlockCore(s, m), Switch(T(s.k, t).prio))
  }

  function UnlockAndSleep(s: State, a: Tid, m: nat): State {
    Retire(UnlockCore(s, m), a, Sleeping)
  }

  /** mutex_cancel_init, under a number of its own */
  function InitCancel(s: State, a: Tid, id: nat, m: nat): State {
    s.(cancels := s.cancels[id := Cancel(m, a, false, false)])
  }

  /** The thread waits in mutex_lock_cancelable with this cancellation structure. */
  predicate InCancelable(tcb: Tcb, id: nat) {
    tcb.todo != [] && tcb.todo[|tcb.todo| - 1] == CheckCancel(id)
  }

  function MutexCancel(s: State, id: nat): State
    requires id in s.cancels
  {
    var c := s.cancels[id];
    var t := c.thread;
    if OnRunqueue(T(s.k, t).status) then
      var late := c.late || (InCancelable(T(s.k, t), id) && T(s.k, t).lock == Some(c.mutex));
      s.(cancels := s.cancels[id := c.(cancelled := true, late := late)])
    else
      var s1 := s.(cancels := s.cancels[id := c.(cancelled := true)]);
      if c.mutex in s.locked && t in L(s.k, MutexQ(c.mutex)) then
        Then(s1.(k := SetStatus(RemoveFrom(s.k, MutexQ(c.mutex), t), t, Pending)), Switch(T(s.k, t).prio))
      else s1
  }

  // ---------------------------------------------------------------- cond.c

  function CondWait(s: State, a: Tid, c: nat, m: nat): State {
    var s1 := UnlockCore(s, m);
    // sched_switch with interrupts disabled only records the request
    var switch := Heir(s, m).Some? && MustSwitch(s1, T(s.k, Heir(s, m).value).prio);
    s1.(k := Owe(AddToList(SetStatus(s1.k, a, CondBlocked), CondQ(c), a), a, [Yield, Relock(m)]),
        request := s1.request || switch)
  }

  /** The loop of cond_broadcast over the threads of the list. */
  function WakeAll(k: Core, l: ListId, n: nat): Core
    decreases n
  {
    if n == 0 then k else WakeAll(WakeHead(k, l), l, n - 1)
  }

  function MinPrio(k: Core, q: seq<Tid>, min: nat): nat {
    if q == [] then min
    else MinPrio(k, q[1..], if T(k, q[0]).prio < min then T(k, q[0]).prio else min)
  }

  /** The threads that a signal or a broadcast wakes. */
  function Signalled(s: State, c: nat, broadcast: bool): seq<Tid> {
    var q := L(s.k, CondQ(c));
    if broadcast || q == [] then q else [q[0]]
  }

  /** _cond_signal */
  function Signal(s: State, c: nat, broadcast: bool): State {
    var woken := Signalled(s, c, broadcast);
    var min := MinPrio(s.k, woken, LEVELS);
    var s1 := s.(k := WakeAll(s.k, CondQ(c), |woken|));
    if min <= LEVELS - 1 then Then(s1, Switch(min)) else s1
  }

  // ---------------------------------------------------------------- thread_flags.c

  predicate FlagsSatisfied(tcb: Tcb) {
    tcb.wait.Mask? &&
    ((tcb.status == FlagBlockedAny && tcb.flags * tcb.wait.mask != {}) ||
     (tcb.status == FlagBlockedAll && tcb.wait.mask <= tcb.flags))
  }

  function WithFlags(tcb: Tcb, mask: Flags): Tcb {
    tcb.(flags := tcb.flags + mask)
  }

  /** Setting flags and _thread_flags_wake, as in thread_flags_set and in msg.c */
  function RaiseFlags(s: State, t: Tid, mask: Flags): State {
    var tcb := WithFlags(T(s.k, t), mask);
    var k1 := SetT(s.k, t, tcb);
    if FlagsSatisfied(tcb) then s.(k := SetStatus(k1, t, Pending), request := true) else s.(k := k1)
  }

  function FlagsSet(s: State, t: Tid, mask: Flags): State {
    var s1 := RaiseFlags(s, t, mask);
    if FlagsSatisfied(WithFlags(T(s.k, t), mask)) then Then(s1, Yield) else s1
  }

  /** _thread_flags_clear_atomic */
  function FlagsClear(s: State, a: Tid, mask: Flags): State {
    var cleared := mask * T(s.k, a).flags;
    s.(k := SetT(s.k, a, T(s.k, a).(flags := T(s.k, a).flags - cleared)), flagsRet := cleared)
  }

  /** wait_data is overwritten. */
  function Park(k: Core, t: Tid, w: Wait): Core {
    SetT(k, t, T(k, t).(wait := w, answer := None, mail := None))
  }

  /** _thread_flags_wait */
  function FlagsBlock(k: Core, a: Tid, mask: Flags, status: Status, rest: Act): Core {
    Owe(SetStatus(Park(k, a, Mask(mask)), a, status), a, [Yield, rest])
  }

  /** thread_flags_wait_any and thread_flags_wait_one up to the first irq_restore */
  function WaitAny(s: State, a: Tid, mask: Flags, rest: Act): State {
    s.(k := if T(s.k, a).flags * mask == {} then FlagsBlock(s.k, a, mask, FlagBlockedAny, rest)
            else Owe(s.k, a, [rest]))
  }

  function WaitAll(s: State, a: Tid, mask: Flags): State {
    s.(k := if !(mask <= T(s.k, a).flags) then FlagsBlock(s.k, a, mask, FlagBlockedAll, ClearAll(mask))
            else Owe(s.k, a, [ClearAll(mask)]))
  }

  /** The lowest bit of v from i on, if there is one. */
  function LowestFrom(v: Flags, i: nat): Flags
    decreases 16 - i
  {
    if i >= 16 then {} else if i in v then {i} else LowestFrom(v, i + 1)
  }

  /** tmp &= (~tmp + 1) */
  function Lowest(v: Flags): Flags {
    LowestFrom(v, 0)
  }

  // ---------------------------------------------------------------- msg.c

  /** queue_msg fails */
  predicate QueueFull(tcb: Tcb) {
    |tcb.queue| >= tcb.cap
  }

  function Queued(tcb: Tcb, m: Msg): Tcb {
    tcb.(queue := tcb.queue + [m], sent := tcb.sent + [m])
  }

  /** queue_msg, when there is room */
  function Enqueue(s: State, t: Tid, m: Msg): State {
    RaiseFlags(s.(k := SetT(s.k, t, Queued(T(s.k, t), m))), t, MSG_WAITING)
  }

  /** The direct copy into the buffer of a receive-blocked thread. */
  function Deliver(k: Core, t: Tid, m: Msg): Core {
    var tcb := T(k, t);
    SetStatus(SetT(k, t, tcb.(wait := Buffer(m), sent := tcb.sent + [m], got := tcb.got + [m])), t, Pending)
  }

  function Stamp(s: State, value: int, from: Option<Tid>): Msg {
    Msg(if from.Some? then s.activePid else PID_ISR, value, from, s.k.clock)
  }

  /** m is the request of a thread in msg_send_receive that has left the thread's buffer. */
  predicate Asks(tcb: Tcb, m: Msg) {
    tcb.status == ReplyBlocked && tcb.loc == None && tcb.wait == Buffer(m)
  }

  /** If m is the request of a thread in msg_send_receive, it can be answered from now on. */
  function MarkAnswerable(k: Core, m: Msg): Core {
    if m.from.Some? && Asks(T(k, m.from.value), m) then
      SetT(k, m.from.value, T(k, m.from.value).(answerable := true))
    else k
  }

  /** _msg_send going send blocked; a thread that waits for a reply keeps that status */
  function SendBlock(k: Core, a: Tid, t: Tid, m: Msg): Core {
    var status := if T(k, a).status == ReplyBlocked then ReplyBlocked else SendBlocked;
    var k1 := AddToList(SetStatus(Park(k, a, Buffer(m)), a, status), Senders(t), a);
    SetT(k1, t, T(k1, t).(sent := T(k1, t).sent + [m]))
  }

  /** _msg_send with a stamped message */
  function MsgSend(s: State, a: Tid, t: Tid, m: Msg, block: bool): State {
    if T(s.k, t).status == ReceiveBlocked then
      Then(s.(k := MarkAnswerable(Deliver(s.k, t, m), m), ret := 1), Yield)
    else if !QueueFull(T(s.k, t)) then
      Then(Enqueue(s.(ret := 1), t, m), SwitchIfRequested)
    else if !block then s.(ret := 0)
    else
      Then(RaiseFlags(s.(k := SendBlock(s.k, a, t, m), ret := 1), t, MSG_WAITING), Yield)
  }

  function SendToSelf(s: State, a: Tid, value: int): State {
    if QueueFull(T(s.k, a)) then s.(ret := 0)
    else Enqueue(s.(k := Tick(s.k), ret := 1), a, Stamp(s, value, Some(a)))
  }

  /** msg_send and msg_try_send from a thread */
  function Send(s: State, a: Tid, pid: nat, value: int, block: bool): State {
    if pid == s.activePid then SendToSelf(s, a, value)
    else
      match Lookup(s, pid)
      case None => s.(ret := -1)
      case Some(t) => MsgSend(s.(k := Tick(s.k)), a, t, Stamp(s, value, Some(a)), block)
  }

  /** msg_send_int */
  function SendInt(s: State, pid: nat, value: int): State {
    match Lookup(s, pid)
    case None => s.(ret := -1)
    case Some(t) =>
      var m := Stamp(s, value, None);
      var s1 := s.(k := Tick(s.k));
      if T(s.k, t).status == ReceiveBlocked then
        s1.(k := Deliver(s1.k, t, m), request := true, ret := 1)
      else if QueueFull(T(s.k, t)) then s.(ret := 0)
      else Enqueue(s1.(ret := 1), t, m)
  }

  /** The start of msg_send_receive; the buffer for the reply first holds the request. */
  function Ask(k: Core, a: Tid, m: Msg): Core {
    var k1 := SetStatus(Tick(k), a, ReplyBlocked);
    SetT(k1, a, T(k1, a).(wait := Buffer(m), answerable := false, answer := None, mail := None))
  }

  /** msg_send_receive */
  function SendReceive(s: State, a: Tid, pid: nat, value: int): State {
    var m := Stamp(s, value, Some(a));
    var k1 := Ask(s.k, a, m);
    match Lookup(s, pid)
    case None => s.(k := k1, ret := -1)
    case Some(t) => MsgSend(s.(k := Owe(k1, a, [Replied])), a, t, m, true)
  }

  function Answer(k: Core, t: Tid, reply: Msg): Core {
    SetStatus(SetT(k, t, T(k, t).(wait := Buffer(reply), answer := Some(reply))), t, Pending)
  }

  /** msg_reply, and msg_reply_int in an interrupt handler; the reply is copied as it is */
  function Reply(s: State, pid: nat, reply: Msg): State {
    match Lookup(s, pid)
    case None => s
    case Some(t) =>
      if T(s.k, t).status != ReplyBlocked then s.(ret := -1)
      else
        var s1 := s.(k := Answer(s.k, t, reply), ret := 1);
        if s.isr then s1.(request := true) else Then(s1, Switch(T(s.k, t).prio))
  }

  /** The next message of a, taken off its queue. */
  function TakeQueued(k: Core, a: Tid): Core {
    var tcb := T(k, a);
    if tcb.queue == [] then k
    else
      MarkAnswerable(SetT(k, a, tcb.(queue := tcb.queue[1..], got := tcb.got + [tcb.queue[0]])), tcb.queue[0])
  }

  const NO_MSG := Msg(0, 0, None, 0)

  function Content(w: Wait): Msg {
    if w.Buffer? then w.msg else NO_MSG
  }

  /** The message of the first waiting sender goes to the queue slot just freed. */
  function Refill(k: Core, a: Tid, m: Msg): Core {
    SetT(k, a, T(k, a).(queue := T(k, a).queue + [m]))
  }

  /** It goes straight to the receiver. */
  function Accept(k: Core, a: Tid, m: Msg): Core {
    MarkAnswerable(SetT(k, a, T(k, a).(wait := Buffer(m), answer := None, got := T(k, a).got + [m])), m)
  }

  /** Unless it waits for a reply, the sender x becomes runnable. */
  function ReleaseSender(k: Core, x: Tid): Core {
    if T(k, x).status == ReplyBlocked then k
    else SetStatus(SetT(k, x, T(k, x).(wait := NoData)), x, Pending)
  }

  function TakeWaiting(k: Core, a: Tid, x: Tid, queued: bool): Core {
    var m := Content(T(k, x).wait);
    var k1 := RemoveHead(k, Senders(a));
    ReleaseSender(if queued then Refill(k1, a, m) else Accept(k1, a, m), x)
  }

  /** Nothing to receive: the thread goes receive blocked. */
  function ReceiveBlock(k: Core, a: Tid): Core {
    Owe(SetStatus(Park(k, a, Buffer(NO_MSG)), a, ReceiveBlocked), a, [Yield, Received])
  }

  /** _msg_receive */
  function Receive(s: State, a: Tid, block: bool): State {
    var queued := T(s.k, a).queue != [];
    var waiting := L(s.k, Senders(a));
    if waiting == [] && !queued then
      if block then s.(k := ReceiveBlock(s.k, a), ret := 1) else s.(ret := -1)
    else if waiting == [] then s.(k := TakeQueued(s.k, a), ret := 1)
    else
      var x := waiting[0];
      var s1 := s.(k := TakeWaiting(TakeQueued(s.k, a), a, x, queued), ret := 1);
      if T(s.k, x).status != ReplyBlocked && T(s.k, x).prio < LEVELS - 1 then Then(s1, Switch(T(s.k, x).prio))
      else s1
  }

  /** msg_init_queue */
  function InitQueue(s: State, a: Tid, cap: nat): State {
    s.(k := SetT(s.k, a, T(s.k, a).(cap := cap, queue := [])))
  }

  // ---------------------------------------------------------------- mbox.c

  /** _wait up to irq_restore */
  function MboxBlock(k: Core, a: Tid, l: ListId, rest: Act): Core {
    Owe(AddToList(SetStatus(k, a, MboxBlocked), l, a), a, [YieldRoundRobin, rest])
  }

  function Author(s: State): Option<Tid> {
    if s.isr then None else s.active
  }

  function Stored(mb: Mbox, m: Msg, readers: bool): Mbox {
    mb.(ring := mb.ring + [m], put := mb.put + [m], overtaken := mb.overtaken || readers)
  }

  /** The part of _mbox_put from the test of its loop on; 0 stands for what it has not decided to
      return while it waits. */
  function PutLoop(s: State, b: nat, value: int, blocking: bool): State
    requires b in s.mboxes
  {
    var mb := s.mboxes[b];
    if |mb.ring| >= mb.cap then
      if blocking && s.active.Some? then
        s.(k := MboxBlock(s.k, s.active.value, Writers(b), RetryPut(b, value)),
           mboxes := s.mboxes[b := mb.(waited := true)], ret := 0)
      else s.(ret := 0)
    else
      var m := Msg(s.activePid, value, Author(s), s.k.clock);
      s.(k := Tick(s.k), mboxes := s.mboxes[b := Stored(mb, m, L(s.k, Readers(b)) != [])], ret := 1)
  }

  /** A message goes straight to a reader. */
  function Passed(mb: Mbox, m: Msg, to: Tid): Mbox {
    mb.(put := mb.put + [m], taken := mb.taken + [m], takers := mb.takers + [Some(to)])
  }

  /** The oldest message of the ring goes to the caller. */
  function Emptied(mb: Mbox, to: Option<Tid>): Mbox
    requires mb.ring != []
  {
    mb.(ring := mb.ring[1..], taken := mb.taken + [mb.ring[0]], takers := mb.takers + [to])
  }

  /** A reader gets the message without its passing through the ring. */
  function HandOver(k: Core, b: nat, m: Msg): Core {
    if L(k, Readers(b)) == [] then k
    else
      var t := L(k, Readers(b))[0];
      var k1 := RemoveHead(Tick(k), Readers(b));
      SetStatus(SetT(k1, t, T(k1, t).(wait := Buffer(m), mail := Some(m))), t, Pending)
  }

  /** _mbox_put; the copy that is handed over keeps the sender field of the caller's message */
  function MboxPut(s: State, b: nat, value: int, blocking: bool): State
    requires b in s.mboxes
  {
    var readers := L(s.k, Readers(b));
    if readers == [] then PutLoop(s, b, value, blocking)
    else
      var mb := s.mboxes[b];
      var m := Msg(0, value, Author(s), s.k.clock);
      Then(s.(k := HandOver(s.k, b, m),
              mboxes := s.mboxes[b := Passed(mb, m, readers[0])],
              ret := 1),
           Switch(T(s.k, readers[0]).prio))
  }

  /** _mbox_get */
  function MboxGet(s: State, b: nat, blocking: bool): State
    requires b in s.mboxes
  {
    var mb := s.mboxes[b];
    var writers := L(s.k, Writers(b));
    if mb.ring != [] then
      var s1 := s.(k := WakeHead(s.k, Writers(b)),
                   mboxes := s.mboxes[b := Emptied(mb, Author(s))],
                   ret := 1, mailRet := mb.ring[0]);
      if writers == [] then s1 else Then(s1, Switch(T(s.k, writers[0]).prio))
    else if blocking && s.active.Some? then
      s.(k := MboxBlock(Park(s.k, s.active.value, Buffer(NO_MSG)), s.active.value, Readers(b), GotMail(b)),
         ret := 1)
    else s.(ret := 0)
  }

  function InitMbox(s: State, b: nat, cap: nat): State {
    s.(mboxes := s.mboxes[b := Mbox(cap, [], [], [], [], false, false)])
  }
}
