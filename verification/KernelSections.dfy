/** The functions of KernelSpec, field by field: what one critical section leaves in every field it
    touches. */
module KernelSections {
  import opened KernelTypes
  import opened KernelSpec
  import Spec = KernelSpec
  import opened KernelLinks
  import opened KernelInv
  import opened KernelSched
  import opened KernelSteps
  import opened BitArithmetic
  import opened KernelMemory

  /** Then, field by field. */
  function GoneOn(k: Core, isr: bool, active: Option<Tid>, act: Act): Core {
    if !isr && active.Some? then Owe(k, active.value, [act]) else k
  }

  function Requested(k: Core, isr: bool, active: Option<Tid>, request: bool, act: Act): bool {
    request || (isr && match act
                       case Yield => true
                       case Switch(p) =>
                         active.Some? ==> !OnRunqueue(T(k, active.value).status) || T(k, active.value).prio > p
                       case CheckPriority(t, p) =>
                         active == Some(t) ||
                           (active.Some? && T(k, active.value).prio > p && OnRunqueue(T(k, t).status))
                       case _ => false)
  }

  /** What follows if a switch to a priority is asked for, or none. */
  function SwitchedTo(k: Core, isr: bool, active: Option<Tid>, prio: Option<nat>): Core {
    if prio.Some? then GoneOn(k, isr, active, Switch(prio.value)) else k
  }

  function RequestedBy(k: Core, isr: bool, active: Option<Tid>, request: bool, prio: Option<nat>): bool {
    if prio.Some? then Requested(k, isr, active, request, Switch(prio.value)) else request
  }

  /** The priority of the first of these threads. */
  function FirstPrio(k: Core, q: seq<Tid>): Option<nat> {
    if q == [] then None else Some(T(k, q[0]).prio)
  }

  /** What is known of mutexes besides their lists. */
  datatype Tallies = Tallies(locked: set<nat>, grants: map<nat, nat>, releases: map<nat, nat>)

  function TalliesOf(s: State): Tallies {
    Tallies(s.locked, s.grants, s.releases)
  }

  /** mutex_unlock with interrupts disabled only notes that a switch is due. */
  function NotedRequest(k: Core, active: Option<Tid>, request: bool, heir: Option<Tid>): bool {
    request || (heir.Some? && SwitchAsked(k, active, T(k, heir.value).prio))
  }

  lemma ThenIs(s: State, act: Act)
    ensures Then(s, act) ==
        s.(k := GoneOn(s.k, s.isr, s.active, act), request := Requested(s.k, s.isr, s.active, s.request, act))
  {
  }

  lemma ChangePriorityIs(s: State, t: Tid, prio: nat)
    ensures ChangePriority(s, t, prio) ==
              if T(s.k, t).prio == prio then s
              else s.(k := GoneOn(Reprioritize(s.k, t, prio), s.isr, s.active, CheckPriority(t, prio)),
                      request := Requested(Reprioritize(s.k, t, prio), s.isr, s.active, s.request,
                        CheckPriority(t, prio)))
  {
    ThenIs(s.(k := Reprioritize(s.k, t, prio)), CheckPriority(t, prio));
  }

  lemma YieldIs(s: State, a: Tid)
    ensures var k1 := if OnRunqueue(T(s.k, a).status) then Rotate(s.k, T(s.k, a).prio) else s.k;
            YieldCall(s, a) == s.(k := GoneOn(k1, s.isr, s.active, Yield),
              request := Requested(k1, s.isr, s.active, s.request, Yield))
  {
    ThenIs(s.(k := if OnRunqueue(T(s.k, a).status) then Rotate(s.k, T(s.k, a).prio) else s.k), Yield);
  }

  lemma RetireIs(s: State, a: Tid, status: Status)
    ensures var k1 := SetStatus(s.k, a, status);
            Retire(s, a, status) ==
              s.(k := GoneOn(k1, s.isr, s.active, Yield), request := Requested(k1, s.isr, s.active, s.request, Yield))
  {
    ThenIs(s.(k := SetStatus(s.k, a, status)), Yield);
  }

  lemma WakeupIs(s: State, pid: nat, t: Tid)
    requires Lookup(s, pid) == Some(t) && T(s.k, t).status == Sleeping
    ensures var k1 := SetStatus(s.k, t, Running); var act := Switch(T(s.k, t).prio);
            Wakeup(s, pid) == s.(k := GoneOn(k1, s.isr, s.active, act),
              request := Requested(k1, s.isr, s.active, s.request, act), ret := 1)
  {
    ThenIs(s.(k := SetStatus(s.k, t, Running), ret := 1), Switch(T(s.k, t).prio));
  }

  lemma KillIs(s: State, pid: nat, t: Tid)
    requires Lookup(s, pid) == Some(t) && T(s.k, t).status == Zombie
    ensures KillZombie(s, pid) == s.(pids := s.pids[pid := None], k := SetStatus(s.k, t, Stopped), ret := 1)
  {
  }

  lemma CreateUnfolds(s: State, prio: nat, sleeping: bool, pid: nat, k1: Core)
    requires prio < LEVELS && FreePid(s.pids, 1) == Some(pid) && pid < |s.pids|
    requires k1 == SetStatus(AddThread(s.k, prio, pid), |s.k.ts|, if sleeping then Sleeping else Pending)
    ensures var s1 := s.(pids := s.pids[pid := Some(|s.k.ts|)], ret := pid, k := k1);
            Create(s, prio, sleeping) == if sleeping then s1 else Then(s1, Switch(prio))
  {
  }

  lemma CreateIs(s: State, prio: nat, sleeping: bool, pid: nat)
    requires prio < LEVELS && FreePid(s.pids, 1) == Some(pid) && pid < |s.pids|
    ensures var r := Create(s, prio, sleeping);
            var k1 := SetStatus(AddThread(s.k, prio, pid), |s.k.ts|, if sleeping then Sleeping else Pending);
            && r.pids == s.pids[pid := Some(|s.k.ts|)] && r.ret == pid
            && r.k == SwitchedTo(k1, s.isr, s.active, if sleeping then None else Some(prio))
            && r.request == RequestedBy(k1, s.isr, s.active, s.request, if sleeping then None else Some(prio))
  {
    var k1 := SetStatus(AddThread(s.k, prio, pid), |s.k.ts|, if sleeping then Sleeping else Pending);
    CreateUnfolds(s, prio, sleeping, pid, k1);
    ThenIs(s.(pids := s.pids[pid := Some(|s.k.ts|)], ret := pid, k := k1), Switch(prio));
  }

  lemma NothingNext(s: State)
    requires NonEmpty(s.k) == {}
    ensures SchedRun(s) == s.(k := if s.active.Some? then Unschedule(s.k, s.active.value) else s.k, idle := true)
  {
    TopFromIs(s.k, 0);
    forall p: nat | p < LEVELS ensures L(s.k, Rq(p)) == [] { assert p !in NonEmpty(s.k); }
  }

  lemma NextIsFirst(s: State, p: nat)
    requires p in NonEmpty(s.k) && forall q :: q in NonEmpty(s.k) ==> p <= q
    ensures L(s.k, Rq(p)) != []
    ensures var t := L(s.k, Rq(p))[0];
            SchedRun(s) == s.(k := Dispatch(s.k, s.active, t), active := Some(t), activePid := T(s.k, t).pid,
                              request := false, idle := false)
  {
    TopFromIs(s.k, 0);
    assert TopFrom(s.k, 0).Some? ==> TopFrom(s.k, 0).value in NonEmpty(s.k);
    assert Next(s.k) == Some(L(s.k, Rq(p))[0]);
  }

  // ---------------------------------------------------------------- mutexes

  /** The head of a wait list is blocked. */
  predicate HeadBlocked(k: Core, l: ListId) {
    L(k, l) != [] ==> !OnRunqueue(T(k, L(k, l)[0]).status)
  }

  /** A mutex with waiters is locked, and the first of them is blocked. */
  predicate MayUnlock(k: Core, locked: set<nat>, m: nat) {
    L(k, MutexQ(m)) != [] ==> m in locked && HeadBlocked(k, MutexQ(m))
  }

  /** The caller of a blocking call is on no list once it has left its run queue. */
  lemma LeavesQueue(k: Core, a: Tid, status: Status)
    requires IsHead(k, a) && !OnRunqueue(status)
    ensures a < |k.ts| && |SetStatus(k, a, status).ts| == |k.ts| && T(SetStatus(k, a, status), a).loc == None
  {
  }

  function HandedTo(k: Core, m: nat): Core
    requires L(k, MutexQ(m)) != []
  {
    var k1 := WakeHead(k, MutexQ(m));
    SetT(k1, L(k, MutexQ(m))[0], T(k1, L(k, MutexQ(m))[0]).(lock := Some(m)))
  }

  lemma LockFreeIs(s: State, a: Tid, m: nat, block: bool)
    requires m !in s.locked
    ensures var r := Lock(s, a, m, block);
            && r.k == SetT(s.k, a, T(s.k, a).(lock := Some(m))) && r.locked == s.locked + {m}
            && r.grants == s.grants[m := Count(s.grants, m) + 1] && r.ret == 1
  {
  }

  lemma LockBlocksIs(s: State, a: Tid, m: nat)
    requires m in s.locked
    ensures var r := Lock(s, a, m, true);
            && r.k == Owe(BlockOnMutex(s.k, a, m), a, [Yield, Locked(m)]) && r.locked == s.locked
            && r.grants == s.grants && r.ret == 1
  {
  }

  lemma CancelableFreeIs(s: State, a: Tid, id: nat)
    requires id in s.cancels && !s.cancels[id].cancelled && s.cancels[id].mutex !in s.locked
    ensures var r := LockCancelable(s, a, id); var m := s.cancels[id].mutex;
            && r.k == SetT(s.k, a, T(s.k, a).(lock := Some(m))) && r.locked == s.locked + {m}
            && r.grants == s.grants[m := Count(s.grants, m) + 1] && r.ret == 0
  {
  }

  lemma CancelableBlocksIs(s: State, a: Tid, id: nat)
    requires id in s.cancels && !s.cancels[id].cancelled && s.cancels[id].mutex in s.locked
    ensures LockCancelable(s, a, id) ==
        s.(k := Owe(BlockOnMutex(s.k, a, s.cancels[id].mutex), a, [Yield, CheckCancel(id)]))
  {
  }

  lemma FreeMutexIs(s: State, m: nat)
    requires m in s.locked && L(s.k, MutexQ(m)) == []
    ensures Heir(s, m) == None
    ensures UnlockCore(s, m) == s.(locked := s.locked - {m}, releases := s.releases[m := Count(s.releases, m) + 1])
  {
  }

  lemma HandIs(s: State, m: nat)
    requires m in s.locked && L(s.k, MutexQ(m)) != []
    ensures Heir(s, m) == Some(L(s.k, MutexQ(m))[0])
    ensures UnlockCore(s, m) == s.(k := HandedTo(s.k, m), releases := s.releases[m := Count(s.releases, m) + 1],
                                   grants := s.grants[m := Count(s.grants, m) + 1])
  {
  }

  lemma UnlockIs(s: State, m: nat)
    ensures var r, r1 := Unlock(s, m), UnlockCore(s, m);
            && r.locked == r1.locked && r.grants == r1.grants && r.releases == r1.releases
            && match Heir(s, m)
               case None => r.k == r1.k && r.request == s.request
               case Some(h) =>
                 var act := Switch(T(r1.k, h).prio);
                 r.k == GoneOn(r1.k, s.isr, s.active, act) &&
                   r.request == Requested(r1.k, s.isr, s.active, s.request, act)
  {
    match Heir(s, m)
    case None => if m in s.locked { FreeMutexIs(s, m); }
    case Some(h) => HandIs(s, m); WakeHeadKeeps(s.k, MutexQ(m)); ThenIs(UnlockCore(s, m), Switch(T(s.k, h).prio));
  }

  lemma SleepIs(s: State, a: Tid, m: nat)
    ensures var r1 := UnlockCore(s, m); var r := Retire(r1, a, Sleeping); var k1 := SetStatus(r1.k, a, Sleeping);
            && r.k == GoneOn(k1, s.isr, s.active, Yield)
            && r.request == Requested(k1, s.isr, s.active, s.request, Yield)
  {
    var r1 := UnlockCore(s, m);
    UnlockFields(s, m);
    ThenIs(r1.(k := SetStatus(r1.k, a, Sleeping)), Yield);
  }

  lemma UnlockKeepsSize(s: State, m: nat)
    ensures |UnlockCore(s, m).k.ts| == |s.k.ts|
  {
    if m in s.locked && L(s.k, MutexQ(m)) != [] { HandIs(s, m); }
  }

  lemma UnlockFields(s: State, m: nat)
    ensures var r1 := UnlockCore(s, m); r1.isr == s.isr && r1.active == s.active && r1.request == s.request
  {
    if m in s.locked {
      match Heir(s, m)
      case None => FreeMutexIs(s, m);
      case Some(h) => HandIs(s, m);
    }
  }

  lemma CancelIs(s: State, id: nat)
    requires id in s.cancels && !OnRunqueue(T(s.k, s.cancels[id].thread).status)
    ensures var c := s.cancels[id]; var r := MutexCancel(s, id);
            && r.cancels == s.cancels[id := c.(cancelled := true)]
            && if c.mutex in s.locked && c.thread in L(s.k, MutexQ(c.mutex)) then
                 var k1 := SetStatus(RemoveFrom(s.k, MutexQ(c.mutex), c.thread), c.thread, Pending);
                 var act := Switch(T(s.k, c.thread).prio);
                 r.k == GoneOn(k1, s.isr, s.active, act) && r.request == Requested(k1, s.isr, s.active, s.request, act)
               else r.k == s.k && r.request == s.request
  {
    var c := s.cancels[id];
    if c.mutex in s.locked && c.thread in L(s.k, MutexQ(c.mutex)) {
      ThenIs(s.(cancels := s.cancels[id := c.(cancelled := true)],
                k := SetStatus(RemoveFrom(s.k, MutexQ(c.mutex), c.thread), c.thread, Pending)),
                  Switch(T(s.k, c.thread).prio));
    }
  }

  lemma CondWaitIs(s: State, a: Tid, c: nat, m: nat)
    ensures var r1 := UnlockCore(s, m); var r := Spec.CondWait(s, a, c, m);
            && r.k == Owe(AddToList(SetStatus(r1.k, a, CondBlocked), CondQ(c), a), a, [Yield, Relock(m)])
            && r.locked == r1.locked && r.grants == r1.grants && r.releases == r1.releases
            && (r.request == (s.request ||
               (Heir(s, m).Some? && SwitchAsked(r1.k, s.active, T(r1.k, Heir(s, m).value).prio))))
  {
    UnlockFields(s, m);
    if Heir(s, m).Some? {
      HandIs(s, m);
      WakeHeadKeeps(s.k, MutexQ(m));
    }
  }

  lemma SignalIs(s: State, c: nat, broadcast: bool)
    ensures var woken := Signalled(s, c, broadcast); var min := MinPrio(s.k, woken, LEVELS);
            var k1 := WakeAll(s.k, CondQ(c), |woken|); var r := Signal(s, c, broadcast);
            if min <= LEVELS - 1 then r.k == GoneOn(k1, s.isr, s.active, Switch(min)) &&
              r.request == Requested(k1, s.isr, s.active, s.request, Switch(min))
            else r.k == k1 && r.request == s.request
  {
    var woken := Signalled(s, c, broadcast);
    ThenIs(s.(k := WakeAll(s.k, CondQ(c), |woken|)), Switch(MinPrio(s.k, woken, LEVELS)));
  }

  ghost predicate Blocked(k: Core, q: seq<Tid>) {
    forall t: Tid :: t in q ==> !OnRunqueue(T(k, t).status)
  }

  /** After i of n threads were woken. */
  ghost predicate Signalling(k: Core, k1: Core, l: ListId, n: nat, i: nat, min: nat) {
    && i <= n <= |L(k, l)| && L(k1, l) == L(k, l)[i..] && Blocked(k1, L(k1, l))
    && WakeAll(k1, l, n - i) == WakeAll(k, l, n)
    && MinPrio(k, L(k, l)[i..n], min) == MinPrio(k, L(k, l)[..n], LEVELS)
    && forall t: Tid {:trigger T(k1, t)} :: T(k1, t).prio == T(k, t).prio
  }

  lemma SignalStart(s: State, c: nat, broadcast: bool)
    requires Blocked(s.k, L(s.k, CondQ(c)))
    ensures var woken := Signalled(s, c, broadcast);
            Signalling(s.k, s.k, CondQ(c), |woken|, 0, LEVELS) && woken == L(s.k, CondQ(c))[..|woken|]
  {
    var woken := Signalled(s, c, broadcast);
    assert L(s.k, CondQ(c))[0..|woken|] == L(s.k, CondQ(c))[..|woken|];
  }

  lemma SignalEnd(k: Core, k1: Core, l: ListId, n: nat, min: nat)
    requires Signalling(k, k1, l, n, n, min)
    ensures k1 == WakeAll(k, l, n) && min == MinPrio(k, L(k, l)[..n], LEVELS)
  {
    assert L(k, l)[n..n] == [];
  }

  lemma SignalStep(k: Core, k1: Core, l: ListId, n: nat, i: nat, min: nat)
    requires Signalling(k, k1, l, n, i, min) && Apart(k1) && l.CondQ?
    ensures L(k1, l) != [] && i < n ==>
              var t := L(k1, l)[0];
              Signalling(k, WakeHead(k1, l), l, n, i + 1,
                if T(WakeHead(k1, l), t).prio < min then T(WakeHead(k1, l), t).prio else min)
  {
    if L(k1, l) != [] && i < n {
      var t := L(k1, l)[0];
      var k2 := WakeHead(k1, l);
      assert t in L(k1, l) && KernelMemory.Distinct(L(k1, l));
      WakeHeadKeeps(k1, l);
      TailDistinct(L(k1, l));
      assert L(k1, l)[1..] == L(k, l)[i + 1..];
      assert L(k, l)[i..n][1..] == L(k, l)[i + 1..n] && L(k, l)[i..n][0] == t;
      forall u: Tid | u in L(k2, l) ensures !OnRunqueue(T(k2, u).status) { assert u in L(k1, l) && u != t; }
    }
  }

  lemma WakeHeadKeeps(k: Core, l: ListId)
    requires L(k, l) != [] && !l.Rq?
    ensures var k' := WakeHead(k, l);
            && L(k', l) == L(k, l)[1..]
            && (forall u: Tid {:trigger T(k', u)} :: T(k', u).prio == T(k, u).prio)
            && (Blocked(k, L(k, l)) && L(k, l)[0] < |k.ts| ==>
               forall u: Tid {:trigger T(k', u)} :: u != L(k, l)[0] ==> T(k', u) == T(k, u))
  {
    assert L(k, l)[0] in L(k, l);
  }

  predicate SwitchAsked(k: Core, active: Option<Tid>, prio: nat) {
    active.Some? ==> !OnRunqueue(T(k, active.value).status) || T(k, active.value).prio > prio
  }

  // ---------------------------------------------------------------- flags and messages

  function RaisedCore(k: Core, t: Tid, mask: Flags): Core {
    var tcb := WithFlags(T(k, t), mask);
    if FlagsSatisfied(tcb) then SetStatus(SetT(k, t, tcb), t, Pending) else SetT(k, t, tcb)
  }

  lemma RaiseIs(s: State, t: Tid, mask: Flags)
    ensures RaiseFlags(s, t, mask) ==
              s.(k := RaisedCore(s.k, t, mask), request := s.request || FlagsSatisfied(WithFlags(T(s.k, t), mask)))
  {
  }

  lemma FlagsSetIs(s: State, t: Tid, mask: Flags)
    ensures var k1 := RaisedCore(s.k, t, mask); var r := FlagsSet(s, t, mask);
            if FlagsSatisfied(WithFlags(T(s.k, t), mask))
            then r.k == GoneOn(k1, s.isr, s.active, Yield) && r.request
            else r.k == k1 && r.request == s.request
  {
    RaiseIs(s, t, mask);
    ThenIs(RaiseFlags(s, t, mask), Yield);
  }

  lemma SendDirectIs(s: State, a: Tid, t: Tid, m: Msg, block: bool)
    requires T(s.k, t).status == ReceiveBlocked
    ensures var k1 := MarkAnswerable(Deliver(s.k, t, m), m); var r := MsgSend(s, a, t, m, block);
            r.k == GoneOn(k1, s.isr, s.active, Yield) &&
              r.request == Requested(k1, s.isr, s.active, s.request, Yield) && r.ret == 1
  {
    ThenIs(s.(k := MarkAnswerable(Deliver(s.k, t, m), m), ret := 1), Yield);
  }

  lemma SendQueuedIs(s: State, a: Tid, t: Tid, m: Msg, block: bool)
    requires T(s.k, t).status != ReceiveBlocked && !QueueFull(T(s.k, t))
    ensures var woken := FlagsSatisfied(WithFlags(T(s.k, t), MSG_WAITING));
            var k1 := RaisedCore(SetT(s.k, t, Queued(T(s.k, t), m)), t, MSG_WAITING);
            var r := MsgSend(s, a, t, m, block);
            && r.k == GoneOn(k1, s.isr, s.active, SwitchIfRequested) && r.ret == 1
            && (t < |s.k.ts| ==> r.request == Requested(k1, s.isr, s.active, s.request || woken, SwitchIfRequested))
  {
    var s1 := s.(ret := 1, k := SetT(s.k, t, Queued(T(s.k, t), m)));
    RaiseIs(s1, t, MSG_WAITING);
    ThenIs(RaiseFlags(s1, t, MSG_WAITING), SwitchIfRequested);
  }

  lemma SendBlockingIs(s: State, a: Tid, t: Tid, m: Msg)
    requires T(s.k, t).status != ReceiveBlocked && QueueFull(T(s.k, t))
    ensures var k1 := SendBlock(s.k, a, t, m); var woken := FlagsSatisfied(WithFlags(T(k1, t), MSG_WAITING));
            var k2 := RaisedCore(k1, t, MSG_WAITING); var r := MsgSend(s, a, t, m, true);
            && r.k == GoneOn(k2, s.isr, s.active, Yield) && r.ret == 1
            && r.request == Requested(k2, s.isr, s.active, s.request || woken, Yield)
  {
    var s1 := s.(k := SendBlock(s.k, a, t, m), ret := 1);
    RaiseIs(s1, t, MSG_WAITING);
    ThenIs(RaiseFlags(s1, t, MSG_WAITING), Yield);
  }

  /** The sender a is the head of its run queue, or waits for a reply already; and if the flag that
      tells t of a waiting message wakes it, t is on no list. */
  predicate MayJoin(k: Core, a: Tid, t: Tid, m: Msg) {
    && (IsHead(k, a) || (T(k, a).status == ReplyBlocked && T(k, a).loc == None))
    && (FlagsSatisfied(WithFlags(T(SendBlock(k, a, t, m), t), MSG_WAITING)) ==> T(SendBlock(k, a, t, m), t).loc == None)
  }

  /** A thread that a message may wake is on no list. */
  predicate MayReceive(tcb: Tcb) {
    tcb.status == ReceiveBlocked || FlagsSatisfied(WithFlags(tcb, MSG_WAITING)) ==> tcb.loc == None
  }

  lemma QueueIs(s: State, a: Tid, m: Msg)
    requires !QueueFull(T(s.k, a)) && a < |s.k.ts| && m == Msg(s.activePid, m.value, Some(a), s.k.clock)
    ensures var r := SendToSelf(s, a, m.value); var k1 := Tick(s.k);
            && r.k == RaisedCore(SetT(k1, a, Queued(T(k1, a), m)), a, MSG_WAITING) && r.ret == 1
            && r.request == (s.request || FlagsSatisfied(WithFlags(T(k1, a), MSG_WAITING)))
  {
    var k1 := Tick(s.k);
    assert T(k1, a) == T(s.k, a);
    RaiseIs(s.(ret := 1, k := SetT(k1, a, Queued(T(k1, a), m))), a, MSG_WAITING);
  }

  lemma SendIs(s: State, a: Tid, pid: nat, value: int, block: bool)
    requires pid != s.activePid && Lookup(s, pid).Some?
    ensures Spec.Send(s, a, pid, value, block) ==
              MsgSend(s.(k := Tick(s.k)), a, Lookup(s, pid).value, Stamp(s, value, Some(a)), block)
    ensures T(Tick(s.k), Lookup(s, pid).value) == T(s.k, Lookup(s, pid).value)
  {
  }

  lemma SendIntIs(s: State, pid: nat, value: int, t: Tid)
    requires Lookup(s, pid) == Some(t) && t < |s.k.ts|
    ensures var m := Stamp(s, value, None); var k1 := Tick(s.k); var r := SendInt(s, pid, value);
            && T(k1, t) == T(s.k, t)
            && if T(s.k, t).status == ReceiveBlocked then r.k == Deliver(k1, t, m) && r.request && r.ret == 1
               else if QueueFull(T(s.k, t)) then r == s.(ret := 0)
               else r.k == RaisedCore(SetT(k1, t, Queued(T(k1, t), m)), t, MSG_WAITING) && r.ret == 1
                    && r.request == (s.request || FlagsSatisfied(WithFlags(T(k1, t), MSG_WAITING)))
  {
    var m := Stamp(s, value, None);
    var k1 := Tick(s.k);
    assert T(k1, t) == T(s.k, t);
    RaiseIs(s.(ret := 1, k := SetT(k1, t, Queued(T(k1, t), m))), t, MSG_WAITING);
  }

  /** The state in which msg_send_receive goes on to _msg_send. */
  ghost function Asking(s: State, a: Tid, m: Msg): State {
    s.(k := Owe(Ask(s.k, a, m), a, [Replied]))
  }

  lemma SendReceiveIs(s: State, a: Tid, pid: nat, value: int)
    requires Lookup(s, pid).Some?
    ensures var m := Stamp(s, value, Some(a));
            SendReceive(s, a, pid, value) == MsgSend(Asking(s, a, m), a, Lookup(s, pid).value, m, true)
  {
  }

  /** The request m of a can go to t: what _msg_send needs, once a is reply blocked. */
  predicate MayRequest(k: Core, a: Tid, t: Tid, m: Msg) {
    var k1 := Owe(Ask(k, a, m), a, [Replied]);
    && t < |k.ts| && MayReceive(T(k1, t))
    && (T(k1, t).status != ReceiveBlocked && QueueFull(T(k1, t)) ==> MayJoin(k1, a, t, m))
  }

  lemma ReplyIs(s: State, pid: nat, reply: Msg, t: Tid)
    requires Lookup(s, pid) == Some(t) && T(s.k, t).status == ReplyBlocked
    ensures var k1 := Answer(s.k, t, reply); var act := Switch(T(s.k, t).prio); var r := Spec.Reply(s, pid, reply);
            r.ret == 1 && if s.isr then r.k == k1 && r.request
            else r.k == GoneOn(k1, s.isr, s.active, act) && r.request == Requested(k1, s.isr, s.active, s.request, act)
  {
    ThenIs(s.(k := Answer(s.k, t, reply), ret := 1), Switch(T(s.k, t).prio));
  }

  lemma ReceiveNothingIs(s: State, a: Tid, block: bool)
    requires T(s.k, a).queue == [] && L(s.k, Senders(a)) == []
    ensures Spec.Receive(s, a, block) == if block then s.(k := ReceiveBlock(s.k, a), ret := 1) else s.(ret := -1)
  {
  }

  /** What the receiver's queue is after the first message was taken off it. */
  lemma TakeQueuedRecord(k: Core, t: Tid)
    requires t < |k.ts|
    ensures var x, y := T(k, t), T(TakeQueued(k, t), t);
            |TakeQueued(k, t).ts| == |k.ts| && y.cap == x.cap && y.queue == if x.queue == [] then [] else x.queue[1..]
  {
  }

  /** sender_prio of _msg_receive: THREAD_PRIORITY_IDLE if the sender goes on waiting for a reply */
  function SenderPrio(tcb: Tcb): nat {
    if tcb.status != ReplyBlocked then tcb.prio else LEVELS - 1
  }

  /** A priority that a switch is asked for: any but THREAD_PRIORITY_IDLE. */
  function BelowIdle(prio: nat): Option<nat> {
    if prio < LEVELS - 1 then Some(prio) else None
  }

  lemma ReceiveSenderIs(s: State, a: Tid, block: bool)
    requires L(s.k, Senders(a)) != []
    ensures var x := L(s.k, Senders(a))[0]; var prio := SenderPrio(T(s.k, x));
            var k1 := TakeWaiting(TakeQueued(s.k, a), a, x, T(s.k, a).queue != []); var r := Spec.Receive(s, a, block);
            && r.ret == 1 && r.k == SwitchedTo(k1, s.isr, s.active, BelowIdle(prio))
            && r.request == RequestedBy(k1, s.isr, s.active, s.request, BelowIdle(prio))
  {
    var x := L(s.k, Senders(a))[0];
    ThenIs(s.(k := TakeWaiting(TakeQueued(s.k, a), a, x, T(s.k, a).queue != []), ret := 1), Switch(T(s.k, x).prio));
  }

  // ---------------------------------------------------------------- mailboxes

  lemma StoreIs(s: State, b: nat, value: int, blocking: bool)
    requires b in s.mboxes && |s.mboxes[b].ring| < s.mboxes[b].cap
    ensures var m := Msg(s.activePid, value, Author(s), s.k.clock);
            PutLoop(s, b, value, blocking)
            == s.(k := Tick(s.k), mboxes := s.mboxes[b := Stored(s.mboxes[b], m, L(s.k, Readers(b)) != [])], ret := 1)
  {
  }

  lemma PutLoopIs(s: State, b: nat, value: int, blocking: bool)
    requires b in s.mboxes && L(s.k, Readers(b)) == []
    ensures Spec.MboxPut(s, b, value, blocking) == PutLoop(s, b, value, blocking)
    ensures PutLoop(s, b, value, blocking).request == s.request
  {
    if |s.mboxes[b].ring| < s.mboxes[b].cap { StoreIs(s, b, value, blocking); }
  }

  lemma HandOverIs(s: State, b: nat, value: int, blocking: bool)
    requires b in s.mboxes && L(s.k, Readers(b)) != []
    ensures var m := Msg(0, value, Author(s), s.k.clock); var mb := s.mboxes[b];
            var k1 := HandOver(s.k, b, m); var act := Switch(T(s.k, L(s.k, Readers(b))[0]).prio);
            var r := Spec.MboxPut(s, b, value, blocking);
            && r.k == GoneOn(k1, s.isr, s.active, act)
            && r.request == Requested(k1, s.isr, s.active, s.request, act) && r.ret == 1
            && r.mboxes == s.mboxes[b := Passed(mb, m, L(s.k, Readers(b))[0])]
  {
    var m := Msg(0, value, Author(s), s.k.clock);
    var mb := s.mboxes[b];
    ThenIs(s.(k := HandOver(s.k, b, m), mboxes := s.mboxes[b := Passed(mb, m, L(s.k, Readers(b))[0])], ret := 1),
           Switch(T(s.k, L(s.k, Readers(b))[0]).prio));
  }

  lemma DrawIs(s: State, b: nat, blocking: bool)
    requires b in s.mboxes && s.mboxes[b].ring != []
    ensures var k1 := WakeHead(s.k, Writers(b)); var q := L(s.k, Writers(b)); var mb := s.mboxes[b];
            var r := Spec.MboxGet(s, b, blocking);
            && r.ret == 1 && r.mailRet == mb.ring[0] && r.mboxes == s.mboxes[b := Emptied(mb, Author(s))]
            && r.k == SwitchedTo(k1, s.isr, s.active, FirstPrio(k1, q))
            && r.request == RequestedBy(k1, s.isr, s.active, s.request, FirstPrio(k1, q))
  {
    var mb := s.mboxes[b];
    if L(s.k, Writers(b)) != [] {
      WakeHeadKeeps(s.k, Writers(b));
      ThenIs(s.(k := WakeHead(s.k, Writers(b)), mboxes := s.mboxes[b := Emptied(mb, Author(s))],
                ret := 1, mailRet := mb.ring[0]), Switch(T(s.k, L(s.k, Writers(b))[0]).prio));
    }
  }

  // ---------------------------------------------------------------- the rest of a call

  /** Some thread is runnable exactly if the bit cache is not empty. */
  lemma RunnableIs(s: State, clz: bool, cache: nat)
    requires Indexes(clz, cache, NonEmpty(s.k))
    ensures Next(s.k).Some? <==> cache != 0
  {
    EmptyIndex(clz, cache, NonEmpty(s.k));
    TopIs(s.k, 0);
    if NonEmpty(s.k) != {} {
      var p :| p in NonEmpty(s.k);
      assert 0 <= p < LEVELS && L(s.k, Rq(p)) != [];
    } else {
      forall q: nat | q < LEVELS ensures L(s.k, Rq(q)) == [] { assert q !in NonEmpty(s.k); }
    }
  }

  lemma {:induction false} TopIs(k: Core, p: nat)
    ensures TopFrom(k, p).None? <==> forall q: nat :: p <= q < LEVELS ==> L(k, Rq(q)) == []
    ensures TopFrom(k, p).Some? ==> L(k, Rq(TopFrom(k, p).value)) != []
    decreases LEVELS - p
  {
    if p < LEVELS && L(k, Rq(p)) == [] { TopIs(k, p + 1); }
  }

  predicate IsTest(act: Act) {
    act.Switch? || act.SwitchIfRequested? || act.CheckPriority?
  }

  predicate Decides(s: State, a: Tid, act: Act) {
    match act
    case Switch(p) => MustSwitch(s, p)
    case SwitchIfRequested => T(s.k, a).status == ReplyBlocked || s.request
    case CheckPriority(t, p) => PriorityMatters(s, t, p)
    case _ => false
  }

  lemma ResumeTestIs(s: State, a: Tid)
    requires T(s.k, a).todo != [] && IsTest(T(s.k, a).todo[0])
    ensures var k1 := SetTodo(s.k, a, T(s.k, a).todo[1..]);
            Resume(s, a).k == if Decides(s, a, T(s.k, a).todo[0]) then Owe(k1, a, [Yield]) else k1
  {
    match T(s.k, a).todo[0]
    case Switch(p) => ResumeSwitchIs(s, a);
    case SwitchIfRequested => ResumeRequestedIs(s, a);
    case CheckPriority(t, p) => ResumePriorityIs(s, a);
  }

  lemma ResumeSwitchIs(s: State, a: Tid)
    requires T(s.k, a).todo != [] && T(s.k, a).todo[0].Switch?
    ensures var k1 := SetTodo(s.k, a, T(s.k, a).todo[1..]);
            Resume(s, a).k == if MustSwitch(s, T(s.k, a).todo[0].prio) then Owe(k1, a, [Yield]) else k1
  {
  }

  lemma ResumeRequestedIs(s: State, a: Tid)
    requires T(s.k, a).todo != [] && T(s.k, a).todo[0].SwitchIfRequested?
    ensures var k1 := SetTodo(s.k, a, T(s.k, a).todo[1..]);
            Resume(s, a).k == if T(s.k, a).status == ReplyBlocked || s.request then Owe(k1, a, [Yield]) else k1
  {
  }

  lemma ResumePriorityIs(s: State, a: Tid)
    requires T(s.k, a).todo != [] && T(s.k, a).todo[0].CheckPriority?
    ensures var k1 := SetTodo(s.k, a, T(s.k, a).todo[1..]); var act := T(s.k, a).todo[0];
            Resume(s, a).k == if PriorityMatters(s, act.thread, act.prio) then Owe(k1, a, [Yield]) else k1
  {
  }

  lemma ResumeRelockIs(s: State, a: Tid)
    requires T(s.k, a).todo != [] && T(s.k, a).todo[0].Relock?
    ensures Resume(s, a) == Lock(s.(k := SetTodo(s.k, a, T(s.k, a).todo[1..])), a, T(s.k, a).todo[0].mutex, true)
  {
  }

  lemma PopKeepsLists(k: Core, a: Tid)
    requires T(k, a).todo != []
    ensures var k1 := SetTodo(k, a, T(k, a).todo[1..]);
        (forall l :: L(k1, l) == L(k, l)) && IsHead(k1, a) == IsHead(k, a)
  {
    var k1 := SetTodo(k, a, T(k, a).todo[1..]);
    forall l ensures L(k1, l) == L(k, l) { }
  }

  /** The loop form of the choice that the code makes with v & (~v + 1). */
  method LowestOf(v: Flags) returns (r: Flags)
    ensures r == Lowest(v)
  {
    var i: nat := 0;
    while i < 16 && i !in v
      invariant 0 <= i <= 16 && Lowest(v) == LowestFrom(v, i)
    {
      i := i + 1;
    }
    r := if i < 16 then {i} else {};
  }

  /** The flags whose bits are 1 in a word of 16 bits. */
  function FlagsOf(v: nat): Flags {
    set i: nat | i < 16 && BitArithmetic.Bit(v, i)
  }

  lemma {:induction false} LowestFromIs(v: Flags, i: nat)
    requires forall j: nat :: j < i ==> j !in v
    ensures v == {} ==> LowestFrom(v, i) == {}
    ensures v != {} ==> exists r: nat :: r in v && LowestFrom(v, i) == {r} && forall j: nat :: j < r ==> j !in v
    decreases 16 - i
  {
    if i < 16 && i !in v {
      LowestFromIs(v, i + 1);
    } else if i >= 16 {
      assert v == {};
    }
  }

  /** v & (~v + 1), which thread_flags_wait_one computes, is the word with the flags Lowest. */
  lemma LowestIsWord(v: nat)
    requires v < Pow2(16)
    ensures FlagsOf(And(v, Negated(v, 16))) == Lowest(FlagsOf(v))
  {
    LowestFromIs(FlagsOf(v), 0);
    if FlagsOf(v) == {} {
      forall i: nat ensures !BitArithmetic.Bit(v, i) {
        if i < 16 { assert i !in FlagsOf(v); } else { NoBitsAbove(v, 16, i); }
      }
      forall i: nat ensures BitArithmetic.Bit(v, i) <==> BitArithmetic.Bit(0, i) { BitOfZero(i); }
      SameBits(v, 0);
    } else {
      var r: nat :| r in FlagsOf(v) && Lowest(FlagsOf(v)) == {r} && forall j: nat :: j < r ==> j !in FlagsOf(v);
      forall i: nat | i < r ensures !BitArithmetic.Bit(v, i) { assert i !in FlagsOf(v); }
      LowestRemains(v, 16, r);
      forall i: nat ensures i in FlagsOf(Pow2(r)) <==> i == r { BitPow2(r, i); }
    }
  }
}
