/** The kernel as it stores its data: one link per thread, list heads, the bit cache, and rings of
    messages.  Every method is the code of the kernel call, and is proved against KernelSpec. */
module KernelMachine {
  import opened KernelTypes
  import opened KernelSpec
  import Spec = KernelSpec
  import opened KernelLinks
  import opened KernelInv
  import opened KernelSched
  import opened KernelSteps
  import opened BitArithmetic
  import opened Cib
  import opened KernelMemory
  import opened KernelSections

  class Kernel {
    // ------------------------------------------------------------ fields

    var ts: seq<Tcb>                  // the thread control blocks, but for their links and message queues
    var next: seq<Link>               // rq_entry.next of every thread
    var first: map<ListId, Link>      // the head of every list; of a run queue, the last member
    var bitcache: nat                 // runqueue_bitcache
    const clz: bool                   // whether the processor counts leading zeros
    var pids: seq<Option<Tid>>
    var active: Option<Tid>
    var activePid: nat
    var request: bool
    var isr: bool
    var idle: bool
    var queues: seq<MsgRing>          // msg_queue and msg_array of every thread
    var mboxes: map<nat, Mbox>
    var rings: map<nat, MsgRing>      // cib and msg_array of every mailbox
    var cancels: map<nat, Cancel>
    var ret: int
    var flagsRet: Flags
    var mailRet: Msg
    var clock: nat
    ghost var lists: map<ListId, seq<Tid>>
    ghost var locked: set<nat>
    ghost var grants: map<nat, nat>
    ghost var releases: map<nat, nat>

    /** The kernel with one thread, running. */
    constructor (prio: nat, clz: bool)
      requires prio < LEVELS
      ensures Valid() && Init(View()) && ts[0].prio == prio && this.clz == clz
    {
      ts := [NO_TCB.(status := Running, prio := prio, pid := 1, loc := Some(Rq(prio)))];
      next := [To(0)];
      first := map[Rq(prio) := To(0)];
      this.clz := clz;
      bitcache := SetRunqueueBit(clz, 0, prio);
      pids := seq(PID_LAST + 1, i => if i == 1 then Some(0) else None);
      active, activePid, request, isr, idle := Some(0), 1, false, false, false;
      queues := [MsgRing(Fresh(0), [])];
      mboxes, rings, cancels := map[], map[], map[];
      ret, flagsRet, mailRet, clock := 0, {}, NO_MSG, 1;
      lists, locked, grants, releases := map[Rq(prio) := [0]], {}, map[], map[];
      new;
      FirstThread(K(), next, first, prio);
      NothingIndexed(clz);
      SetKeepsIndex(clz, 0, {}, prio);
      assert {} + {prio} == {prio};
      QueuesGrow([], [], ts[0]);
      assert [] + [ts[0]] == ts && [] + [MsgRing(Fresh(0), [])] == queues;
    }

    ghost function K(): Core
      reads this
    {
      Core(ts, lists, clock)
    }

    ghost function View(): State
      reads this
    {
      State(K(), pids, active, activePid, request, isr, idle, locked, mboxes, cancels, ret, flagsRet, mailRet,
        grants, releases)
    }

    ghost function Tallies(): Tallies
      reads this
    {
      KernelSections.Tallies(locked, grants, releases)
    }

    function Record(t: Tid): Tcb
      reads this
    {
      if t < |ts| then ts[t] else NO_TCB
    }

    /** The heads of the mutexes in lockedHeads say that they are locked when nobody waits. */
    ghost predicate ValidWith(lockedHeads: set<nat>)
      reads this
    {
      && Rep(next, first, K(), lockedHeads) && Apart(K()) && Indexes(clz, bitcache, NonEmpty(K()))
      && QueuesHold(ts, queues) && BoxesHold(mboxes, rings)
      && forall t: Tid {:trigger ts[t]} :: t < |ts| ==> ts[t].prio < LEVELS
    }

    ghost predicate Valid()
      reads this
    {
      ValidWith(locked)
    }

    // ------------------------------------------------------------ core/lib/include/list.h, thread_add_to_list

    /** list_remove_head */
    method ListRemoveHead(l: ListId) returns (head: Option<Tid>)
      requires Valid() && !l.Rq? && (l.MutexQ? ==> L(K(), l) != [])
      modifies this`ts, this`first, this`lists
      ensures K() == RemoveHead(old(K()), l)
      ensures head == if old(L(K(), l)) == [] then None else Some(old(L(K(), l))[0])
      ensures ValidWith(if l.MutexQ? then locked - {l.mutex} else locked)
    {
      ghost var k := K();
      ghost var q := L(k, l);
      assert Represents(next, Head(first, l), l, q, Nil(l, locked));
      var link := if l in first then first[l] else Null;
      if link.To? {
        var t := link.thread;
        assert t in q;
        first := first[l := next[t]];
        ts := ts[t := ts[t].(loc := None)];
        lists := lists[l := q[1..]];
        head := Some(t);
        QueuesStay(old(ts), queues, t, ts[t]);
        HeadRemoved(next, old(first), first, k, locked, l);
      } else {
        head := None;
      }
    }

    /** The link that follows a position on list l: the head of the list, or a member of it. */
    function NextOf(l: ListId, at: Option<Tid>): Link
      reads this
    {
      match at
      case None => if l in first then first[l] else Null
      case Some(t) => if t < |next| then next[t] else Null
    }

    /** How far a loop along list l has come: it has passed `done`, and `rest` is still ahead. */
    ghost predicate Walking(l: ListId, at: Option<Tid>, done: seq<Tid>, rest: seq<Tid>)
      reads this
    {
      && at == (if done == [] then None else Some(Last(done)))
      && Leads(next, Head(first, l), done, NextOf(l, at)) && Leads(next, NextOf(l, at), rest, Null)
    }

    lemma Walks(l: ListId, at: Option<Tid>, done: seq<Tid>, rest: seq<Tid>)
      requires Walking(l, at, done, rest) && NextOf(l, at).To?
      ensures rest != [] && NextOf(l, at).thread == rest[0] && rest[0] < |next|
      ensures Walking(l, Some(rest[0]), done + [rest[0]], rest[1..])
    {
      var t := rest[0];
      assert [t][1..] == [];
      assert Leads(next, To(t), [t], next[t]);
      LeadsOn(next, Head(first, l), done, To(t), [t], next[t]);
    }

    /** list_add: t is linked behind a position. */
    method ListAdd(l: ListId, at: Option<Tid>, t: Tid, ghost done: seq<Tid>, ghost rest: seq<Tid>)
      requires Valid() && !l.Rq? && t < |ts| && ts[t].loc == None
      requires L(K(), l) == done + rest && Walking(l, at, done, rest)
      modifies this`ts, this`next, this`first, this`lists, this`clock
      ensures K() == Tick(SetT(SetL(old(K()), l, done + [t] + rest), t, Linked(T(old(K()), t), l, old(clock))))
      ensures ValidWith(if l.MutexQ? then locked - {l.mutex} else locked)
    {
      ghost var mid := NextOf(l, at);
      if done != [] { LeadsToLast(next, Head(first, l), done, mid); }
      next := next[t := NextOf(l, at)];
      if at.Some? { next := next[at.value := To(t)]; } else { first := first[l := To(t)]; }
      ts := ts[t := ts[t].(loc := Some(l), ticket := clock)];
      lists := lists[l := done + [t] + rest];
      clock := clock + 1;
      QueuesStay(old(ts), queues, t, ts[t]);
      Inserted(old(next), next, old(first), first, old(K()), K(), locked, l, t, done, rest, mid);
    }

    /** thread_add_to_list */
    method ThreadAddToList(l: ListId, t: Tid)
      requires Valid() && !l.Rq? && t < |ts| && ts[t].loc == None &&
          (l.MutexQ? ==> l.mutex !in locked || L(K(), l) != [])
      modifies this`ts, this`next, this`first, this`lists, this`clock
      ensures K() == AddToList(old(K()), l, t)
      ensures ValidWith(if l.MutexQ? then locked - {l.mutex} else locked)
    {
      ghost var done, rest;
      var at;
      at, done, rest := FindPlace(l, ts[t].prio);
      AddedBetween(K(), l, done, rest, t);
      ListAdd(l, at, t, done, rest);
    }

    /** The loop of thread_add_to_list: the position behind the last entry of the same or a higher priority. */
    method FindPlace(l: ListId, prio: nat) returns (at: Option<Tid>, ghost done: seq<Tid>, ghost rest: seq<Tid>)
      requires Valid() && !l.Rq? && (l.MutexQ? ==> l.mutex !in locked || L(K(), l) != [])
      ensures L(K(), l) == done + rest && Walking(l, at, done, rest) && NoneBelow(K(), done, prio)
      ensures rest != [] ==> T(K(), rest[0]).prio > prio
    {
      done, rest := [], L(K(), l);
      at := None;
      assert Represents(next, Head(first, l), l, rest, Nil(l, locked));
      while NextOf(l, at).To? && Record(NextOf(l, at).thread).prio <= prio
        invariant L(K(), l) == done + rest && Walking(l, at, done, rest)
        invariant NoneBelow(K(), done, prio)
        decreases |rest|
      {
        Walks(l, at, done, rest);
        PassedOne(K(), done, rest, prio);
        at := Some(NextOf(l, at).thread);
        done, rest := done + [rest[0]], rest[1..];
      }
    }

    /** list_remove, without the fields of the thread that only the proof needs */
    method ListRemove(l: ListId, t: Tid) returns (found: bool)
      requires Valid() && !l.Rq? && (l.MutexQ? ==> L(K(), l) != []) && (t in L(K(), l) ==> t < |ts|)
      modifies this`ts, this`next, this`first, this`lists
      ensures found <==> t in old(L(K(), l))
      ensures found ==> K() == RemoveFrom(old(K()), l, t) && ValidWith(if l.MutexQ? then locked - {l.mutex} else locked)
      ensures !found ==> K() == old(K()) && next == old(next) && first == old(first)
    {
      ghost var done, rest;
      var at;
      found, at, done, rest := FindEntry(l, t);
      if found { Unlink(l, at, t, done, rest); }
    }

    /** The loop of list_remove: the position in front of the entry. */
    method FindEntry(l: ListId, t: Tid)
      returns (found: bool, at: Option<Tid>, ghost done: seq<Tid>, ghost rest: seq<Tid>)
      requires Valid() && !l.Rq? && (l.MutexQ? ==> L(K(), l) != [])
      ensures L(K(), l) == done + rest && Walking(l, at, done, rest) && t !in done
      ensures if found then rest != [] && rest[0] == t && NextOf(l, at) == To(t) else rest == []
    {
      done, rest := [], L(K(), l);
      at := None;
      assert Represents(next, Head(first, l), l, rest, Nil(l, locked));
      found := false;
      while NextOf(l, at).To? && !found
        invariant L(K(), l) == done + rest && Walking(l, at, done, rest)
        invariant t !in done && (found ==> rest != [] && rest[0] == t && NextOf(l, at) == To(t))
        decreases |rest|, !found
      {
        Walks(l, at, done, rest);
        if NextOf(l, at).thread == t {
          found := true;
        } else {
          at := Some(NextOf(l, at).thread);
          done, rest := done + [rest[0]], rest[1..];
        }
      }
    }

    method Unlink(l: ListId, at: Option<Tid>, t: Tid, ghost done: seq<Tid>, ghost rest: seq<Tid>)
      requires Valid() && !l.Rq? && t < |ts| && t !in done && rest != [] && rest[0] == t && NextOf(l, at) == To(t)
      requires L(K(), l) == done + rest && Walking(l, at, done, rest)
      modifies this`ts, this`next, this`first, this`lists
      ensures K() == RemoveFrom(old(K()), l, t)
      ensures ValidWith(if l.MutexQ? then locked - {l.mutex} else locked)
    {
      if done != [] { LeadsToLast(next, Head(first, l), done, To(t)); }
      if at.Some? { next := next[at.value := next[t]]; } else { first := first[l := next[t]]; }
      ts := ts[t := ts[t].(loc := None)];
      lists := lists[l := done + rest[1..]];
      QueuesStay(old(ts), queues, t, ts[t]);
      WithoutBetween(done, rest, t);
      Unlinked(old(next), next, old(first), first, old(K()), K(), locked, l, t, done, rest);
    }

    // ------------------------------------------------------------ core/lib/include/clist.h, run queues

    /** clist_rpush on a run queue, and _set_runqueue_bit: _runqueue_push */
    method RunqueuePush(t: Tid, p: nat, ghost lh: set<nat>)
      requires ValidWith(lh) && t < |ts| && ts[t].loc == None && p == ts[t].prio
      modifies this`ts, this`next, this`first, this`lists, this`clock, this`bitcache
      ensures ValidWith(lh) && K() == Push(old(K()), t)
    {
      ghost var k := K();
      ghost var q := L(k, Rq(p));
      assert Represents(next, Head(first, Rq(p)), Rq(p), q, Null);
      var tail := if Rq(p) in first then first[Rq(p)] else Null;
      if tail.To? {
        LeadsToLast(next, To(q[0]), q, To(q[0]));
        next := next[t := next[tail.thread]];
        next := next[tail.thread := To(t)];
      } else {
        next := next[t := To(t)];
      }
      first := first[Rq(p) := To(t)];
      bitcache := SetRunqueueBit(clz, bitcache, p);
      ts := ts[t := ts[t].(loc := Some(Rq(p)), ticket := clock)];
      lists := lists[Rq(p) := q + [t]];
      clock := clock + 1;
      QueuesStay(old(ts), queues, t, ts[t]);
      Pushed(old(next), next, old(first), first, k, K(), lh, t, p);
      SetKeepsIndex(clz, old(bitcache), NonEmpty(k), p);
    }

    /** clist_lpop on a run queue */
    method ClistLpop(p: nat, ghost lh: set<nat>)
      requires ValidWith(lh) && p < LEVELS
      modifies this`ts, this`next, this`first, this`lists
      ensures K() == RemoveHead(old(K()), Rq(p)) && Rep(next, first, K(), lh) && Apart(K()) && QueuesHold(ts, queues)
      ensures forall t: Tid {:trigger ts[t]} :: t < |ts| ==> ts[t].prio < LEVELS
      ensures NonEmpty(K()) == if L(K(), Rq(p)) == [] then NonEmpty(old(K())) - {p} else NonEmpty(old(K()))
    {
      ghost var k := K();
      ghost var q := L(k, Rq(p));
      assert Represents(next, Head(first, Rq(p)), Rq(p), q, Null);
      var tail := if Rq(p) in first then first[Rq(p)] else Null;
      if tail.To? {
        LeadsToLast(next, To(q[0]), q, To(q[0]));
        var head := next[tail.thread];
        assert q[0] in q && head == To(q[0]);
        if tail == head {
          first := first[Rq(p) := Null];
        } else {
          next := next[tail.thread := next[head.thread]];
        }
        ts := ts[head.thread := ts[head.thread].(loc := None)];
        lists := lists[Rq(p) := q[1..]];
        QueuesStay(old(ts), queues, head.thread, ts[head.thread]);
        Popped(old(next), next, old(first), first, k, K(), lh, p);
      } else {
        assert p !in NonEmpty(k);
      }
    }

    /** _runqueue_pop, which also clears the bit of a queue that has become empty */
    method RunqueuePop(p: nat, ghost lh: set<nat>)
      requires ValidWith(lh) && p < LEVELS
      modifies this`ts, this`next, this`first, this`lists, this`bitcache
      ensures ValidWith(lh) && K() == RemoveHead(old(K()), Rq(p))
    {
      ghost var was := NonEmpty(K());
      ClistLpop(p, lh);
      ClearBit(p, lh, was);
    }

    /** The bit of a run queue is cleared if the queue has become empty. */
    method ClearBit(p: nat, ghost lh: set<nat>, ghost was: set<nat>)
      requires Rep(next, first, K(), lh) && Apart(K()) && QueuesHold(ts, queues) && BoxesHold(mboxes, rings)
      requires p < LEVELS && Indexes(clz, bitcache, was) && NonEmpty(K()) == if L(K(), Rq(p)) == [] then was - {p}
          else was
      requires forall t: Tid {:trigger ts[t]} :: t < |ts| ==> ts[t].prio < LEVELS
      modifies this`bitcache
      ensures ValidWith(lh)
    {
      assert Represents(next, Head(first, Rq(p)), Rq(p), L(K(), Rq(p)), Null);
      if !(Rq(p) in first && first[Rq(p)].To?) {
        bitcache := ClearRunqueueBit(clz, bitcache, p);
        ClearKeepsIndex(clz, old(bitcache), was, p);
      }
    }

    /** clist_lpoprpush on a run queue: sched_runq_advance */
    method RunqueueAdvance(p: nat)
      requires Valid() && p < LEVELS
      modifies this`ts, this`first, this`lists, this`clock
      ensures Valid() && K() == Rotate(old(K()), p)
    {
      ghost var k := K();
      ghost var q := L(k, Rq(p));
      assert Represents(next, Head(first, Rq(p)), Rq(p), q, Null);
      var tail := if Rq(p) in first then first[Rq(p)] else Null;
      if tail.To? {
        LeadsToLast(next, To(q[0]), q, To(q[0]));
        assert q[0] in q;
        var head := next[tail.thread].thread;
        first := first[Rq(p) := next[tail.thread]];
        ts := ts[head := ts[head].(ticket := clock)];
        lists := lists[Rq(p) := q[1..] + [q[0]]];
        clock := clock + 1;
        QueuesStay(old(ts), queues, head, ts[head]);
        Advanced(next, old(first), first, k, K(), locked, p);
      }
    }

    /** sched_set_status */
    method SchedSetStatus(t: Tid, status: Status, ghost lh: set<nat>)
      requires ValidWith(lh) && t < |ts| && (OnRunqueue(status) && !OnRunqueue(ts[t].status) ==> ts[t].loc == None)
      modifies this`ts, this`next, this`first, this`lists, this`clock, this`bitcache
      ensures ValidWith(lh) && K() == SetStatus(old(K()), t, status)
    {
      if OnRunqueue(status) {
        if !OnRunqueue(ts[t].status) { RunqueuePush(t, ts[t].prio, lh); }
      } else {
        if OnRunqueue(ts[t].status) { RunqueuePop(ts[t].prio, lh); }
      }
      PutRecord(t, ts[t].(status := status), lh);
    }

    /** The fields of a thread change that have to do neither with its link nor with its message queue. */
    method PutRecord(t: Tid, tcb: Tcb, ghost lh: set<nat>)
      requires ValidWith(lh) && t < |ts| && tcb.loc == ts[t].loc && tcb.prio < LEVELS
      requires tcb.cap == ts[t].cap && tcb.queue == ts[t].queue
      modifies this`ts
      ensures ValidWith(lh) && K() == SetT(old(K()), t, tcb)
    {
      ts := ts[t := tcb];
      QueuesStay(old(ts), queues, t, tcb);
      RecordKeeps(next, first, old(K()), K(), lh, t, tcb);
    }

    /** The head of a wait list becomes runnable. */
    method WakeFirst(l: ListId) returns (head: Option<Tid>)
      requires Valid() && !l.Rq? && !l.MutexQ?
      requires HeadBlocked(K(), l)
      modifies this`ts, this`next, this`first, this`lists, this`clock, this`bitcache
      ensures Valid() && K() == WakeHead(old(K()), l)
      ensures head == if old(L(K(), l)) == [] then None else Some(old(L(K(), l))[0])
    {
      HeadExists(K(), l);
      head := ListRemoveHead(l);
      if head.Some? { SchedSetStatus(head.value, Pending, locked); }
    }

    // ------------------------------------------------------------ switching

    /** The test of sched_switch. */
    predicate SwitchDue(prio: nat)
      reads this
    {
      active.Some? ==> !OnRunqueue(Record(active.value).status) || Record(active.value).prio > prio
    }

    /** What follows irq_restore: in an interrupt handler, a test and a request; in a thread, the
        rest of the call. */
    method GoOn(act: Act)
      requires Valid()
      modifies this`ts, this`request
      ensures Valid() && K() == GoneOn(old(K()), isr, active, act)
      ensures request == Requested(old(K()), isr, active, old(request), act)
    {
      if isr {
        match act
        case Yield => request := true;
        case Switch(p) =>
          if SwitchDue(p) { request := true; }
        case CheckPriority(t, p) =>
          if active == Some(t)
             || (active.Some? && Record(active.value).prio > p && OnRunqueue(Record(t).status)) { request := true; }
        case _ =>
      } else if active.Some? {
        OweActs(active.value, [act]);
      }
    }

    method OweActs(t: Tid, acts: seq<Act>)
      requires Valid()
      modifies this`ts
      ensures Valid() && K() == Owe(old(K()), t, acts)
    {
      if t < |ts| { PutRecord(t, ts[t].(todo := acts + ts[t].todo), locked); }
    }

    /** sched_run */
    method SchedRunNow()
      requires Valid()
      modifies this`ts, this`active, this`activePid, this`request, this`idle
      ensures Valid()
      ensures var r := SchedRun(old(View()));
              K() == r.k && active == r.active && activePid == r.activePid && request == r.request && idle == r.idle
    {
      EmptyIndex(clz, bitcache, NonEmpty(K()));
      if bitcache == 0 {
        NothingNext(View());
        if active.Some? { UnscheduleThread(active.value); }
        idle := true;
      } else {
        var p := LeastPriority(clz, bitcache, NonEmpty(K()));
        NextIsFirst(View(), p);
        SwitchToQueue(p);
      }
    }

    /** sched_runqueues[p].next->next */
    method FirstOfQueue(p: nat) returns (t: Tid)
      requires Valid() && L(K(), Rq(p)) != []
      ensures t == L(K(), Rq(p))[0] && t < |ts|
    {
      assert Represents(next, Head(first, Rq(p)), Rq(p), L(K(), Rq(p)), Null);
      LeadsToLast(next, To(L(K(), Rq(p))[0]), L(K(), Rq(p)), To(L(K(), Rq(p))[0]));
      HeadExists(K(), Rq(p));
      t := next[first[Rq(p)].thread].thread;
    }

    /** The second half of sched_run, for a run queue that is not empty. */
    method SwitchToQueue(p: nat)
      requires Valid() && p < LEVELS && L(K(), Rq(p)) != []
      modifies this`ts, this`active, this`activePid, this`request, this`idle
      ensures Valid() && !request && !idle
      ensures var t := old(L(K(), Rq(p)))[0];
              K() == Dispatch(old(K()), old(active), t) && active == Some(t) && activePid == T(old(K()), t).pid
    {
      var head := FirstOfQueue(p);
      SwitchToThread(head);
    }

    method SwitchToThread(head: Tid)
      requires Valid() && head < |ts|
      modifies this`ts, this`active, this`activePid, this`request, this`idle
      ensures Valid() && !request && !idle
      ensures K() == Dispatch(old(K()), old(active), head) && active == Some(head) && activePid == old(ts[head]).pid
    {
      activePid := ts[head].pid;
      DispatchThread(head);
      request, active, idle := false, Some(head), false;
    }

    method DispatchThread(head: Tid)
      requires Valid() && head < |ts|
      modifies this`ts
      ensures Valid() && K() == Dispatch(old(K()), active, head)
    {
      PutRecord(head, ts[head].(status := Running), locked);
      if active.Some? && active.value != head { UnscheduleThread(active.value); }
    }

    /** _unschedule */
    method UnscheduleThread(t: Tid)
      requires Valid()
      modifies this`ts
      ensures Valid() && K() == Unschedule(old(K()), t)
    {
      if t < |ts| {
        if ts[t].status == Running { PutRecord(t, ts[t].(status := Pending), locked); }
      }
    }

    /** sched_change_priority */
    method SchedChangePriority(t: Tid, prio: nat)
      requires Valid() && t < |ts| && prio < LEVELS && MayChangePriority(K(), t) && StatusFits(ts[t])
      modifies this`ts, this`next, this`first, this`lists, this`clock, this`bitcache, this`request
      ensures Valid()
      ensures var r := ChangePriority(old(View()), t, prio); K() == r.k && request == r.request
    {
      ChangePriorityIs(View(), t, prio);
      if ts[t].prio != prio {
        MoveToPriority(t, prio);
        GoOn(CheckPriority(t, prio));
      }
    }

    method MoveToPriority(t: Tid, prio: nat)
      requires Valid() && t < |ts| && prio < LEVELS && MayChangePriority(K(), t) && StatusFits(ts[t])
      modifies this`ts, this`next, this`first, this`lists, this`clock, this`bitcache
      ensures Valid() && K() == Reprioritize(old(K()), t, prio)
    {
      if OnRunqueue(ts[t].status) {
        RunqueuePop(ts[t].prio, locked);
        PutRecord(t, ts[t].(prio := prio), locked);
        RunqueuePush(t, prio, locked);
      } else {
        PutRecord(t, ts[t].(prio := prio), locked);
      }
    }

    // ------------------------------------------------------------ thread.c

    /** thread_yield */
    method ThreadYield()
      requires Valid() && active.Some? && active.value < |ts|
      modifies this`ts, this`first, this`lists, this`clock, this`request
      ensures Valid()
      ensures var r := YieldCall(old(View()), active.value); K() == r.k && request == r.request
    {
      YieldIs(View(), active.value);
      var me := active.value;
      if OnRunqueue(ts[me].status) { RunqueueAdvance(ts[me].prio); }
      GoOn(Yield);
    }

    /** thread_sleep, and thread_zombify */
    method ThreadRetire(status: Status)
      requires Valid() && active.Some? && active.value < |ts| && !OnRunqueue(status)
      modifies this`ts, this`next, this`first, this`lists, this`clock, this`bitcache, this`request
      ensures Valid()
      ensures var r := Retire(old(View()), active.value, status); K() == r.k && request == r.request
    {
      RetireIs(View(), active.value, status);
      SchedSetStatus(active.value, status, locked);
      GoOn(Yield);
    }

    /** thread_wakeup */
    method ThreadWakeup(pid: nat)
      requires Valid() && (Lookup(View(), pid).Some? ==>
          Lookup(View(), pid).value < |ts| && StatusFits(ts[Lookup(View(), pid).value]))
      modifies this`ts, this`next, this`first, this`lists, this`clock, this`bitcache, this`request, this`ret
      ensures Valid()
      ensures var r := Wakeup(old(View()), pid); K() == r.k && request == r.request && ret == r.ret
    {
      var thread := if pid < |pids| then pids[pid] else None;
      if thread.Some? && ts[thread.value].status == Sleeping {
        WakeupIs(View(), pid, thread.value);
        WakeSleeper(thread.value);
      } else {
        assert Wakeup(View(), pid) == View().(ret := -1);
        ret := -1;
      }
    }

    method WakeSleeper(t: Tid)
      requires Valid() && t < |ts| && ts[t].loc == None
      modifies this`ts, this`next, this`first, this`lists, this`clock, this`bitcache, this`request, this`ret
      ensures Valid() && ret == 1
      ensures var k1 := SetStatus(old(K()), t, Running); var act := Switch(old(ts[t].prio));
              K() == GoneOn(k1, isr, active, act) && request == Requested(k1, isr, active, old(request), act)
    {
      var prio := ts[t].prio;
      SchedSetStatus(t, Running, locked);
      ret := 1;
      GoOn(Switch(prio));
    }

    /** thread_kill_zombie */
    method ThreadKillZombie(pid: nat)
      requires Valid() && (Lookup(View(), pid).Some? ==> Lookup(View(), pid).value < |ts|)
      modifies this`ts, this`next, this`first, this`lists, this`clock, this`bitcache, this`pids, this`ret
      ensures Valid()
      ensures var r := KillZombie(old(View()), pid); K() == r.k && pids == r.pids && ret == r.ret
    {
      var thread := if pid < |pids| then pids[pid] else None;
      if thread.Some? && ts[thread.value].status == Zombie {
        KillIs(View(), pid, thread.value);
        Bury(pid, thread.value);
      } else {
        assert KillZombie(View(), pid) == View().(ret := -1);
        ret := -1;
      }
    }

    method Bury(pid: nat, t: Tid)
      requires Valid() && t < |ts| && !OnRunqueue(ts[t].status) && pid < |pids|
      modifies this`ts, this`next, this`first, this`lists, this`clock, this`bitcache, this`pids, this`ret
      ensures Valid() && K() == SetStatus(old(K()), t, Stopped) && pids == old(pids)[pid := None] && ret == 1
    {
      pids := pids[pid := None];
      ret := 1;
      SchedSetStatus(t, Stopped, locked);
    }

    /** sched_task_exit, up to the switch */
    method EndThread()
      requires Valid() && active.Some? && active.value < |ts| && activePid < |pids|
      modifies this`ts, this`next, this`first, this`lists, this`clock, this`bitcache, this`pids, this`active
      ensures Valid() && active == None && pids == old(pids[activePid := None])
      ensures K() == SetStatus(old(K()), old(active.value), Stopped)
    {
      pids := pids[activePid := None];
      SchedSetStatus(active.value, Stopped, locked);
      active := None;
    }

    /** thread_create, but for the stack */
    method ThreadCreate(prio: nat, sleeping: bool)
      requires Valid()
      modifies this`ts, this`queues, this`next, this`first, this`lists, this`clock, this`bitcache, this`pids,
        this`request, this`ret
      ensures Valid()
      ensures var r := Create(old(View()), prio, sleeping);
          K() == r.k && request == r.request && pids == r.pids && ret == r.ret
    {
      if prio >= LEVELS {
        ret := EINVAL;
        return;
      }
      var pid := FindFreePid();
      if pid >= |pids| {
        assert Create(View(), prio, sleeping) == View().(ret := EOVERFLOW);
        ret := EOVERFLOW;
        return;
      }
      CreateIs(View(), prio, sleeping, pid);
      StartThread(prio, sleeping, pid);
    }

    /** The loop over the table of threads. */
    method FindFreePid() returns (pid: nat)
      ensures FreePid(pids, 1) == if pid < |pids| then Some(pid) else None
    {
      pid := 1;
      while pid < |pids| && pids[pid].Some?
        invariant FreePid(pids, 1) == FreePid(pids, pid)
        decreases |pids| - pid
      {
        pid := pid + 1;
      }
    }

    method StartThread(prio: nat, sleeping: bool, pid: nat)
      requires Valid() && prio < LEVELS && pid < |pids|
      modifies this`ts, this`queues, this`next, this`first, this`lists, this`clock, this`bitcache, this`pids,
        this`request, this`ret
      ensures Valid() && pids == old(pids[pid := Some(|ts|)]) && ret == pid
      ensures var k1 := SetStatus(AddThread(old(K()), prio, pid), |old(ts)|, if sleeping then Sleeping else Pending);
              && K() == SwitchedTo(k1, isr, active, if sleeping then None else Some(prio))
              && request == RequestedBy(k1, isr, active, old(request), if sleeping then None else Some(prio))
    {
      pids := pids[pid := Some(|ts|)];
      ret := pid;
      NewThread(prio, sleeping, pid);
      if !sleeping { GoOn(Switch(prio)); }
    }

    method NewThread(prio: nat, sleeping: bool, pid: nat)
      requires Valid() && prio < LEVELS
      modifies this`ts, this`queues, this`next, this`first, this`lists, this`clock, this`bitcache
      ensures Valid() && K() ==
          SetStatus(AddThread(old(K()), prio, pid), |old(ts)|, if sleeping then Sleeping else Pending)
    {
      AddRecord(prio, pid);
      SchedSetStatus(|ts| - 1, if sleeping then Sleeping else Pending, locked);
    }

    /** The new thread control block. */
    method AddRecord(prio: nat, pid: nat)
      requires Valid() && prio < LEVELS
      modifies this`ts, this`next, this`queues
      ensures Valid() && K() == AddThread(old(K()), prio, pid)
    {
      ts := ts + [NO_TCB.(prio := prio, pid := pid)];
      next := next + [Null];
      queues := queues + [MsgRing(Fresh(0), [])];
      QueuesGrow(old(ts), old(queues), NO_TCB.(prio := prio, pid := pid));
      Added(old(next), next, first, old(K()), K(), locked);
    }

    // ------------------------------------------------------------ mutex.c

    /** The pointer in the head of a mutex: null if it is unlocked, MUTEX_LOCKED if nobody waits. */
    method MutexWord(m: nat) returns (link: Link)
      requires Valid()
      ensures link == Null <==> m !in locked && L(K(), MutexQ(m)) == []
      ensures link == MutexLocked <==> m in locked && L(K(), MutexQ(m)) == []
      ensures link.To? <==> L(K(), MutexQ(m)) != []
    {
      assert Represents(next, Head(first, MutexQ(m)), MutexQ(m), L(K(), MutexQ(m)), Nil(MutexQ(m), locked));
      link := if MutexQ(m) in first then first[MutexQ(m)] else Null;
    }

    /** The head of a mutex without waiters is written. */
    method SetMutexWord(m: nat, link: Link, ghost lh: set<nat>, ghost lh': set<nat>)
      requires ValidWith(lh) && L(K(), MutexQ(m)) == [] && link == (if m in lh' then MutexLocked else Null)
      requires forall i :: i != m ==> (i in lh <==> i in lh')
      modifies this`first
      ensures ValidWith(lh')
    {
      first := first[MutexQ(m) := link];
      WordKeeps(next, old(first), first, K(), lh, lh', m);
    }

    ghost method CountGrant(m: nat)
      modifies this`grants
      ensures grants == old(grants)[m := Count(old(grants), m) + 1]
    {
      grants := grants[m := Count(grants, m) + 1];
    }

    ghost method CountRelease(m: nat)
      modifies this`releases
      ensures releases == old(releases)[m := Count(old(releases), m) + 1]
    {
      releases := releases[m := Count(releases, m) + 1];
    }

    /** The mutex was unlocked, and becomes the caller's. */
    method TakeFreeMutex(m: nat)
      requires Valid() && active.Some? && active.value < |ts| && m !in locked && L(K(), MutexQ(m)) == []
      modifies this`ts, this`first, this`locked, this`grants
      ensures Valid() && locked == old(locked) + {m} && grants == old(grants)[m := Count(old(grants), m) + 1]
      ensures K() == SetT(old(K()), active.value, T(old(K()), active.value).(lock := Some(m)))
    {
      SetMutexWord(m, MutexLocked, locked, locked + {m});
      locked := locked + {m};
      PutRecord(active.value, ts[active.value].(lock := Some(m)), locked);
      CountGrant(m);
    }

    /** _block, up to irq_restore */
    method BlockCaller(m: nat, rest: Act)
      requires Valid() && active.Some? && IsHead(K(), active.value) && m in locked
      modifies this`ts, this`next, this`first, this`lists, this`clock, this`bitcache
      ensures Valid() && K() == Owe(BlockOnMutex(old(K()), active.value, m), active.value, [Yield, rest])
    {
      LeaveForMutex(m);
      OweActs(active.value, [Yield, rest]);
    }

    method LeaveForMutex(m: nat)
      requires Valid() && active.Some? && IsHead(K(), active.value) && m in locked
      modifies this`ts, this`next, this`first, this`lists, this`clock, this`bitcache
      ensures Valid() && K() == BlockOnMutex(old(K()), active.value, m)
    {
      JoinMutexQueue(m);
      PutRecord(active.value, ts[active.value].(lock := None), locked);
    }

    method JoinMutexQueue(m: nat)
      requires Valid() && active.Some? && IsHead(K(), active.value) && m in locked
      modifies this`ts, this`next, this`first, this`lists, this`clock, this`bitcache
      ensures Valid() && K() ==
          AddToList(SetStatus(old(K()), active.value, MutexBlocked), MutexQ(m), active.value) && active.value < |ts|
    {
      LeaveRunqueue(MutexBlocked);
      Enqueue(active.value, m);
    }

    /** The caller blocks. */
    method LeaveRunqueue(status: Status)
      requires Valid() && active.Some? && IsHead(K(), active.value) && !OnRunqueue(status)
      modifies this`ts, this`next, this`first, this`lists, this`clock, this`bitcache
      ensures Valid() && K() == SetStatus(old(K()), active.value, status) && active.value < |ts| &&
          ts[active.value].loc == None
    {
      LeavesQueue(K(), active.value, status);
      SchedSetStatus(active.value, status, locked);
    }

    /** The test of _block whether the caller is the first to wait, and the two ways of linking it. */
    method Enqueue(t: Tid, m: nat)
      requires Valid() && t < |ts| && ts[t].loc == None && m in locked
      modifies this`ts, this`next, this`first, this`lists, this`clock
      ensures Valid() && K() == AddToList(old(K()), MutexQ(m), t)
    {
      var word := MutexWord(m);
      if word == MutexLocked {
        assert L(K(), MutexQ(m)) == [];
        SetMutexWord(m, Null, locked, locked - {m});
        AddFirstWaiter(t, m);
      } else {
        ThreadAddToList(MutexQ(m), t);
        WaitersHideLock(next, first, K(), locked, m);
      }
    }

    method AddFirstWaiter(t: Tid, m: nat)
      requires ValidWith(locked - {m}) && t < |ts| && ts[t].loc == None && m in locked && L(K(), MutexQ(m)) == []
      modifies this`ts, this`next, this`first, this`lists, this`clock
      ensures Valid() && K() == AddToList(old(K()), MutexQ(m), t)
    {
      ghost var k := K();
      first := first[MutexQ(m) := To(t)];
      next := next[t := Null];
      ts := ts[t := ts[t].(loc := Some(MutexQ(m)), ticket := clock)];
      lists := lists[MutexQ(m) := [t]];
      clock := clock + 1;
      QueuesStay(old(ts), queues, t, ts[t]);
      assert [] + [t] + [] == [t];
      assert Represents(old(next), Head(old(first), MutexQ(m)), MutexQ(m), [], Null);
      Inserted(old(next), next, old(first), first, k, K(), locked - {m}, MutexQ(m), t, [], [], Null);
      WaitersHideLock(next, first, K(), locked, m);
    }

    /** mutex_lock_internal */
    method MutexLockInternal(m: nat, block: bool)
      requires Valid() && active.Some? && IsHead(K(), active.value) && (L(K(), MutexQ(m)) != [] ==> m in locked)
      modifies this`ts, this`next, this`first, this`lists, this`clock, this`bitcache, this`locked, this`grants, this`ret
      ensures Valid()
      ensures var r := Lock(old(View()), active.value, m, block);
              K() == r.k && locked == r.locked && grants == r.grants && ret == r.ret
    {
      var word := MutexWord(m);
      if word == Null {
        LockFreeIs(View(), active.value, m, block);
        TakeAndReturn(m, 1);
      } else if !block {
        ret := 0;
      } else {
        LockWaits(m);
      }
    }

    method LockWaits(m: nat)
      requires Valid() && active.Some? && IsHead(K(), active.value) && m in locked
      modifies this`ts, this`next, this`first, this`lists, this`clock, this`bitcache, this`ret
      ensures Valid()
      ensures var r := Lock(old(View()), active.value, m, true);
          K() == r.k && locked == r.locked && grants == r.grants && ret == r.ret
    {
      LockBlocksIs(View(), active.value, m);
      BlockCaller(m, Locked(m));
      ret := 1;
    }

    /** mutex_lock_cancelable */
    method MutexLockCancelable(id: nat)
      requires Valid() && active.Some? && IsHead(K(), active.value) && id in cancels
      requires L(K(), MutexQ(cancels[id].mutex)) != [] ==> cancels[id].mutex in locked
      modifies this`ts, this`next, this`first, this`lists, this`clock, this`bitcache, this`locked, this`grants, this`ret
      ensures Valid()
      ensures var r := LockCancelable(old(View()), active.value, id);
              K() == r.k && locked == r.locked && grants == r.grants && ret == r.ret
    {
      if cancels[id].cancelled {
        ret := ECANCELED;
      } else {
        CancelableLock(id);
      }
    }

    method CancelableLock(id: nat)
      requires Valid() && active.Some? && IsHead(K(), active.value) && id in cancels && !cancels[id].cancelled
      requires L(K(), MutexQ(cancels[id].mutex)) != [] ==> cancels[id].mutex in locked
      modifies this`ts, this`next, this`first, this`lists, this`clock, this`bitcache, this`locked, this`grants, this`ret
      ensures Valid()
      ensures var r := LockCancelable(old(View()), active.value, id);
              K() == r.k && locked == r.locked && grants == r.grants && ret == r.ret
    {
      var word := MutexWord(cancels[id].mutex);
      if word == Null { CancelableTakes(id); } else { CancelableWaits(id); }
    }

    method CancelableTakes(id: nat)
      requires Valid() && active.Some? && active.value < |ts| && id in cancels && !cancels[id].cancelled
      requires cancels[id].mutex !in locked && L(K(), MutexQ(cancels[id].mutex)) == []
      modifies this`ts, this`first, this`locked, this`grants, this`ret
      ensures Valid()
      ensures var r := LockCancelable(old(View()), active.value, id);
              K() == r.k && locked == r.locked && grants == r.grants && ret == r.ret
    {
      CancelableFreeIs(View(), active.value, id);
      TakeAndReturn(cancels[id].mutex, 0);
    }

    method CancelableWaits(id: nat)
      requires Valid() && active.Some? && IsHead(K(), active.value) && id in cancels && !cancels[id].cancelled
      requires cancels[id].mutex in locked
      modifies this`ts, this`next, this`first, this`lists, this`clock, this`bitcache
      ensures Valid()
      ensures var r := LockCancelable(old(View()), active.value, id);
              K() == r.k && locked == r.locked && grants == r.grants && ret == r.ret
    {
      CancelableBlocksIs(View(), active.value, id);
      BlockCaller(cancels[id].mutex, CheckCancel(id));
    }

    method TakeAndReturn(m: nat, value: int)
      requires Valid() && active.Some? && active.value < |ts| && m !in locked && L(K(), MutexQ(m)) == []
      modifies this`ts, this`first, this`locked, this`grants, this`ret
      ensures Valid() && locked == old(locked) + {m} && grants == old(grants)[m := Count(old(grants), m) + 1] &&
          ret == value
      ensures K() == SetT(old(K()), active.value, T(old(K()), active.value).(lock := Some(m)))
    {
      TakeFreeMutex(m);
      ret := value;
    }

    /** The waiter that is first in line gets the mutex. */
    method HandToFirst(m: nat) returns (head: Tid)
      requires Valid() && m in locked && L(K(), MutexQ(m)) != [] && HeadBlocked(K(), MutexQ(m))
      modifies this`ts, this`next, this`first, this`lists, this`clock, this`bitcache, this`grants, this`releases
      ensures Valid() && head == old(L(K(), MutexQ(m)))[0] && head < |ts|
      ensures K() == HandedTo(old(K()), m)
      ensures grants == old(grants)[m := Count(old(grants), m) + 1] &&
          releases == old(releases)[m := Count(old(releases), m) + 1]
    {
      head := WakeFirstWaiter(m);
      PutRecord(head, ts[head].(lock := Some(m)), locked);
      CountRelease(m);
      CountGrant(m);
    }

    method WakeFirstWaiter(m: nat) returns (head: Tid)
      requires Valid() && m in locked && L(K(), MutexQ(m)) != [] && HeadBlocked(K(), MutexQ(m))
      modifies this`ts, this`next, this`first, this`lists, this`clock, this`bitcache
      ensures Valid() && head == old(L(K(), MutexQ(m)))[0] && head < |ts|
      ensures K() == WakeHead(old(K()), MutexQ(m))
    {
      HeadExists(K(), MutexQ(m));
      var h := ListRemoveHead(MutexQ(m));
      head := h.value;
      SchedSetStatus(head, Pending, locked - {m});
      KeepLocked(m);
    }

    /** if (!mutex->queue.next) { mutex->queue.next = MUTEX_LOCKED; } */
    method KeepLocked(m: nat)
      requires ValidWith(locked - {m}) && m in locked
      modifies this`first
      ensures Valid()
    {
      assert Represents(next, Head(first, MutexQ(m)), MutexQ(m), L(K(), MutexQ(m)), Nil(MutexQ(m), locked - {m}));
      if !(MutexQ(m) in first && first[MutexQ(m)] != Null) {
        SetMutexWord(m, MutexLocked, locked - {m}, locked);
      } else {
        WaitersHideLock(next, first, K(), locked, m);
      }
    }

    /** The mutex becomes free. */
    method FreeMutex(m: nat)
      requires Valid() && m in locked && L(K(), MutexQ(m)) == []
      modifies this`first, this`locked, this`releases
      ensures Valid() && K() == old(K()) && locked == old(locked) - {m}
      ensures releases == old(releases)[m := Count(old(releases), m) + 1]
    {
      SetMutexWord(m, Null, locked, locked - {m});
      locked := locked - {m};
      CountRelease(m);
    }

    /** mutex_unlock, up to irq_restore: whom the mutex was handed to */
    method MutexRelease(m: nat) returns (heir: Option<Tid>)
      requires Valid() && MayUnlock(K(), locked, m)
      modifies this`ts, this`next, this`first, this`lists, this`clock, this`bitcache, this`locked, this`grants,
        this`releases
      ensures Valid() && heir == Heir(old(View()), m) && (heir.Some? ==> heir.value < |ts|)
      ensures var r := UnlockCore(old(View()), m);
              K() == r.k && locked == r.locked && grants == r.grants && releases == r.releases
    {
      var word := MutexWord(m);
      heir := None;
      if word == MutexLocked {
        FreeMutexIs(View(), m);
        FreeMutex(m);
      } else if word.To? {
        HandIs(View(), m);
        var head := HandToFirst(m);
        heir := Some(head);
      }
    }

    /** mutex_unlock */
    method MutexUnlock(m: nat)
      requires Valid() && MayUnlock(K(), locked, m)
      modifies this`ts, this`next, this`first, this`lists, this`clock, this`bitcache, this`locked, this`grants,
        this`releases, this`request
      ensures Valid()
      ensures var r := Unlock(old(View()), m);
              K() == r.k && request == r.request && locked == r.locked && grants == r.grants && releases == r.releases
    {
      UnlockIs(View(), m);
      ReleaseAndSwitch(m, UnlockCore(View(), m), Heir(View(), m));
    }

    method ReleaseAndSwitch(m: nat, ghost r1: State, ghost heir: Option<Tid>)
      requires Valid() && r1 == UnlockCore(View(), m) && heir == Heir(View(), m)
      requires MayUnlock(K(), locked, m)
      modifies this`ts, this`next, this`first, this`lists, this`clock, this`bitcache, this`locked, this`grants,
        this`releases, this`request
      ensures Valid() && locked == r1.locked && grants == r1.grants && releases == r1.releases
      ensures if heir.None? then K() == r1.k && request == old(request)
              else var act := Switch(T(r1.k, heir.value).prio);
                   K() == GoneOn(r1.k, isr, active, act) && request == Requested(r1.k, isr, active, old(request), act)
    {
      var next := MutexRelease(m);
      if next.Some? { GoOn(Switch(ts[next.value].prio)); }
    }

    /** mutex_unlock_and_sleep */
    method MutexUnlockAndSleep(m: nat)
      requires Valid() && active.Some? && active.value < |ts|
      requires MayUnlock(K(), locked, m)
      modifies this`ts, this`next, this`first, this`lists, this`clock, this`bitcache, this`locked, this`grants,
        this`releases, this`request
      ensures Valid()
      ensures var r1 := UnlockCore(old(View()), m); var r := Retire(r1, active.value, Sleeping);
              K() == r.k && request == r.request && locked == r1.locked && grants == r1.grants &&
                releases == r1.releases
    {
      SleepIs(View(), active.value, m);
      ReleaseAndSleep(m, UnlockCore(View(), m));
    }

    method ReleaseAndSleep(m: nat, ghost r1: State)
      requires Valid() && active.Some? && active.value < |ts| && r1 == UnlockCore(View(), m)
      requires MayUnlock(K(), locked, m)
      modifies this`ts, this`next, this`first, this`lists, this`clock, this`bitcache, this`locked, this`grants,
        this`releases, this`request
      ensures Valid() && locked == r1.locked && grants == r1.grants && releases == r1.releases
      ensures var k1 := SetStatus(r1.k, active.value, Sleeping);
              K() == GoneOn(k1, isr, active, Yield) && request == Requested(k1, isr, active, old(request), Yield)
    {
      ReleaseAndRetire(m);
      GoOn(Yield);
    }

    method ReleaseAndRetire(m: nat)
      requires Valid() && active.Some? && active.value < |ts|
      requires MayUnlock(K(), locked, m)
      modifies this`ts, this`next, this`first, this`lists, this`clock, this`bitcache, this`locked, this`grants,
        this`releases
      ensures Valid()
      ensures var r1 := UnlockCore(old(View()), m);
              K() == SetStatus(r1.k, active.value, Sleeping) && locked == r1.locked && grants == r1.grants &&
                releases == r1.releases
    {
      UnlockKeepsSize(View(), m);
      var heir := MutexRelease(m);
      SchedSetStatus(active.value, Sleeping, locked);
    }

    /** mutex_cancel_init, by the active thread */
    method MutexCancelInit(id: nat, m: nat)
      requires Valid() && active.Some?
      modifies this`cancels
      ensures Valid() && cancels == old(cancels)[id := Cancel(m, active.value, false, false)]
    {
      cancels := cancels[id := Cancel(m, active.value, false, false)];
    }

    /** mutex_cancel */
    method MutexCancelCall(id: nat)
      requires Valid() && id in cancels && cancels[id].thread < |ts|
      requires cancels[id].mutex in locked <== L(K(), MutexQ(cancels[id].mutex)) != []
      modifies this`ts, this`next, this`first, this`lists, this`clock, this`bitcache, this`cancels, this`request
      ensures Valid()
      ensures var r := MutexCancel(old(View()), id); K() == r.k && cancels == r.cancels && request == r.request
    {
      var c := cancels[id];
      var m, t := c.mutex, c.thread;
      if OnRunqueue(ts[t].status) {
        var late := c.late || (InCancelable(ts[t], id) && ts[t].lock == Some(m));
        cancels := cancels[id := c.(cancelled := true, late := late)];
      } else {
        CancelQueued(id);
      }
    }

    /** mutex_cancel, of a thread that is not about to run */
    method CancelQueued(id: nat)
      requires Valid() && id in cancels && cancels[id].thread < |ts| && !OnRunqueue(ts[cancels[id].thread].status)
      requires cancels[id].mutex in locked <== L(K(), MutexQ(cancels[id].mutex)) != []
      modifies this`ts, this`next, this`first, this`lists, this`clock, this`bitcache, this`cancels, this`request
      ensures Valid()
      ensures var r := MutexCancel(old(View()), id); K() == r.k && cancels == r.cancels && request == r.request
    {
      CancelIs(View(), id);
      var m, t := cancels[id].mutex, cancels[id].thread;
      cancels := cancels[id := cancels[id].(cancelled := true)];
      RemoveWaiter(m, t);
    }

    /** The thread is taken off the list of the mutex, if it is there. */
    method RemoveWaiter(m: nat, t: Tid)
      requires Valid() && t < |ts| && (L(K(), MutexQ(m)) != [] ==> m in locked)
      modifies this`ts, this`next, this`first, this`lists, this`clock, this`bitcache, this`request
      ensures Valid()
      ensures var k1 := SetStatus(RemoveFrom(old(K()), MutexQ(m), t), t, Pending); var act := Switch(old(ts[t].prio));
              if t in old(L(K(), MutexQ(m))) then
                K() == GoneOn(k1, isr, active, act) && request == Requested(k1, isr, active, old(request), act)
              else K() == old(K()) && request == old(request)
    {
      var word := MutexWord(m);
      if word.To? {
        var found := ListRemove(MutexQ(m), t);
        if found { WakeCancelled(m, t); } else { Unmoved(old(next), next, old(first), first, old(K()), K()); }
      }
    }

    method WakeCancelled(m: nat, t: Tid)
      requires ValidWith(locked - {m}) && m in locked && t < |ts| && ts[t].loc == None
      modifies this`ts, this`next, this`first, this`lists, this`clock, this`bitcache, this`request
      ensures Valid()
      ensures var k1 := SetStatus(old(K()), t, Pending); var act := Switch(old(ts[t].prio));
              K() == GoneOn(k1, isr, active, act) && request == Requested(k1, isr, active, old(request), act)
    {
      KeepLocked(m);
      var prio := ts[t].prio;
      SchedSetStatus(t, Pending, locked);
      GoOn(Switch(prio));
    }

    // ------------------------------------------------------------ cond.c

    /** cond_wait, up to irq_restore */
    method CondWaitCall(c: nat, m: nat)
      requires Valid() && active.Some? && active.value < |ts|
      requires MayUnlock(K(), locked, m)
      requires IsHead(UnlockCore(View(), m).k, active.value)
      modifies this`ts, this`next, this`first, this`lists, this`clock, this`bitcache, this`locked, this`grants,
        this`releases, this`request
      ensures Valid()
      ensures var r := Spec.CondWait(old(View()), active.value, c, m);
              K() == r.k && request == r.request && locked == r.locked && grants == r.grants && releases == r.releases
    {
      CondWaitIs(View(), active.value, c, m);
      ReleaseAndWait(c, m, UnlockCore(View(), m), Heir(View(), m));
    }

    method ReleaseAndWait(c: nat, m: nat, ghost r1: State, ghost heir: Option<Tid>)
      requires Valid() && active.Some? && r1 == UnlockCore(View(), m) && heir == Heir(View(), m)
      requires MayUnlock(K(), locked, m) && IsHead(r1.k, active.value)
      modifies this`ts, this`next, this`first, this`lists, this`clock, this`bitcache, this`locked, this`grants,
        this`releases, this`request
      ensures Valid() && Tallies() == TalliesOf(r1) && request == NotedRequest(r1.k, active, old(request), heir)
      ensures K() == Owe(AddToList(SetStatus(r1.k, active.value, CondBlocked), CondQ(c), active.value), active.value,
          [Yield, Relock(m)])
    {
      hide UnlockCore, Heir, MayUnlock;
      ReleaseAndNote(m, r1, heir);
      WaitForSignal(c, m, r1.k);
    }

    method WaitForSignal(c: nat, m: nat, ghost k1: Core)
      requires Valid() && K() == k1 && active.Some? && IsHead(k1, active.value)
      modifies this`ts, this`next, this`first, this`lists, this`clock, this`bitcache
      ensures Valid()
      ensures K() == Owe(AddToList(SetStatus(k1, active.value, CondBlocked), CondQ(c), active.value), active.value,
          [Yield, Relock(m)])
    {
      WaitOnList(CondQ(c), CondBlocked, [Yield, Relock(m)]);
    }

    method ReleaseAndNote(m: nat, ghost r1: State, ghost heir: Option<Tid>)
      requires Valid() && r1 == UnlockCore(View(), m) && heir == Heir(View(), m) && MayUnlock(K(), locked, m)
      modifies this`ts, this`next, this`first, this`lists, this`clock, this`bitcache, this`locked, this`grants,
        this`releases, this`request
      ensures Valid() && K() == r1.k && Tallies() == TalliesOf(r1)
      ensures request == NotedRequest(r1.k, active, old(request), heir)
    {
      var next := MutexRelease(m);
      NoteSwitch(next);
    }

    /** The end of mutex_unlock with interrupts disabled, where sched_switch only records the request. */
    method NoteSwitch(heir: Option<Tid>)
      requires Valid() && (heir.Some? ==> heir.value < |ts|)
      modifies this`request
      ensures Valid() && request == NotedRequest(K(), active, old(request), heir)
    {
      if heir.Some? {
        if SwitchDue(ts[heir.value].prio) { request := true; }
      }
    }

    /** The caller goes onto a wait list. */
    method WaitOnList(l: ListId, status: Status, acts: seq<Act>)
      requires Valid() && active.Some? && IsHead(K(), active.value) && !OnRunqueue(status) && !l.Rq? && !l.MutexQ?
      modifies this`ts, this`next, this`first, this`lists, this`clock, this`bitcache
      ensures Valid() && K() ==
          Owe(AddToList(SetStatus(old(K()), active.value, status), l, active.value), active.value, acts)
    {
      LeaveRunqueue(status);
      ThreadAddToList(l, active.value);
      OweActs(active.value, acts);
    }

    /** _cond_signal */
    method CondSignal(c: nat, broadcast: bool)
      requires Valid() && Blocked(K(), L(K(), CondQ(c)))
      modifies this`ts, this`next, this`first, this`lists, this`clock, this`bitcache, this`request
      ensures Valid()
      ensures var r := Signal(old(View()), c, broadcast); K() == r.k && request == r.request
    {
      SignalIs(View(), c, broadcast);
      var min := WakeWaiters(c, broadcast);
      if min <= LEVELS - 1 { GoOn(Switch(min)); }
    }

    /** The loop of _cond_signal. */
    method WakeWaiters(c: nat, broadcast: bool) returns (min: nat)
      requires Valid() && Blocked(K(), L(K(), CondQ(c)))
      modifies this`ts, this`next, this`first, this`lists, this`clock, this`bitcache
      ensures Valid() && K() == WakeAll(old(K()), CondQ(c), |Signalled(old(View()), c, broadcast)|)
      ensures min == MinPrio(old(K()), Signalled(old(View()), c, broadcast), LEVELS)
    {
      ghost var k := K();
      ghost var n := |Signalled(View(), c, broadcast)|;
      ghost var i := 0;
      min := LEVELS;
      var more := true;
      SignalStart(View(), c, broadcast);
      while more
        invariant Valid() && Signalling(k, K(), CondQ(c), n, i, min) && (!broadcast ==> n <= 1) &&
            (broadcast ==> n == |L(k, CondQ(c))|)
        invariant n == 0 ==> L(k, CondQ(c)) == []
        invariant if more then i == 0 || broadcast else i == n
        decreases more, n - i
      {
        SignalStep(k, K(), CondQ(c), n, i, min);
        var t := WakeFirst(CondQ(c));
        if t.None? {
          more := false;
        } else {
          min := if ts[t.value].prio < min then ts[t.value].prio else min;
          i := i + 1;
          if !broadcast { more := false; }
        }
      }
      SignalEnd(k, K(), CondQ(c), n, min);
    }

    // ------------------------------------------------------------ thread_flags.c

    /** Setting flags, and _thread_flags_wake */
    method RaiseFlagsOf(t: Tid, mask: Flags) returns (woken: bool)
      requires Valid() && t < |ts| && (FlagsSatisfied(WithFlags(ts[t], mask)) ==> ts[t].loc == None)
      modifies this`ts, this`next, this`first, this`lists, this`clock, this`bitcache, this`request
      ensures Valid() && woken == FlagsSatisfied(WithFlags(T(old(K()), t), mask))
      ensures K() == RaisedCore(old(K()), t, mask) && request == (old(request) || woken)
    {
      PutRecord(t, WithFlags(ts[t], mask), locked);
      woken := FlagsSatisfied(ts[t]);
      if woken {
        SchedSetStatus(t, Pending, locked);
        request := true;
      }
    }

    /** thread_flags_set */
    method ThreadFlagsSet(t: Tid, mask: Flags)
      requires Valid() && t < |ts| && (FlagsSatisfied(WithFlags(ts[t], mask)) ==> ts[t].loc == None)
      modifies this`ts, this`next, this`first, this`lists, this`clock, this`bitcache, this`request
      ensures Valid()
      ensures var r := FlagsSet(old(View()), t, mask); K() == r.k && request == r.request
    {
      FlagsSetIs(View(), t, mask);
      var woken := RaiseFlagsOf(t, mask);
      if woken { GoOn(Yield); }
    }

    /** _thread_flags_clear_atomic, and thread_flags_clear */
    method ThreadFlagsClear(mask: Flags)
      requires Valid() && active.Some? && active.value < |ts|
      modifies this`ts, this`flagsRet
      ensures Valid()
      ensures var r := FlagsClear(old(View()), active.value, mask); K() == r.k && flagsRet == r.flagsRet
    {
      var me := active.value;
      flagsRet := mask * ts[me].flags;
      PutRecord(me, ts[me].(flags := ts[me].flags - flagsRet), locked);
    }

    /** _thread_flags_wait */
    method WaitForFlags(mask: Flags, status: Status, rest: Act)
      requires Valid() && active.Some? && active.value < |ts| && !OnRunqueue(status)
      modifies this`ts, this`next, this`first, this`lists, this`clock, this`bitcache
      ensures Valid() && K() == FlagsBlock(old(K()), active.value, mask, status, rest)
    {
      var me := active.value;
      PutRecord(me, ts[me].(wait := Mask(mask), answer := None, mail := None), locked);
      SchedSetStatus(me, status, locked);
      OweActs(me, [Yield, rest]);
    }

    /** thread_flags_wait_any and thread_flags_wait_one, up to the first irq_restore */
    method ThreadFlagsWaitAny(mask: Flags, rest: Act)
      requires Valid() && active.Some? && active.value < |ts|
      modifies this`ts, this`next, this`first, this`lists, this`clock, this`bitcache
      ensures Valid() && K() == WaitAny(old(View()), active.value, mask, rest).k
    {
      if ts[active.value].flags * mask == {} {
        WaitForFlags(mask, FlagBlockedAny, rest);
      } else {
        OweActs(active.value, [rest]);
      }
    }

    /** thread_flags_wait_all, up to the first irq_restore */
    method ThreadFlagsWaitAll(mask: Flags)
      requires Valid() && active.Some? && active.value < |ts|
      modifies this`ts, this`next, this`first, this`lists, this`clock, this`bitcache
      ensures Valid() && K() == WaitAll(old(View()), active.value, mask).k
    {
      if !(mask <= ts[active.value].flags) {
        WaitForFlags(mask, FlagBlockedAll, ClearAll(mask));
      } else {
        OweActs(active.value, [ClearAll(mask)]);
      }
    }

    // ------------------------------------------------------------ msg.c

    method TickClock()
      requires Valid()
      modifies this`clock
      ensures Valid() && K() == Tick(old(K()))
    {
      clock := clock + 1;
      Ticked(next, first, old(K()), K(), locked);
    }

    /** queue_msg, when there is room */
    method QueueMsg(t: Tid, m: Msg) returns (woken: bool)
      requires Valid() && t < |ts| && !QueueFull(ts[t]) &&
          (FlagsSatisfied(WithFlags(ts[t], MSG_WAITING)) ==> ts[t].loc == None)
      modifies this`ts, this`queues, this`next, this`first, this`lists, this`clock, this`bitcache, this`request
      ensures Valid() && woken == FlagsSatisfied(WithFlags(T(old(K()), t), MSG_WAITING))
      ensures K() == RaisedCore(SetT(old(K()), t, Queued(T(old(K()), t), m)), t, MSG_WAITING) &&
          request == (old(request) || woken)
    {
      StoreMsg(t, m, Queued(ts[t], m));
      woken := RaiseFlagsOf(t, MSG_WAITING);
    }

    /** cib_full on a message queue */
    method HasRoom(t: Tid) returns (room: bool)
      requires Valid() && t < |ts|
      ensures room <==> !QueueFull(ts[t])
    {
      RingTests(queues[t], ts[t].cap, ts[t].queue);
      room := !Full(queues[t].cib);
    }

    /** target->msg_array[cib_put(&target->msg_queue)] = *m; tcb is the record with the new message. */
    method StoreMsg(t: Tid, m: Msg, tcb: Tcb)
      requires Valid() && t < |ts| && !QueueFull(ts[t]) && tcb.loc == ts[t].loc && tcb.prio < LEVELS
      requires tcb.cap == ts[t].cap && tcb.queue == ts[t].queue + [m]
      modifies this`ts, this`queues
      ensures Valid() && K() == SetT(old(K()), t, tcb)
    {
      var r := queues[t];
      RingPuts(r, ts[t].cap, ts[t].queue, m);
      queues := queues[t := MsgRing(AfterPut(r.cib), r.items[FreeSlot(r.cib) := m])];
      ts := ts[t := tcb];
      QueuesKeep(old(ts), old(queues), t, tcb, PutInto(r, m));
      RecordKeeps(next, first, old(K()), K(), locked, t, tcb);
    }

    /** The copy into the buffer of a thread that is blocked on receiving. */
    method CopyToReceiver(t: Tid, m: Msg)
      requires Valid() && t < |ts| && ts[t].loc == None
      modifies this`ts, this`next, this`first, this`lists, this`clock, this`bitcache
      ensures Valid() && K() == Deliver(old(K()), t, m)
    {
      PutRecord(t, ts[t].(wait := Buffer(m), sent := ts[t].sent + [m], got := ts[t].got + [m]), locked);
      SchedSetStatus(t, Pending, locked);
    }

    /** Auxiliary: the sender's request has left its buffer. */
    method NoteReceived(m: Msg)
      requires Valid()
      modifies this`ts
      ensures Valid() && K() == MarkAnswerable(old(K()), m)
    {
      if m.from.Some? && Asks(Record(m.from.value), m) {
        if m.from.value < |ts| { PutRecord(m.from.value, ts[m.from.value].(answerable := true), locked); }
      }
    }

    /** _msg_send going send blocked */
    method GoSendBlocked(t: Tid, m: Msg, ghost k1: Core)
      requires Valid() && active.Some? && active.value < |ts| && t < |ts| && k1 == SendBlock(K(), active.value, t, m)
      requires IsHead(K(), active.value) || (ts[active.value].status == ReplyBlocked && ts[active.value].loc == None)
      modifies this`ts, this`next, this`first, this`lists, this`clock, this`bitcache
      ensures Valid() && K() == k1 && |ts| == |k1.ts|
    {
      BlockWith(m);
      LinkSender(t, m);
    }

    /** The caller leaves its run queue with the message in its buffer. */
    method BlockWith(m: Msg)
      requires Valid() && active.Some? && active.value < |ts|
      requires IsHead(K(), active.value) || (ts[active.value].status == ReplyBlocked && ts[active.value].loc == None)
      modifies this`ts, this`next, this`first, this`lists, this`clock, this`bitcache
      ensures Valid() && active.value < |ts| && ts[active.value].loc == None
      ensures var k0 := Park(old(K()), active.value, Buffer(m));
              K() == SetStatus(k0, active.value, if old(ts[active.value]).status == ReplyBlocked then ReplyBlocked
                else SendBlocked)
    {
      var me := active.value;
      PutRecord(me, ts[me].(wait := Buffer(m), answer := None, mail := None), locked);
      SchedSetStatus(me, if ts[me].status == ReplyBlocked then ReplyBlocked else SendBlocked, locked);
    }

    method LinkSender(t: Tid, m: Msg)
      requires Valid() && active.Some? && active.value < |ts| && t < |ts| && ts[active.value].loc == None
      modifies this`ts, this`next, this`first, this`lists, this`clock
      ensures Valid()
      ensures var k1 := AddToList(old(K()), Senders(t), active.value);
          K() == SetT(k1, t, T(k1, t).(sent := T(k1, t).sent + [m]))
    {
      ThreadAddToList(Senders(t), active.value);
      PutRecord(t, ts[t].(sent := ts[t].sent + [m]), locked);
    }

    /** _msg_send to a thread that waits for a message */
    method SendDirect(t: Tid, m: Msg, block: bool)
      requires Valid() && active.Some? && t < |ts| && ts[t].status == ReceiveBlocked && ts[t].loc == None
      modifies this`ts, this`next, this`first, this`lists, this`clock, this`bitcache, this`request, this`ret
      ensures Valid()
      ensures var r := MsgSend(old(View()), active.value, t, m, block);
          K() == r.k && request == r.request && ret == r.ret
    {
      SendDirectIs(View(), active.value, t, m, block);
      CopyAndYield(t, m);
    }

    method CopyAndYield(t: Tid, m: Msg)
      requires Valid() && t < |ts| && ts[t].loc == None
      modifies this`ts, this`next, this`first, this`lists, this`clock, this`bitcache, this`request, this`ret
      ensures Valid() && ret == 1
      ensures var k1 := MarkAnswerable(Deliver(old(K()), t, m), m);
              K() == GoneOn(k1, isr, active, Yield) && request == Requested(k1, isr, active, old(request), Yield)
    {
      ret := 1;
      CopyToReceiver(t, m);
      NoteAndYield(m);
    }

    method NoteAndYield(m: Msg)
      requires Valid()
      modifies this`ts, this`request
      ensures Valid()
      ensures var k1 := MarkAnswerable(old(K()), m);
              K() == GoneOn(k1, isr, active, Yield) && request == Requested(k1, isr, active, old(request), Yield)
    {
      NoteReceived(m);
      GoOn(Yield);
    }

    /** _msg_send to a thread that has room in its queue */
    method SendQueued(t: Tid, m: Msg, block: bool)
      requires Valid() && active.Some? && t < |ts| && ts[t].status != ReceiveBlocked && !QueueFull(ts[t])
      requires FlagsSatisfied(WithFlags(ts[t], MSG_WAITING)) ==> ts[t].loc == None
      modifies this`ts, this`queues, this`next, this`first, this`lists, this`clock, this`bitcache, this`request,
        this`ret
      ensures Valid()
      ensures var r := MsgSend(old(View()), active.value, t, m, block);
          K() == r.k && request == r.request && ret == r.ret
    {
      SendQueuedIs(View(), active.value, t, m, block);
      var woken := QueueMsg(t, m);
      ret := 1;
      GoOn(SwitchIfRequested);
    }

    /** _msg_send to a thread without room for the message */
    method SendBlocking(t: Tid, m: Msg)
      requires Valid() && active.Some? && active.value < |ts| && t < |ts|
      requires ts[t].status != ReceiveBlocked && QueueFull(ts[t]) && MayJoin(K(), active.value, t, m)
      modifies this`ts, this`next, this`first, this`lists, this`clock, this`bitcache, this`request, this`ret
      ensures Valid()
      ensures var r := MsgSend(old(View()), active.value, t, m, true);
          K() == r.k && request == r.request && ret == r.ret
    {
      SendBlockingIs(View(), active.value, t, m);
      JoinAndYield(t, m, SendBlock(K(), active.value, t, m));
    }

    method JoinAndYield(t: Tid, m: Msg, ghost k1: Core)
      requires Valid() && active.Some? && active.value < |ts| && t < |ts| && k1 == SendBlock(K(), active.value, t, m)
      requires IsHead(K(), active.value) || (ts[active.value].status == ReplyBlocked && ts[active.value].loc == None)
      requires FlagsSatisfied(WithFlags(T(k1, t), MSG_WAITING)) ==> T(k1, t).loc == None
      modifies this`ts, this`next, this`first, this`lists, this`clock, this`bitcache, this`request, this`ret
      ensures Valid() && ret == 1
      ensures var k2 := RaisedCore(k1, t, MSG_WAITING);
              && K() == GoneOn(k2, isr, active, Yield)
              && request == Requested(k2, isr, active, old(request) ||
                 FlagsSatisfied(WithFlags(T(k1, t), MSG_WAITING)), Yield)
    {
      ret := 1;
      JoinSenders(t, m, k1);
      GoOn(Yield);
    }

    method JoinSenders(t: Tid, m: Msg, ghost k1: Core)
      requires Valid() && active.Some? && active.value < |ts| && t < |ts| && k1 == SendBlock(K(), active.value, t, m)
      requires IsHead(K(), active.value) || (ts[active.value].status == ReplyBlocked && ts[active.value].loc == None)
      requires FlagsSatisfied(WithFlags(T(k1, t), MSG_WAITING)) ==> T(k1, t).loc == None
      modifies this`ts, this`next, this`first, this`lists, this`clock, this`bitcache, this`request
      ensures Valid()
      ensures K() == RaisedCore(k1, t, MSG_WAITING) &&
          request == (old(request) || FlagsSatisfied(WithFlags(T(k1, t), MSG_WAITING)))
    {
      GoSendBlocked(t, m, k1);
      var woken := RaiseFlagsOf(t, MSG_WAITING);
    }

    /** _msg_send */
    method MsgSendTo(t: Tid, m: Msg, block: bool)
      requires Valid() && active.Some? && active.value < |ts| && t < |ts| && MayReceive(ts[t])
      requires ts[t].status != ReceiveBlocked && QueueFull(ts[t]) && block ==> MayJoin(K(), active.value, t, m)
      modifies this`ts, this`queues, this`next, this`first, this`lists, this`clock, this`bitcache, this`request,
        this`ret
      ensures Valid()
      ensures var r := MsgSend(old(View()), active.value, t, m, block);
          K() == r.k && request == r.request && ret == r.ret
    {
      var room := HasRoom(t);
      if ts[t].status == ReceiveBlocked {
        SendDirect(t, m, block);
      } else if room {
        SendQueued(t, m, block);
      } else if !block {
        assert MsgSend(View(), active.value, t, m, block) == View().(ret := 0);
        ret := 0;
      } else {
        SendBlocking(t, m);
      }
    }

    /** msg_send_to_self */
    method MsgSendToSelf(value: int)
      requires Valid() && active.Some? && active.value < |ts| && MayReceive(ts[active.value])
      modifies this`ts, this`queues, this`next, this`first, this`lists, this`clock, this`bitcache, this`request,
        this`ret
      ensures Valid()
      ensures var r := SendToSelf(old(View()), active.value, value); K() == r.k && request == r.request && ret == r.ret
    {
      var room := HasRoom(active.value);
      if !room {
        ret := 0;
      } else {
        QueueIs(View(), active.value, Msg(activePid, value, Some(active.value), clock));
        var m := Msg(activePid, value, Some(active.value), clock);
        TickClock();
        var woken := QueueMsg(active.value, m);
        ret := 1;
      }
    }

    /** msg_send and msg_try_send, in a thread, to another one */
    method MsgSendOther(pid: nat, value: int, block: bool)
      requires Valid() && active.Some? && active.value < |ts| && pid != activePid
      requires Lookup(View(), pid).Some? ==>
        var t := Lookup(View(), pid).value; var m := Stamp(View(), value, active);
        t < |ts| && MayReceive(ts[t]) &&
          (ts[t].status != ReceiveBlocked && QueueFull(ts[t]) && block ==> MayJoin(Tick(K()), active.value, t, m))
      modifies this`ts, this`queues, this`next, this`first, this`lists, this`clock, this`bitcache, this`request,
        this`ret
      ensures Valid()
      ensures var r := Spec.Send(old(View()), active.value, pid, value, block);
          K() == r.k && request == r.request && ret == r.ret
    {
      var target := if pid < |pids| then pids[pid] else None;
      if target.None? {
        ret := -1;
      } else {
        SendIs(View(), active.value, pid, value, block);
        var m := Msg(activePid, value, active, clock);
        TickClock();
        MsgSendTo(target.value, m, block);
      }
    }

    /** msg_send_int */
    method MsgSendInt(pid: nat, value: int)
      requires Valid() && (Lookup(View(), pid).Some? ==>
          Lookup(View(), pid).value < |ts| && MayReceive(ts[Lookup(View(), pid).value]))
      modifies this`ts, this`queues, this`next, this`first, this`lists, this`clock, this`bitcache, this`request,
        this`ret
      ensures Valid()
      ensures var r := SendInt(old(View()), pid, value); K() == r.k && request == r.request && ret == r.ret
    {
      var target := if pid < |pids| then pids[pid] else None;
      if target.None? {
        ret := -1;
      } else {
        SendOneway(target.value, pid, value);
      }
    }

    /** _msg_send_oneway */
    method SendOneway(t: Tid, pid: nat, value: int)
      requires Valid() && Lookup(View(), pid) == Some(t) && t < |ts| && MayReceive(ts[t])
      modifies this`ts, this`queues, this`next, this`first, this`lists, this`clock, this`bitcache, this`request,
        this`ret
      ensures Valid()
      ensures var r := SendInt(old(View()), pid, value); K() == r.k && request == r.request && ret == r.ret
    {
      SendIntIs(View(), pid, value, t);
      var m := Msg(PID_ISR, value, None, clock);
      var room := HasRoom(t);
      if ts[t].status == ReceiveBlocked {
        OnewayCopy(t, m);
      } else if !room {
        ret := 0;
      } else {
        OnewayQueue(t, m);
      }
    }

    method OnewayCopy(t: Tid, m: Msg)
      requires Valid() && t < |ts| && ts[t].loc == None
      modifies this`ts, this`next, this`first, this`lists, this`clock, this`bitcache, this`request, this`ret
      ensures Valid() && K() == Deliver(Tick(old(K())), t, m) && request && ret == 1
    {
      TickClock();
      CopyToReceiver(t, m);
      request := true;
      ret := 1;
    }

    method OnewayQueue(t: Tid, m: Msg)
      requires Valid() && t < |ts| && !QueueFull(ts[t]) &&
          (FlagsSatisfied(WithFlags(ts[t], MSG_WAITING)) ==> ts[t].loc == None)
      modifies this`ts, this`queues, this`next, this`first, this`lists, this`clock, this`bitcache, this`request,
        this`ret
      ensures Valid() && ret == 1
      ensures var k1 := Tick(old(K()));
              && K() == RaisedCore(SetT(k1, t, Queued(T(k1, t), m)), t, MSG_WAITING)
              && request == (old(request) || FlagsSatisfied(WithFlags(T(k1, t), MSG_WAITING)))
    {
      TickClock();
      var woken := QueueMsg(t, m);
      ret := 1;
    }

    /** msg_send_receive */
    method MsgSendReceive(pid: nat, value: int)
      requires Valid() && active.Some? && active.value < |ts| && pid != activePid
      requires Lookup(View(), pid).Some? ==>
          MayRequest(K(), active.value, Lookup(View(), pid).value, Stamp(View(), value, active))
      modifies this`ts, this`queues, this`next, this`first, this`lists, this`clock, this`bitcache, this`request,
        this`ret
      ensures Valid()
      ensures var r := SendReceive(old(View()), active.value, pid, value);
          K() == r.k && request == r.request && ret == r.ret
    {
      var target := if pid < |pids| then pids[pid] else None;
      var m := Msg(activePid, value, active, clock);
      if target.None? {
        GoReplyBlocked(m);
        ret := -1;
      } else {
        RequestReply(target.value, m, pid, value);
      }
    }

    method RequestReply(t: Tid, m: Msg, ghost pid: nat, ghost value: int)
      requires Valid() && active.Some? && active.value < |ts| && Lookup(View(), pid) == Some(t) &&
          m == Stamp(View(), value, active)
      requires MayRequest(K(), active.value, t, m)
      modifies this`ts, this`queues, this`next, this`first, this`lists, this`clock, this`bitcache, this`request,
        this`ret
      ensures Valid()
      ensures var r := SendReceive(old(View()), active.value, pid, value);
          K() == r.k && request == r.request && ret == r.ret
    {
      SendReceiveIs(View(), active.value, pid, value);
      RequestFrom(t, m, Asking(View(), active.value, m));
    }

    method RequestFrom(t: Tid, m: Msg, ghost s1: State)
      requires Valid() && active.Some? && active.value < |ts| && s1 == Asking(View(), active.value, m)
      requires t < |s1.k.ts| && MayReceive(T(s1.k, t))
      requires T(s1.k, t).status != ReceiveBlocked && QueueFull(T(s1.k, t)) ==> MayJoin(s1.k, active.value, t, m)
      modifies this`ts, this`queues, this`next, this`first, this`lists, this`clock, this`bitcache, this`request,
        this`ret
      ensures Valid()
      ensures var r := MsgSend(s1, active.value, t, m, true); K() == r.k && request == r.request && ret == r.ret
    {
      BecomeAsking(m, s1);
      MsgSendTo(t, m, true);
    }

    method BecomeAsking(m: Msg, ghost s1: State)
      requires Valid() && active.Some? && active.value < |ts| && s1 == Asking(View(), active.value, m)
      modifies this`ts, this`next, this`first, this`lists, this`clock, this`bitcache
      ensures Valid() && View() == s1 && |ts| == |s1.k.ts|
    {
      GoReplyBlocked(m);
      OweActs(active.value, [Replied]);
    }

    /** The first part of msg_send_receive: the caller goes reply blocked. */
    method GoReplyBlocked(m: Msg)
      requires Valid() && active.Some? && active.value < |ts|
      modifies this`ts, this`next, this`first, this`lists, this`clock, this`bitcache
      ensures Valid() && K() == Ask(old(K()), active.value, m)
    {
      var me := active.value;
      TickClock();
      SchedSetStatus(me, ReplyBlocked, locked);
      PutRecord(me, ts[me].(wait := Buffer(m), answerable := false, answer := None, mail := None), locked);
    }

    /** The copy of the reply. */
    method CopyReply(t: Tid, reply: Msg)
      requires Valid() && t < |ts| && ts[t].loc == None
      modifies this`ts, this`next, this`first, this`lists, this`clock, this`bitcache
      ensures Valid() && K() == Answer(old(K()), t, reply)
    {
      PutRecord(t, ts[t].(wait := Buffer(reply), answer := Some(reply)), locked);
      SchedSetStatus(t, Pending, locked);
    }

    /** msg_reply, and msg_reply_int */
    method MsgReply(pid: nat, reply: Msg)
      requires Valid() && Lookup(View(), pid).Some? && Lookup(View(), pid).value < |ts|
      requires ts[Lookup(View(), pid).value].status == ReplyBlocked ==> ts[Lookup(View(), pid).value].loc == None
      modifies this`ts, this`next, this`first, this`lists, this`clock, this`bitcache, this`request, this`ret
      ensures Valid()
      ensures var r := Spec.Reply(old(View()), pid, reply); K() == r.k && request == r.request && ret == r.ret
    {
      var t := pids[pid].value;
      if ts[t].status != ReplyBlocked {
        ret := -1;
      } else {
        AnswerWaiting(pid, t, reply);
      }
    }

    method AnswerWaiting(pid: nat, t: Tid, reply: Msg)
      requires Valid() && Lookup(View(), pid) == Some(t) && t < |ts|
      requires ts[t].status == ReplyBlocked && ts[t].loc == None
      modifies this`ts, this`next, this`first, this`lists, this`clock, this`bitcache, this`request, this`ret
      ensures Valid()
      ensures var r := Spec.Reply(old(View()), pid, reply); K() == r.k && request == r.request && ret == r.ret
    {
      ReplyIs(View(), pid, reply, t);
      AnswerTo(t, reply);
    }

    method AnswerTo(t: Tid, reply: Msg)
      requires Valid() && t < |ts| && ts[t].loc == None
      modifies this`ts, this`next, this`first, this`lists, this`clock, this`bitcache, this`request, this`ret
      ensures Valid() && ret == 1
      ensures var k1 := Answer(old(K()), t, reply); var act := Switch(old(ts[t]).prio);
              if isr then K() == k1 && request
              else K() == GoneOn(k1, isr, active, act) && request == Requested(k1, isr, active, old(request), act)
    {
      var prio := ts[t].prio;
      CopyReply(t, reply);
      ret := 1;
      if isr { request := true; } else { GoOn(Switch(prio)); }
    }

    /** _msg_receive, of a message from the caller's own queue */
    method TakeFromQueue(t: Tid)
      requires Valid() && t < |ts|
      modifies this`ts, this`queues
      ensures Valid() && K() == TakeQueued(old(K()), t)
    {
      RingTests(queues[t], ts[t].cap, ts[t].queue);
      if Avail(queues[t].cib) != 0 {
        var m := FetchMsg(t);
        NoteReceived(m);
      }
    }

    /** *m = me->msg_array[cib_get(&me->msg_queue)] */
    method FetchMsg(t: Tid) returns (m: Msg)
      requires Valid() && t < |ts| && ts[t].queue != []
      modifies this`ts, this`queues
      ensures Valid() && m == old(ts)[t].queue[0]
      ensures K() == SetT(old(K()), t, old(ts)[t].(queue := old(ts)[t].queue[1..], got := old(ts)[t].got + [m]))
    {
      var r := queues[t];
      RingGets(r, ts[t].cap, ts[t].queue);
      m := r.items[ReadSlot(r.cib)];
      queues := queues[t := r.(cib := AfterGet(r.cib))];
      ts := ts[t := ts[t].(queue := ts[t].queue[1..], got := ts[t].got + [m])];
      QueuesKeep(old(ts), old(queues), t, ts[t], GetFrom(r));
      RecordKeeps(next, first, old(K()), K(), locked, t, ts[t]);
    }

    /** _msg_receive, of the message of the first waiting sender */
    method TakeFromSender(t: Tid, x: Tid, queued: bool)
      requires Valid() && t < |ts| && x < |ts| && x != t && L(K(), Senders(t)) != [] && L(K(), Senders(t))[0] == x
      requires queued ==> !QueueFull(ts[t])
      modifies this`ts, this`queues, this`next, this`first, this`lists, this`clock, this`bitcache
      ensures Valid() && K() == TakeWaiting(old(K()), t, x, queued)
    {
      var m := Content(ts[x].wait);
      var head := ListRemoveHead(Senders(t));
      if queued {
        StoreMsg(t, m, ts[t].(queue := ts[t].queue + [m]));
      } else {
        PutRecord(t, ts[t].(wait := Buffer(m), answer := None, got := ts[t].got + [m]), locked);
        NoteReceived(m);
      }
      Release(x);
    }

    /** The sender becomes runnable, unless it waits for a reply. */
    method Release(x: Tid)
      requires Valid() && x < |ts| && ts[x].loc == None
      modifies this`ts, this`next, this`first, this`lists, this`clock, this`bitcache
      ensures Valid() && K() == ReleaseSender(old(K()), x)
    {
      if ts[x].status != ReplyBlocked {
        PutRecord(x, ts[x].(wait := NoData), locked);
        SchedSetStatus(x, Pending, locked);
      }
    }

    /** _msg_receive, blocking with nothing to receive */
    method WaitForMessage()
      requires Valid() && active.Some? && active.value < |ts|
      modifies this`ts, this`next, this`first, this`lists, this`clock, this`bitcache
      ensures Valid() && K() == ReceiveBlock(old(K()), active.value)
    {
      var me := active.value;
      PutRecord(me, ts[me].(wait := Buffer(NO_MSG), answer := None, mail := None), locked);
      SchedSetStatus(me, ReceiveBlocked, locked);
      OweActs(me, [Yield, Received]);
    }

    /** msg_init_queue; the array is the caller's. */
    method MsgInitQueue(items: seq<Msg>)
      requires Valid() && active.Some? && active.value < |ts| && IsSize(|items|)
      modifies this`ts, this`queues
      ensures Valid() && K() == InitQueue(old(View()), active.value, |items|).k
    {
      var me := active.value;
      queues := queues[me := MsgRing(Fresh(|items|), items)];
      ts := ts[me := ts[me].(cap := |items|, queue := [])];
      RingStarts(items);
      QueuesKeep(old(ts), old(queues), me, ts[me], queues[me]);
      RecordKeeps(next, first, old(K()), K(), locked, me, ts[me]);
    }

    /** _msg_receive, with a sender waiting */
    method ReceiveFromSender(block: bool)
      requires Valid() && active.Some? && active.value < |ts| && L(K(), Senders(active.value)) != []
      requires var x := L(K(), Senders(active.value))[0];
               x != active.value &&
                 L(TakeQueued(K(), active.value), Senders(active.value)) == L(K(), Senders(active.value))
      modifies this`ts, this`queues, this`next, this`first, this`lists, this`clock, this`bitcache, this`request,
        this`ret
      ensures Valid()
      ensures var r := Spec.Receive(old(View()), active.value, block);
          K() == r.k && request == r.request && ret == r.ret
    {
      ReceiveSenderIs(View(), active.value, block);
      TakeFirstSender();
    }

    method TakeFirstSender()
      requires Valid() && active.Some? && active.value < |ts| && L(K(), Senders(active.value)) != []
      requires var x := L(K(), Senders(active.value))[0];
               x != active.value &&
                 L(TakeQueued(K(), active.value), Senders(active.value)) == L(K(), Senders(active.value))
      modifies this`ts, this`queues, this`next, this`first, this`lists, this`clock, this`bitcache, this`request,
        this`ret
      ensures Valid() && ret == 1
      ensures var x := L(old(K()), Senders(active.value))[0]; var prio := SenderPrio(T(old(K()), x));
              var k1 := TakeWaiting(TakeQueued(old(K()), active.value), active.value, x,
                T(old(K()), active.value).queue != []);
              K() == SwitchedTo(k1, isr, active, BelowIdle(prio)) &&
                request == RequestedBy(k1, isr, active, old(request), BelowIdle(prio))
    {
      var me := active.value;
      var x := FirstOfList(Senders(me));
      RingTests(queues[me], ts[me].cap, ts[me].queue);
      TakeAndSwitch(me, x, Avail(queues[me].cib) != 0, SenderPrio(ts[x]));
    }

    method TakeAndSwitch(t: Tid, x: Tid, queued: bool, prio: nat)
      requires Valid() && t < |ts| && x < |ts| && x != t && L(K(), Senders(t)) != [] && L(K(), Senders(t))[0] == x
      requires L(TakeQueued(K(), t), Senders(t)) == L(K(), Senders(t)) && queued == (ts[t].queue != [])
      modifies this`ts, this`queues, this`next, this`first, this`lists, this`clock, this`bitcache, this`request,
        this`ret
      ensures Valid() && ret == 1
      ensures var k1 := TakeWaiting(TakeQueued(old(K()), t), t, x, queued);
              K() == SwitchedTo(k1, isr, active, BelowIdle(prio)) &&
                request == RequestedBy(k1, isr, active, old(request), BelowIdle(prio))
    {
      ret := 1;
      TakeBoth(t, x, queued);
      if prio < LEVELS - 1 { GoOn(Switch(prio)); }
    }

    method FirstOfList(l: ListId) returns (t: Tid)
      requires Valid() && !l.Rq? && L(K(), l) != []
      ensures t == L(K(), l)[0] && t < |ts|
    {
      assert Represents(next, Head(first, l), l, L(K(), l), Nil(l, locked));
      HeadExists(K(), l);
      t := first[l].thread;
    }

    method TakeBoth(t: Tid, x: Tid, queued: bool)
      requires Valid() && t < |ts| && x < |ts| && x != t && L(K(), Senders(t)) != [] && L(K(), Senders(t))[0] == x
      requires L(TakeQueued(K(), t), Senders(t)) == L(K(), Senders(t)) && queued == (ts[t].queue != [])
      modifies this`ts, this`queues, this`next, this`first, this`lists, this`clock, this`bitcache
      ensures Valid() && K() == TakeWaiting(TakeQueued(old(K()), t), t, x, queued)
    {
      TakeQueuedRecord(K(), t);
      RingTests(queues[t], ts[t].cap, ts[t].queue);
      TakeFromQueue(t);
      TakeFromSender(t, x, queued);
    }

    /** _msg_receive */
    method MsgReceive(block: bool)
      requires Valid() && active.Some? && active.value < |ts|
      requires L(K(), Senders(active.value)) != [] ==>
        var x := L(K(), Senders(active.value))[0];
        x != active.value && L(TakeQueued(K(), active.value), Senders(active.value)) == L(K(), Senders(active.value))
      modifies this`ts, this`queues, this`next, this`first, this`lists, this`clock, this`bitcache, this`request,
        this`ret
      ensures Valid()
      ensures var r := Spec.Receive(old(View()), active.value, block);
          K() == r.k && request == r.request && ret == r.ret
    {
      var me := active.value;
      var waiting := AnyoneOn(Senders(me));
      RingTests(queues[me], ts[me].cap, ts[me].queue);
      if waiting {
        ReceiveFromSender(block);
      } else if Avail(queues[me].cib) != 0 {
        ReceiveFromQueue(block);
      } else if block {
        ReceiveNothingIs(View(), me, block);
        WaitForMessage();
        ret := 1;
      } else {
        ret := -1;
      }
    }

    method ReceiveFromQueue(block: bool)
      requires Valid() && active.Some? && active.value < |ts|
      requires L(K(), Senders(active.value)) == [] && ts[active.value].queue != []
      modifies this`ts, this`queues, this`ret
      ensures Valid()
      ensures var r := Spec.Receive(old(View()), active.value, block);
              K() == r.k && request == r.request && ret == r.ret
    {
      assert Spec.Receive(View(), active.value, block) == View().(k := TakeQueued(K(), active.value), ret := 1);
      TakeFromQueue(active.value);
      ret := 1;
    }

    method AnyoneOn(l: ListId) returns (any: bool)
      requires Valid() && !l.Rq? && !l.MutexQ?
      ensures any <==> L(K(), l) != []
    {
      assert Represents(next, Head(first, l), l, L(K(), l), Nil(l, locked));
      any := l in first && first[l].To?;
    }

    // ------------------------------------------------------------ mbox.c

    /** _mbox_put from the test of its loop on */
    method MboxStore(b: nat, value: int, blocking: bool)
      requires Valid() && b in mboxes && (blocking && active.Some? ==> IsHead(K(), active.value))
      modifies this`ts, this`next, this`first, this`lists, this`clock, this`bitcache, this`mboxes, this`rings, this`ret
      ensures Valid()
      ensures var r := PutLoop(old(View()), b, value, blocking); K() == r.k && mboxes == r.mboxes && ret == r.ret
    {
      BoxHolds(mboxes, rings, b);
      RingTests(rings[b], mboxes[b].cap, mboxes[b].ring);
      if Full(rings[b].cib) {
        if blocking && active.Some? {
          WaitForRoom(b, value);
          ret := 0;
        } else {
          ret := 0;
        }
      } else {
        StoreIs(View(), b, value, blocking);
        PutInRing(b, Msg(activePid, value, if isr then None else active, clock));
      }
    }

    method WaitForRoom(b: nat, value: int)
      requires Valid() && b in mboxes && active.Some? && IsHead(K(), active.value)
      modifies this`ts, this`next, this`first, this`lists, this`clock, this`bitcache, this`mboxes
      ensures Valid() && K() == MboxBlock(old(K()), active.value, Writers(b), RetryPut(b, value))
      ensures mboxes == old(mboxes)[b := old(mboxes)[b].(waited := true)]
    {
      WaitOnList(Writers(b), MboxBlocked, [YieldRoundRobin, RetryPut(b, value)]);
      BoxesStay(mboxes, rings, b, mboxes[b].(waited := true));
      mboxes := mboxes[b := mboxes[b].(waited := true)];
    }

    method PutInRing(b: nat, m: Msg)
      requires Valid() && b in mboxes && |mboxes[b].ring| < mboxes[b].cap
      modifies this`clock, this`mboxes, this`rings, this`ret
      ensures Valid() && K() == Tick(old(K())) && ret == 1
      ensures mboxes == old(mboxes)[b := Stored(old(mboxes)[b], m, L(old(K()), Readers(b)) != [])]
    {
      var reader := AnyoneOn(Readers(b));
      TickClock();
      StoreMail(b, m, Stored(mboxes[b], m, reader));
      ret := 1;
    }

    /** mbox->msg_array[cib_put_unsafe(&mbox->cib)] = *msg; mb is the mailbox with the new message. */
    method StoreMail(b: nat, m: Msg, mb: Mbox)
      requires Valid() && b in mboxes && |mboxes[b].ring| < mboxes[b].cap && mb.cap == mboxes[b].cap &&
          mb.ring == mboxes[b].ring + [m]
      modifies this`mboxes, this`rings
      ensures Valid() && K() == old(K()) && mboxes == old(mboxes)[b := mb]
    {
      BoxHolds(mboxes, rings, b);
      var r := rings[b];
      RingPuts(r, mboxes[b].cap, mboxes[b].ring, m);
      rings := rings[b := MsgRing(AfterPut(r.cib), r.items[FreeSlot(r.cib) := m])];
      mboxes := mboxes[b := mb];
      BoxesKeep(old(mboxes), old(rings), b, mb, PutInto(r, m));
    }

    /** *msg = mbox->msg_array[cib_get_unsafe(&mbox->cib)] */
    method FetchMail(b: nat, to: Option<Tid>) returns (m: Msg)
      requires Valid() && b in mboxes && mboxes[b].ring != []
      modifies this`mboxes, this`rings
      ensures Valid() && K() == old(K()) && m == old(mboxes)[b].ring[0] &&
          mboxes == old(mboxes)[b := Emptied(old(mboxes)[b], to)]
    {
      BoxHolds(mboxes, rings, b);
      var r := rings[b];
      RingGets(r, mboxes[b].cap, mboxes[b].ring);
      m := r.items[ReadSlot(r.cib)];
      rings := rings[b := r.(cib := AfterGet(r.cib))];
      mboxes := mboxes[b := Emptied(mboxes[b], to)];
      BoxesKeep(old(mboxes), old(rings), b, mboxes[b], GetFrom(r));
    }

    /** _mbox_put with a reader waiting */
    method MboxHandOver(b: nat, value: int, blocking: bool)
      requires Valid() && b in mboxes && L(K(), Readers(b)) != []
      modifies this`ts, this`next, this`first, this`lists, this`clock, this`bitcache, this`mboxes, this`request,
        this`ret
      ensures Valid()
      ensures var r := Spec.MboxPut(old(View()), b, value, blocking);
              K() == r.k && mboxes == r.mboxes && request == r.request && ret == r.ret
    {
      HandOverIs(View(), b, value, blocking);
      PassOn(b, Msg(0, value, if isr then None else active, clock));
    }

    method PassOn(b: nat, m: Msg)
      requires Valid() && b in mboxes && L(K(), Readers(b)) != []
      modifies this`ts, this`next, this`first, this`lists, this`clock, this`bitcache, this`mboxes, this`request,
        this`ret
      ensures Valid() && ret == 1
      ensures mboxes == old(mboxes)[b := Passed(old(mboxes)[b], m, old(L(K(), Readers(b))[0]))]
      ensures var k1 := HandOver(old(K()), b, m); var act := Switch(T(old(K()), old(L(K(), Readers(b)))[0]).prio);
              K() == GoneOn(k1, isr, active, act) && request == Requested(k1, isr, active, old(request), act)
    {
      var t := FirstOfList(Readers(b));
      BoxesStay(mboxes, rings, b, Passed(mboxes[b], m, t));
      mboxes := mboxes[b := Passed(mboxes[b], m, t)];
      ret := 1;
      CopyAndSwitch(b, m);
    }

    method CopyAndSwitch(b: nat, m: Msg)
      requires Valid() && L(K(), Readers(b)) != []
      modifies this`ts, this`next, this`first, this`lists, this`clock, this`bitcache, this`request
      ensures Valid()
      ensures var k1 := HandOver(old(K()), b, m); var act := Switch(T(old(K()), old(L(K(), Readers(b)))[0]).prio);
              K() == GoneOn(k1, isr, active, act) && request == Requested(k1, isr, active, old(request), act)
    {
      var t := FirstOfList(Readers(b));
      var prio := ts[t].prio;
      CopyToReader(b, m);
      GoOn(Switch(prio));
    }

    method CopyToReader(b: nat, m: Msg)
      requires Valid() && L(K(), Readers(b)) != []
      modifies this`ts, this`next, this`first, this`lists, this`clock, this`bitcache
      ensures Valid() && K() == HandOver(old(K()), b, m)
    {
      HeadExists(K(), Readers(b));
      TickClock();
      var head := ListRemoveHead(Readers(b));
      var t := head.value;
      PutRecord(t, ts[t].(wait := Buffer(m), mail := Some(m)), locked);
      SchedSetStatus(t, Pending, locked);
    }

    /** _mbox_put */
    method MboxPutCall(b: nat, value: int, blocking: bool)
      requires Valid() && b in mboxes && (blocking && active.Some? ==> IsHead(K(), active.value))
      modifies this`ts, this`next, this`first, this`lists, this`clock, this`bitcache, this`mboxes, this`rings,
        this`request, this`ret
      ensures Valid()
      ensures var r := Spec.MboxPut(old(View()), b, value, blocking);
              K() == r.k && mboxes == r.mboxes && request == r.request && ret == r.ret
    {
      var reader := AnyoneOn(Readers(b));
      if reader {
        MboxHandOver(b, value, blocking);
      } else {
        PutLoopIs(View(), b, value, blocking);
        MboxStore(b, value, blocking);
      }
    }

    /** _mbox_get, of a message in the ring */
    method MboxDraw(b: nat, blocking: bool)
      requires Valid() && b in mboxes && mboxes[b].ring != []
      requires HeadBlocked(K(), Writers(b))
      modifies this`ts, this`next, this`first, this`lists, this`clock, this`bitcache, this`mboxes, this`rings,
        this`request, this`ret, this`mailRet
      ensures Valid()
      ensures var r := Spec.MboxGet(old(View()), b, blocking);
              K() == r.k && mboxes == r.mboxes && request == r.request && ret == r.ret && mailRet == r.mailRet
    {
      DrawIs(View(), b, blocking);
      FetchAndWake(b);
      ret := 1;
    }

    method FetchAndWake(b: nat)
      requires Valid() && b in mboxes && mboxes[b].ring != []
      requires HeadBlocked(K(), Writers(b))
      modifies this`ts, this`next, this`first, this`lists, this`clock, this`bitcache, this`mboxes, this`rings,
        this`request, this`mailRet
      ensures Valid() && mailRet == old(mboxes)[b].ring[0]
      ensures mboxes == old(mboxes)[b := Emptied(old(mboxes)[b], if isr then None else active)]
      ensures var k1 := WakeHead(old(K()), Writers(b)); var prio := FirstPrio(k1, old(L(K(), Writers(b))));
              K() == SwitchedTo(k1, isr, active, prio) && request == RequestedBy(k1, isr, active, old(request), prio)
    {
      mailRet := FetchMail(b, if isr then None else active);
      WakeWriter(b);
    }

    method WakeWriter(b: nat)
      requires Valid() && HeadBlocked(K(), Writers(b))
      modifies this`ts, this`next, this`first, this`lists, this`clock, this`bitcache, this`request
      ensures Valid()
      ensures var k1 := WakeHead(old(K()), Writers(b)); var prio := FirstPrio(k1, old(L(K(), Writers(b))));
              K() == SwitchedTo(k1, isr, active, prio) && request == RequestedBy(k1, isr, active, old(request), prio)
    {
      HeadExists(K(), Writers(b));
      var head := WakeFirst(Writers(b));
      if head.Some? { GoOn(Switch(ts[head.value].prio)); }
    }

    /** _mbox_get of an empty ring */
    method MboxGetEmpty(b: nat, blocking: bool)
      requires Valid() && b in mboxes && mboxes[b].ring == [] &&
          (blocking && active.Some? ==> IsHead(K(), active.value))
      modifies this`ts, this`next, this`first, this`lists, this`clock, this`bitcache, this`ret
      ensures Valid()
      ensures var r := Spec.MboxGet(old(View()), b, blocking);
              K() == r.k && mboxes == r.mboxes && request == r.request && ret == r.ret && mailRet == r.mailRet
    {
      if blocking && active.Some? {
        WaitForMail(b);
        ret := 1;
      } else {
        ret := 0;
      }
    }

    method WaitForMail(b: nat)
      requires Valid() && active.Some? && IsHead(K(), active.value)
      modifies this`ts, this`next, this`first, this`lists, this`clock, this`bitcache
      ensures Valid()
      ensures K() == MboxBlock(Park(old(K()), active.value, Buffer(NO_MSG)), active.value, Readers(b), GotMail(b))
    {
      PutRecord(active.value, ts[active.value].(wait := Buffer(NO_MSG), answer := None, mail := None), locked);
      WaitOnList(Readers(b), MboxBlocked, [YieldRoundRobin, GotMail(b)]);
    }

    /** mbox_init; the array is the caller's. */
    method MboxInit(b: nat, items: seq<Msg>)
      requires Valid() && IsSize(|items|)
      modifies this`mboxes, this`rings
      ensures Valid() && mboxes == InitMbox(old(View()), b, |items|).mboxes
    {
      rings := rings[b := MsgRing(Fresh(|items|), items)];
      mboxes := mboxes[b := Mbox(|items|, [], [], [], [], false, false)];
      RingStarts(items);
      BoxesKeep(old(mboxes), old(rings), b, mboxes[b], rings[b]);
    }

    /** _mbox_get */
    method MboxGetCall(b: nat, blocking: bool)
      requires Valid() && b in mboxes && (blocking && active.Some? ==> IsHead(K(), active.value))
      requires HeadBlocked(K(), Writers(b))
      modifies this`ts, this`next, this`first, this`lists, this`clock, this`bitcache, this`mboxes, this`rings,
        this`request, this`ret, this`mailRet
      ensures Valid()
      ensures var r := Spec.MboxGet(old(View()), b, blocking);
              K() == r.k && mboxes == r.mboxes && request == r.request && ret == r.ret && mailRet == r.mailRet
    {
      BoxHolds(mboxes, rings, b);
      RingTests(rings[b], mboxes[b].cap, mboxes[b].ring);
      if Avail(rings[b].cib) != 0 {
        MboxDraw(b, blocking);
      } else {
        MboxGetEmpty(b, blocking);
      }
    }

    // ------------------------------------------------------------ what follows irq_restore

    /** The next action of the call that the active thread is in. */
    method PopAct() returns (act: Act)
      requires Valid() && active.Some? && active.value < |ts| && ts[active.value].todo != []
      modifies this`ts
      ensures act == old(ts[active.value]).todo[0] && Valid()
      ensures View() == old(View()).(k := SetTodo(old(K()), active.value, old(ts[active.value]).todo[1..]))
    {
      var me := active.value;
      act := ts[me].todo[0];
      PutRecord(me, ts[me].(todo := ts[me].todo[1..]), locked);
    }

    /** thread_yield_higher with interrupts enabled */
    method YieldHigher()
      requires Valid() && active.Some? && active.value < |ts| && ts[active.value].todo != [] &&
          ts[active.value].todo[0].Yield?
      modifies this`ts, this`active, this`activePid, this`request, this`idle
      ensures Valid()
      ensures var r := Resume(old(View()), old(active.value));
              K() == r.k && active == r.active && activePid == r.activePid && request == r.request && idle == r.idle
    {
      var act := PopAct();
      SchedRunNow();
    }

    /** An interrupt handler starts. */
    method EnterIsr()
      requires Valid()
      modifies this`isr
      ensures Valid() && isr
    {
      isr := true;
    }

    /** The end of an interrupt handler: the switch that it requested, or the end of the idle loop. */
    method ExitIsr()
      requires Valid()
      modifies this`isr, this`ts, this`active, this`activePid, this`request, this`idle
      ensures Valid() && !isr
      ensures var r := LeaveIsr(old(View()));
              K() == r.k && active == r.active && activePid == r.activePid && request == r.request && idle == r.idle
    {
      isr := false;
      RunnableIs(View(), clz, bitcache);
      if if idle then bitcache != 0 else request { SchedRunNow(); }
    }

    /** The end of _wait in mbox.c */
    method YieldAfterWait()
      requires Valid() && !isr && active.Some? && active.value < |ts| && ts[active.value].todo != [] &&
          ts[active.value].todo[0].YieldRoundRobin?
      modifies this`ts, this`first, this`lists, this`clock, this`request
      ensures Valid()
      ensures var r := Resume(old(View()), active.value); K() == r.k && request == r.request
    {
      var act := PopAct();
      ThreadYield();
    }

    /** The tests that decide on a switch: in sched_switch, in _msg_send after queueing, and in
        sched_change_priority. */
    method TestForSwitch()
      requires Valid() && active.Some? && active.value < |ts| && ts[active.value].todo != [] &&
          IsTest(ts[active.value].todo[0])
      modifies this`ts
      ensures Valid() && K() == Resume(old(View()), active.value).k
    {
      ResumeTestIs(View(), active.value);
      var due := TestSays(ts[active.value].todo[0]);
      var act := PopAct();
      if due { OweActs(active.value, [Yield]); }
    }

    predicate TestSays(act: Act)
      reads this
    {
      match act
      case Switch(p) => SwitchDue(p)
      case SwitchIfRequested => request || (active.Some? && Record(active.value).status == ReplyBlocked)
      case CheckPriority(t, p) =>
        active == Some(t) || (active.Some? && Record(active.value).prio > p && OnRunqueue(Record(t).status))
      case _ => false
    }

    /** The mutex_lock that ends cond_wait */
    method RelockMutex()
      requires Valid() && active.Some? && IsHead(K(), active.value) && ts[active.value].todo != [] &&
          ts[active.value].todo[0].Relock?
      requires var m := ts[active.value].todo[0].mutex; L(K(), MutexQ(m)) != [] ==> m in locked
      modifies this`ts, this`next, this`first, this`lists, this`clock, this`bitcache, this`locked, this`grants, this`ret
      ensures Valid()
      ensures var r := Resume(old(View()), active.value);
          K() == r.k && locked == r.locked && grants == r.grants && ret == r.ret
    {
      PopKeepsLists(K(), active.value);
      ResumeRelockIs(View(), active.value);
      var act := PopAct();
      MutexLockInternal(act.mutex, true);
    }

    /** The end of mutex_lock_cancelable */
    method EndCancelable()
      requires Valid() && active.Some? && active.value < |ts| && ts[active.value].todo != [] &&
          ts[active.value].todo[0].CheckCancel?
      modifies this`ts, this`ret
      ensures Valid()
      ensures var r := Resume(old(View()), active.value); K() == r.k && ret == r.ret
    {
      var act := PopAct();
      ret := if act.id in cancels && cancels[act.id].cancelled then ECANCELED else 0;
    }

    /** The loop of _mbox_put goes round. */
    method RetryMboxPut()
      requires Valid() && active.Some? && IsHead(K(), active.value) && ts[active.value].todo != [] &&
          ts[active.value].todo[0].RetryPut?
      requires ts[active.value].todo[0].mbox in mboxes
      modifies this`ts, this`next, this`first, this`lists, this`clock, this`bitcache, this`mboxes, this`rings, this`ret
      ensures Valid()
      ensures var r := Resume(old(View()), active.value); K() == r.k && mboxes == r.mboxes && ret == r.ret
    {
      PopKeepsLists(K(), active.value);
      var act := PopAct();
      MboxStore(act.mbox, act.value, true);
    }

    /** The flags that a wait has waited for are cleared. */
    method ClearAwaited()
      requires Valid() && active.Some? && active.value < |ts| && ts[active.value].todo != []
      requires var act := ts[active.value].todo[0]; act.ClearAny? || act.ClearAll? || act.ClearOne?
      modifies this`ts, this`flagsRet
      ensures Valid()
      ensures var r := Resume(old(View()), active.value); K() == r.k && flagsRet == r.flagsRet
    {
      var act := PopAct();
      ThreadFlagsClear(if act.ClearOne? then act.bit else act.mask);
    }

    /** thread_flags_wait_one reads the flags and chooses one. */
    method ChooseFlag()
      requires Valid() && active.Some? && active.value < |ts| && ts[active.value].todo != [] &&
          ts[active.value].todo[0].ReadOne?
      modifies this`ts
      ensures Valid() && K() == Resume(old(View()), active.value).k
    {
      var flags := ts[active.value].flags;
      var act := PopAct();
      var bit := LowestOf(flags * act.mask);
      OweActs(active.value, [ClearOne(bit)]);
    }
  }
}
