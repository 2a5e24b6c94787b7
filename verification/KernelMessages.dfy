/** Sending, receiving and replying keep the invariants of KernelInv. */
module KernelMessages {
  import opened KernelTypes
  import opened KernelSpec
  import opened KernelLinks
  import opened KernelInv
  import opened KernelCore

  // ---------------------------------------------------------------- records that change by themselves

  /** A record changes in ways that concern neither links nor messages. */
  lemma RecordOk(k: Core, t: Tid, y: Tcb)
    requires CoreOk(k) && t < |k.ts| && SameLink(T(k, t), y) && OwnOk(t, y) && SameMessages(T(k, t), y)
    ensures CoreOk(SetT(k, t, y)) && (y.pid == T(k, t).pid ==> SameLives(k, SetT(k, t, y)))
  {
    UpdateKeepsLinks(k, t, y, None);
    OneThread(k, SetT(k, t, y), t);
  }

  lemma TickOk(k: Core)
    requires CoreOk(k)
    ensures CoreOk(Tick(k)) && SameLives(k, Tick(k))
  {
    var k' := Tick(k);
    TickKeepsLinks(k, None);
    assert forall t: Tid :: T(k', t) == T(k, t);
    assert forall l :: L(k', l) == L(k, l);
    QuietKeepsFlow(k, k');
  }

  lemma MarkKeepsOwn(t: Tid, x: Tcb)
    requires OwnOk(t, x) && x.status == ReplyBlocked && x.loc == None
    ensures OwnOk(t, x.(answerable := true))
  {
  }

  lemma MarkAnswerableOk(k: Core, m: Msg)
    requires CoreOk(k)
    ensures CoreOk(MarkAnswerable(k, m)) && SameLives(k, MarkAnswerable(k, m))
  {
    if m.from.Some? && Asks(T(k, m.from.value), m) && m.from.value < |k.ts| {
      var t := m.from.value;
      assert OwnOk(t, T(k, t));
      MarkKeepsOwn(t, T(k, t));
      RecordOk(k, t, T(k, t).(answerable := true));
    }
  }

  // ---------------------------------------------------------------- queueing and direct copy

  /** One more message for t comes last, and is the last one sent to t. */
  lemma FlowGrows(k: Core, k': Core, t: Tid, m: Msg)
    requires FlowOk(k, t) && Accepted(k', t) == Accepted(k, t) + [m] && T(k', t).sent == T(k, t).sent + [m]
    ensures FlowOk(k', t)
  {
    forall x ensures From(x, Accepted(k', t)) == From(x, T(k', t).sent) {
      FromAppend(x, Accepted(k, t), [m]);
      FromAppend(x, T(k, t).sent, [m]);
      assert From(x, Accepted(k, t)) == From(x, T(k, t).sent);
    }
  }

  /** Only what concerns thread t as a receiver changes. */
  lemma OneReceiver(k: Core, k': Core, t: Tid)
    requires CoreOk(k) && t < |k.ts| && Links(k') && OnlyThread(k, k', t) && SameSenders(k, k')
    requires OwnOk(t, T(k', t)) && RendezvousOk(k', t) && FlowOk(k', t)
    requires T(k, t).loc.Some? && T(k, t).loc.value.Senders? ==> T(k', t).wait == T(k, t).wait
    ensures CoreOk(k')
  {
    forall u: Tid | u < |k'.ts| && u != t ensures RendezvousOk(k', u) && FlowOk(k', u) {
      assert RendezvousOk(k, u) && FlowOk(k, u) && ListOk(k, Senders(u));
      assert L(k', Senders(u)) == L(k, Senders(u));
      SameWaiting(k, k', L(k, Senders(u)));
      assert Accepted(k', u) == Accepted(k, u);
    }
  }

  lemma DeliverEffect(k: Core, t: Tid, m: Msg)
    requires t < |k.ts| && T(k, t).status == ReceiveBlocked
    ensures var x := T(k, t); var k' := Deliver(k, t, m);
            && OnlyThread(k, k', t) && SameSenders(k, k')
            && T(k', t) == Linked(x, Rq(x.prio), k.clock).(
                 status := Pending, wait := Buffer(m), sent := x.sent + [m], got := x.got + [m])
  {
    var x := T(k, t);
    WakeEffect(SetT(k, t, x.(wait := Buffer(m), sent := x.sent + [m], got := x.got + [m])), t, Pending);
  }

  lemma DeliverLinks(k: Core, t: Tid, m: Msg)
    requires Links(k) && t < |k.ts| && T(k, t).status == ReceiveBlocked
    ensures Links(Deliver(k, t, m))
  {
    var x := T(k, t);
    assert StatusFits(x);
    var y := x.(wait := Buffer(m), sent := x.sent + [m], got := x.got + [m]);
    UpdateKeepsLinks(k, t, y, None);
    WakeLinks(SetT(k, t, y), t, Pending);
  }

  lemma DeliverFlow(k: Core, t: Tid, m: Msg)
    requires CoreOk(k) && t < |k.ts| && T(k, t).status == ReceiveBlocked
    ensures FlowOk(Deliver(k, t, m), t) && RendezvousOk(Deliver(k, t, m), t)
  {
    var k' := Deliver(k, t, m);
    DeliverEffect(k, t, m);
    assert OwnOk(t, T(k, t)) && RendezvousOk(k, t) && FlowOk(k, t);
    assert L(k', Senders(t)) == [];
    assert Accepted(k', t) == Accepted(k, t) + [m];
    FlowGrows(k, k', t, m);
  }

  lemma DeliverOk(k: Core, t: Tid, m: Msg)
    requires CoreOk(k) && t < |k.ts| && T(k, t).status == ReceiveBlocked
    ensures CoreOk(Deliver(k, t, m)) && SameLives(k, Deliver(k, t, m))
  {
    var x := T(k, t);
    assert StatusFits(x) && OwnOk(t, x);
    DeliverLinks(k, t, m);
    DeliverFlow(k, t, m);
    DeliverEffect(k, t, m);
    DeliveredOwn(x, m);
    WokenOwn(t, x.(wait := Buffer(m), sent := x.sent + [m], got := x.got + [m]), T(Deliver(k, t, m), t));
    OneReceiver(k, Deliver(k, t, m), t);
  }

  lemma DeliveredOwn(x: Tcb, m: Msg)
    requires x.todo != [] && End(x) == Received
    ensures var y := x.(wait := Buffer(m), sent := x.sent + [m], got := x.got + [m]);
            y.todo != [] ==> Fulfilled(y, End(y))
  {
  }

  lemma QueuedOk(k: Core, t: Tid, m: Msg)
    requires CoreOk(k) && t < |k.ts| && T(k, t).status != ReceiveBlocked && !QueueFull(T(k, t))
    ensures var k' := SetT(k, t, Queued(T(k, t), m)); CoreOk(k') && SameLives(k, k')
  {
    var x := T(k, t);
    var k' := SetT(k, t, Queued(x, m));
    assert OwnOk(t, x) && RendezvousOk(k, t) && FlowOk(k, t);
    UpdateKeepsLinks(k, t, Queued(x, m), None);
    assert Accepted(k', t) == Accepted(k, t) + [m];
    FlowGrows(k, k', t, m);
    OneReceiver(k, k', t);
  }

  // ---------------------------------------------------------------- blocked senders

  lemma WaitingAppend(k: Core, a: seq<Tid>, b: seq<Tid>)
    ensures Waiting(k, a + b) == Waiting(k, a) + Waiting(k, b)
  {
    assert forall i :: 0 <= i < |a + b| ==> (a + b)[i] == if i < |a| then a[i] else b[i - |a|];
  }

  /** A message from x that joins messages none of which is from x. */
  lemma FromJoins(x: Option<Tid>, a: seq<Msg>, m: Msg, b: seq<Msg>)
    requires forall i :: 0 <= i < |b| ==> b[i].from != m.from
    ensures From(x, a + [m] + b) == From(x, a + b) + (if m.from == x then [m] else [])
  {
    FromAppend(x, a + [m], b);
    FromAppend(x, a, [m]);
    FromAppend(x, a, b);
    if m.from == x {
      NoneFrom(x, b);
    }
  }

  lemma NoneFrom(x: Option<Tid>, b: seq<Msg>)
    requires forall i :: 0 <= i < |b| ==> b[i].from != x
    ensures From(x, b) == []
  {
  }

  /** Senders that wait for t carry their own messages. */
  lemma WaitersCarryOwn(k: Core, t: Tid, i: nat, e: Option<Tid>)
    requires LinksBut(k, e) && Own(k) && i < |L(k, Senders(t))| && e != Some(L(k, Senders(t))[i])
    ensures var x := L(k, Senders(t))[i];
            && x < |k.ts| && T(k, x).loc == Some(Senders(t))
            && (T(k, x).status == SendBlocked || T(k, x).status == ReplyBlocked)
            && T(k, x).wait.Buffer? && T(k, x).wait.msg.from == Some(x)
  {
    var x := L(k, Senders(t))[i];
    assert ListOk(k, Senders(t));
    assert StatusFits(T(k, x)) && OwnOk(x, T(k, x));
  }

  lemma OthersWait(k: Core, a: Tid, t: Tid, p: nat)
    requires LinksBut(k, Some(a)) && Own(k) && p <= |L(k, Senders(t))| && a !in L(k, Senders(t))
    ensures var w := Waiting(k, L(k, Senders(t))[p..]); forall i :: 0 <= i < |w| ==> w[i].from != Some(a)
  {
    var q := L(k, Senders(t));
    var w := Waiting(k, q[p..]);
    forall i | 0 <= i < |w| ensures w[i].from != Some(a) {
      assert q[p..][i] == q[p + i];
      WaitersCarryOwn(k, t, p + i, Some(a));
    }
  }

  /** The flow to t after sender a joined the senders waiting for t. */
  lemma SenderJoins(k: Core, k': Core, a: Tid, t: Tid, m: Msg, p: nat)
    requires LinksBut(k, Some(a)) && Own(k) && FlowOk(k, t) && p <= |L(k, Senders(t))|
    requires a !in L(k, Senders(t)) && m.from == Some(a)
    requires L(k', Senders(t)) == L(k, Senders(t))[..p] + [a] + L(k, Senders(t))[p..]
    requires forall i {:trigger L(k, Senders(t))[i]} :: 0 <= i < |L(k, Senders(t))| ==>
      T(k', L(k, Senders(t))[i]).wait == T(k, L(k, Senders(t))[i]).wait
    requires T(k', t).got == T(k, t).got && T(k', t).queue == T(k, t).queue
    requires T(k', t).sent == T(k, t).sent + [m] && T(k', a).wait == Buffer(m) && a != t
    ensures FlowOk(k', t)
  {
    var q := L(k, Senders(t));
    var before, after := Waiting(k, q[..p]), Waiting(k, q[p..]);
    WaitersSplit(k, k', q, p, a);
    OthersWait(k, a, t, p);
    var front := T(k, t).got + T(k, t).queue;
    Associate(front, before, m, after);
    FlowInserts(front + before, m, after, T(k, t).sent, Accepted(k, t), Accepted(k', t));
  }

  lemma Associate(a: seq<Msg>, b: seq<Msg>, m: Msg, c: seq<Msg>)
    ensures a + (b + c) == a + b + c && a + (b + [m] + c) == a + b + [m] + c
  {
  }

  lemma FlowInserts(front: seq<Msg>, m: Msg, after: seq<Msg>, sent: seq<Msg>, was: seq<Msg>, now: seq<Msg>)
    requires was == front + after && now == front + [m] + after
    requires forall x :: From(x, was) == From(x, sent)
    requires forall i :: 0 <= i < |after| ==> after[i].from != m.from
    ensures forall x :: From(x, now) == From(x, sent + [m])
  {
    forall x ensures From(x, now) == From(x, sent + [m]) {
      FromJoins(x, front, m, after);
      FromAppend(x, sent, [m]);
    }
  }

  lemma WaitersSplit(k: Core, k': Core, q: seq<Tid>, p: nat, a: Tid)
    requires p <= |q|
    requires forall i {:trigger q[i]} :: 0 <= i < |q| ==> T(k', q[i]).wait == T(k, q[i]).wait
    ensures Waiting(k, q) == Waiting(k, q[..p]) + Waiting(k, q[p..])
    ensures Waiting(k', q[..p] + [a] + q[p..])
         == Waiting(k, q[..p]) + [Content(T(k', a).wait)] + Waiting(k, q[p..])
  {
    SameWaiting(k, k', q[..p]);
    SameWaiting(k, k', q[p..]);
    WaitingAppend(k', q[..p] + [a], q[p..]);
    WaitingAppend(k', q[..p], [a]);
    assert Waiting(k', [a]) == [Content(T(k', a).wait)];
    WaitingAppend(k, q[..p], q[p..]);
    assert q == q[..p] + q[p..];
  }

  /** The thread has just gone send or reply blocked, and is about to join the senders of t. */
  predicate JoinsSenders(k: Core, a: Tid, t: Tid, m: Msg) {
    && a < |k.ts| && t < |k.ts| && a != t
    && (T(k, a).status == SendBlocked || T(k, a).status == ReplyBlocked) && T(k, a).loc == None
    && T(k, a).wait == Buffer(m) && m.from == Some(a)
    && (T(k, a).status == ReplyBlocked ==> !T(k, a).answerable)
    && QueueFull(T(k, t)) && T(k, t).status != ReceiveBlocked
  }

  function Join(k: Core, a: Tid, t: Tid, m: Msg): Core {
    var k1 := AddToList(k, Senders(t), a);
    SetT(k1, t, T(k1, t).(sent := T(k1, t).sent + [m]))
  }

  lemma JoinLinks(k: Core, a: Tid, t: Tid, m: Msg)
    requires LinksBut(k, Some(a)) && JoinsSenders(k, a, t, m)
    ensures Links(Join(k, a, t, m))
  {
    AddToListLinks(k, Senders(t), a);
    var k1 := AddToList(k, Senders(t), a);
    UpdateKeepsLinks(k1, t, T(k1, t).(sent := T(k1, t).sent + [m]), None);
  }

  lemma JoinEffect(k: Core, a: Tid, t: Tid, m: Msg)
    requires JoinsSenders(k, a, t, m)
    ensures var k' := Join(k, a, t, m);
            && |k'.ts| == |k.ts|
            && (forall u: Tid {:trigger T(k', u)} :: u != a && u != t ==> T(k', u) == T(k, u))
            && T(k', a) == Linked(T(k, a), Senders(t), k.clock)
            && T(k', t) == T(k, t).(sent := T(k, t).sent + [m])
            && (forall u: Tid {:trigger L(k', Senders(u))} :: u != t ==> L(k', Senders(u)) == L(k, Senders(u)))
            && L(k', Senders(t)) == Insert(k, L(k, Senders(t)), a)
  {
  }

  lemma JoinOthers(k: Core, a: Tid, t: Tid, m: Msg, u: Tid)
    requires JoinsSenders(k, a, t, m) && RendezvousOk(k, u) && FlowOk(k, u) && u != t && u < |k.ts|
    ensures RendezvousOk(Join(k, a, t, m), u) && FlowOk(Join(k, a, t, m), u)
  {
    var k' := Join(k, a, t, m);
    JoinEffect(k, a, t, m);
    assert L(k', Senders(u)) == L(k, Senders(u));
    SameWaiting(k, k', L(k, Senders(u)));
    assert Accepted(k', u) == Accepted(k, u);
  }

  lemma JoinTarget(k: Core, a: Tid, t: Tid, m: Msg)
    requires LinksBut(k, Some(a)) && Own(k) && FlowOk(k, t) && JoinsSenders(k, a, t, m)
    ensures RendezvousOk(Join(k, a, t, m), t) && FlowOk(Join(k, a, t, m), t)
  {
    JoinEffect(k, a, t, m);
    NotListed(k, Senders(t), a, Some(a));
    InsertIs(k, L(k, Senders(t)), a);
    SenderJoins(k, Join(k, a, t, m), a, t, m, Position(k, L(k, Senders(t)), a));
  }

  lemma JoinOk(k: Core, a: Tid, t: Tid, m: Msg)
    requires LinksBut(k, Some(a)) && Own(k) && Rendezvous(k) && Flow(k) && JoinsSenders(k, a, t, m)
    ensures CoreOk(Join(k, a, t, m)) && SameLives(k, Join(k, a, t, m))
  {
    var k' := Join(k, a, t, m);
    JoinLinks(k, a, t, m);
    forall u: Tid | u < |k.ts| ensures RendezvousOk(k', u) && FlowOk(k', u) {
      assert RendezvousOk(k, u) && FlowOk(k, u);
      if u == t { JoinTarget(k, a, t, m); } else { JoinOthers(k, a, t, m, u); }
    }
    JoinLives(k, a, t, m);
  }

  lemma JoinLives(k: Core, a: Tid, t: Tid, m: Msg)
    requires LinksBut(k, Some(a)) && Own(k) && JoinsSenders(k, a, t, m)
    ensures Own(Join(k, a, t, m)) && SameLives(k, Join(k, a, t, m))
  {
    JoinEffect(k, a, t, m);
    assert OwnOk(a, T(k, a)) && OwnOk(t, T(k, t));
  }

  lemma GoSendBlocked(k: Core, a: Tid, m: Msg)
    requires CoreOk(k) && IsHead(k, a) && m.from == Some(a) && T(k, a).todo == []
    ensures var k1 := SetStatus(Park(k, a, Buffer(m)), a, SendBlocked);
            && LinksBut(k1, Some(a)) && Own(k1) && Rendezvous(k1) && Flow(k1) && SameLives(k, k1)
            && OnlyThread(k, k1, a)
            && T(k1, a) == T(k, a).(status := SendBlocked, loc := None, wait := Buffer(m), answer := None, mail := None)
  {
    var x := T(k, a);
    var y := x.(status := SendBlocked, loc := None, wait := Buffer(m), answer := None, mail := None);
    assert OwnOk(a, x) && StatusFits(x);
    ParkCommutes(k, a, Buffer(m), SendBlocked);
    BlockEffect(k, a, SendBlocked);
    BlockLinks(k, a, SendBlocked);
    UpdateKeepsLinks(SetStatus(k, a, SendBlocked), a, y, Some(a));
    QuietKeepsFlow(k, SetT(SetStatus(k, a, SendBlocked), a, y));
  }

  lemma SendBlockOk(k: Core, a: Tid, t: Tid, m: Msg)
    requires CoreOk(k) && IsHead(k, a) && t < |k.ts| && a != t && m.from == Some(a)
    requires QueueFull(T(k, t)) && T(k, t).status != ReceiveBlocked && T(k, a).todo == []
    ensures CoreOk(SendBlock(k, a, t, m)) && SameLives(k, SendBlock(k, a, t, m))
  {
    GoSendBlocked(k, a, m);
    JoinOk(SetStatus(Park(k, a, Buffer(m)), a, SendBlocked), a, t, m);
  }

  /** A thread that already waits for a reply joins the senders with its request. */
  lemma AskBlockOk(k: Core, a: Tid, t: Tid, m: Msg)
    requires CoreOk(k) && t < |k.ts| && JoinsSenders(k, a, t, m) && T(k, a).status == ReplyBlocked &&
        T(k, a).answer == None && T(k, a).mail == None
    ensures CoreOk(SendBlock(k, a, t, m)) && SameLives(k, SendBlock(k, a, t, m))
  {
    assert Park(k, a, Buffer(m)) == k by { assert T(Park(k, a, Buffer(m)), a) == T(k, a); }
    assert SetStatus(k, a, ReplyBlocked) == k;
    JoinOk(k, a, t, m);
  }

  // ---------------------------------------------------------------- request and reply

  lemma AskOk(k: Core, a: Tid, m: Msg)
    requires CoreOk(k) && MayBlock(k, a) && m.from == Some(a)
    ensures var k' := Owe(Ask(k, a, m), a, [Replied]);
            && CoreOk(k') && SameLives(k, k') && OnlyThread(k, k', a)
            && T(k', a) == T(k, a).(status := ReplyBlocked, loc := None, wait := Buffer(m), answerable := false,
                                    answer := None, mail := None, todo := [Replied])
  {
    var x := T(k, a);
    var y := x.(status := ReplyBlocked, loc := None, wait := Buffer(m), answerable := false, answer := None,
      mail := None,
                todo := [Replied]);
    assert OwnOk(a, x) && StatusFits(x);
    TickOk(k);
    BlockEffect(Tick(k), a, ReplyBlocked);
    LeaveOk(Tick(k), a, ReplyBlocked, y);
    assert [Replied] + x.todo == [Replied];
    assert Owe(Ask(k, a, m), a, [Replied]) == SetT(SetStatus(Tick(k), a, ReplyBlocked), a, y);
  }

  lemma AnswerOk(k: Core, t: Tid, reply: Msg)
    requires CoreOk(k) && t < |k.ts| && T(k, t).status == ReplyBlocked && T(k, t).answerable
    ensures CoreOk(Answer(k, t, reply)) && SameLives(k, Answer(k, t, reply))
  {
    var x := T(k, t);
    var y := x.(wait := Buffer(reply), answer := Some(reply));
    assert OwnOk(t, x) && StatusFits(x);
    UpdateKeepsLinks(k, t, y, None);
    CompleteAndWake(k, SetT(k, t, y), t, Pending);
    WakeEffect(SetT(k, t, y), t, Pending);
  }

  // ---------------------------------------------------------------- receiving

  /** The message a is about to take off its queue has been received. */
  function Taken(tcb: Tcb): Tcb
    requires tcb.queue != []
  {
    tcb.(queue := tcb.queue[1..], got := tcb.got + [tcb.queue[0]])
  }

  /** What holds while a slot of the queue of a is free although senders may wait. */
  ghost predicate Draining(k: Core, a: Tid) {
    && Links(k) && Own(k) && Flow(k)
    && forall t: Tid :: t < |k.ts| && t != a ==> RendezvousOk(k, t)
  }

  lemma TakenFlow(k: Core, a: Tid)
    requires a < |k.ts| && T(k, a).queue != [] && FlowOk(k, a) && ListOk(k, Senders(a))
    requires T(k, a).loc.Some? ==> T(k, a).loc.value.Rq?
    ensures FlowOk(SetT(k, a, Taken(T(k, a))), a)
  {
    var x := T(k, a);
    var k1 := SetT(k, a, Taken(x));
    SameWaiting(k, k1, L(k, Senders(a)));
    assert x.got + [x.queue[0]] + x.queue[1..] == x.got + x.queue;
    assert Accepted(k1, a) == Accepted(k, a);
  }

  lemma OtherFlow(k: Core, k': Core, t: Tid)
    requires FlowOk(k, t) && L(k', Senders(t)) == L(k, Senders(t))
    requires T(k', t).got == T(k, t).got && T(k', t).queue == T(k, t).queue && T(k', t).sent == T(k, t).sent
    requires forall i {:trigger L(k, Senders(t))[i]} :: 0 <= i < |L(k, Senders(t))| ==>
      T(k', L(k, Senders(t))[i]).wait == T(k, L(k, Senders(t))[i]).wait
    ensures FlowOk(k', t)
  {
    SameWaiting(k, k', L(k, Senders(t)));
    assert Accepted(k', t) == Accepted(k, t);
  }

  lemma TakenDraining(k: Core, a: Tid)
    requires CoreOk(k) && MayBlock(k, a) && T(k, a).queue != []
    ensures Draining(SetT(k, a, Taken(T(k, a))), a)
  {
    var x := T(k, a);
    var k1 := SetT(k, a, Taken(x));
    assert OwnOk(a, x) && StatusFits(x) && FlowOk(k, a) && ListOk(k, Senders(a));
    UpdateKeepsLinks(k, a, Taken(x), None);
    TakenFlow(k, a);
    forall t: Tid | t < |k.ts| && t != a ensures RendezvousOk(k1, t) && FlowOk(k1, t) {
      assert RendezvousOk(k, t) && FlowOk(k, t);
      OtherFlow(k, k1, t);
    }
  }

  lemma MarkDraining(k: Core, a: Tid, m: Msg)
    requires Draining(k, a)
    ensures var k' := MarkAnswerable(k, m); Draining(k', a) && (RendezvousOk(k, a) ==> RendezvousOk(k', a))
  {
    if m.from.Some? && Asks(T(k, m.from.value), m) && m.from.value < |k.ts| {
      var t := m.from.value;
      var k' := MarkAnswerable(k, m);
      assert OwnOk(t, T(k, t));
      MarkKeepsOwn(t, T(k, t));
      UpdateKeepsLinks(k, t, T(k, t).(answerable := true), None);
      QuietKeepsFlow(k, k');
      forall u: Tid | u < |k.ts| && u != a ensures RendezvousOk(k', u) {
        assert RendezvousOk(k, u);
        QuietKeepsRendezvous(k, k', u);
      }
    }
  }

  lemma TakeQueuedOk(k: Core, a: Tid)
    requires CoreOk(k) && MayBlock(k, a) && T(k, a).queue != []
    ensures Draining(TakeQueued(k, a), a) && SameLives(k, TakeQueued(k, a))
    ensures L(k, Senders(a)) == [] ==> CoreOk(TakeQueued(k, a))
  {
    TakenDraining(k, a);
    var k1 := SetT(k, a, Taken(T(k, a)));
    MarkDraining(k1, a, T(k, a).queue[0]);
    if L(k, Senders(a)) == [] {
      assert RendezvousOk(k1, a);
      forall u: Tid | u < |k.ts| ensures RendezvousOk(TakeQueued(k, a), u) {
        assert u != a ==> RendezvousOk(TakeQueued(k, a), u);
      }
    }
  }

  /** x, the first sender waiting for a, has left the list and is about to become runnable. */
  ghost predicate Detached(k: Core, x: Tid) {
    && LinksBut(k, Some(x)) && Own(k) && Rendezvous(k) && Flow(k)
    && x < |k.ts| && T(k, x).loc == None
    && (T(k, x).status == SendBlocked || T(k, x).status == ReplyBlocked)
  }

  /** The messages of the waiting senders, after the first message m has gone to y. */
  lemma WaitingTail(k: Core, k1: Core, a: Tid)
    requires ListOk(k, Senders(a)) && L(k, Senders(a)) != []
    requires L(k1, Senders(a)) == L(k, Senders(a))[1..]
    requires forall i {:trigger L(k, Senders(a))[i]} :: 0 <= i < |L(k, Senders(a))| ==>
      T(k1, L(k, Senders(a))[i]).wait == T(k, L(k, Senders(a))[i]).wait
    ensures Waiting(k, L(k, Senders(a))) == [Content(T(k, L(k, Senders(a))[0]).wait)] + Waiting(k1, L(k1, Senders(a)))
  {
    SameWaiting(k, k1, L(k, Senders(a))[1..]);
  }

  /** The receiver a, with its record y, has the message of the first waiting sender. */
  lemma HeadDetached(k: Core, a: Tid, y: Tcb)
    requires Draining(k, a) && MayBlock(k, a) && L(k, Senders(a)) != []
    requires SameLink(T(k, a), y) && OwnOk(a, y) && QueueFull(y) && y.sent == T(k, a).sent
    requires y.got + y.queue == T(k, a).got + T(k, a).queue + [Content(T(k, L(k, Senders(a))[0]).wait)]
    ensures Detached(SetT(RemoveHead(k, Senders(a)), a, y), L(k, Senders(a))[0])
  {
    var x := L(k, Senders(a))[0];
    var k1 := RemoveHead(k, Senders(a));
    var k' := SetT(k1, a, y);
    WaitersCarryOwn(k, a, 0, None);
    RemoveHeadUnlinks(k, Senders(a));
    UpdateKeepsLinks(k1, a, y, Some(x));
    DetachedFlow(k, a, y);
    DetachedOthers(k, a, y);
    assert StatusFits(T(k, a));
    forall u: Tid | u < |k'.ts| ensures OwnOk(u, T(k', u)) {
      assert OwnOk(u, T(k, u));
      if u == x { UnlinkedOwn(x, T(k, x)); }
    }
  }

  lemma UnlinkedOwn(t: Tid, x: Tcb)
    requires OwnOk(t, x) && (x.status == SendBlocked || x.status == ReplyBlocked)
    ensures OwnOk(t, x.(loc := None))
  {
  }

  lemma DetachedFlow(k: Core, a: Tid, y: Tcb)
    requires Draining(k, a) && MayBlock(k, a) && L(k, Senders(a)) != [] && y.sent == T(k, a).sent
    requires y.got + y.queue == T(k, a).got + T(k, a).queue + [Content(T(k, L(k, Senders(a))[0]).wait)]
    ensures FlowOk(SetT(RemoveHead(k, Senders(a)), a, y), a)
  {
    var k' := SetT(RemoveHead(k, Senders(a)), a, y);
    assert FlowOk(k, a) && ListOk(k, Senders(a)) && StatusFits(T(k, a));
    WaitingTail(k, k', a);
    Associate2(T(k, a).got + T(k, a).queue, [Content(T(k, L(k, Senders(a))[0]).wait)], Waiting(k', L(k', Senders(a))));
    assert Accepted(k', a) == Accepted(k, a);
  }

  lemma Associate2(a: seq<Msg>, b: seq<Msg>, c: seq<Msg>)
    ensures a + (b + c) == a + b + c
  {
  }

  lemma DetachedOthers(k: Core, a: Tid, y: Tcb)
    requires Draining(k, a) && MayBlock(k, a) && L(k, Senders(a)) != [] && QueueFull(y) && SameLink(T(k, a), y)
    ensures var k' := SetT(RemoveHead(k, Senders(a)), a, y);
            && Rendezvous(k')
            && forall u: Tid :: u < |k'.ts| && u != a ==> FlowOk(k', u)
  {
    var k' := SetT(RemoveHead(k, Senders(a)), a, y);
    assert StatusFits(T(k, a));
    forall u: Tid | u < |k'.ts| && u != a ensures RendezvousOk(k', u) && FlowOk(k', u) {
      assert RendezvousOk(k, u) && FlowOk(k, u) && ListOk(k, Senders(u));
      assert L(k', Senders(u)) == L(k, Senders(u));
      OtherFlow(k, k', u);
    }
  }

  lemma MarkDetached(k: Core, x: Tid, m: Msg)
    requires Detached(k, x)
    ensures Detached(MarkAnswerable(k, m), x)
  {
    if m.from.Some? && Asks(T(k, m.from.value), m) && m.from.value < |k.ts| {
      var t := m.from.value;
      var k' := MarkAnswerable(k, m);
      assert OwnOk(t, T(k, t));
      MarkKeepsOwn(t, T(k, t));
      UpdateKeepsLinks(k, t, T(k, t).(answerable := true), Some(x));
      QuietKeepsFlow(k, k');
    }
  }

  lemma ReleaseSenderOk(k: Core, x: Tid)
    requires Detached(k, x)
    ensures CoreOk(ReleaseSender(k, x)) && SameLives(k, ReleaseSender(k, x))
  {
    var y := T(k, x);
    var k' := ReleaseSender(k, x);
    if y.status == SendBlocked {
      var k1 := SetT(k, x, y.(wait := NoData));
      assert OwnOk(x, y);
      NothingAwaited(x, y);
      UpdateKeepsLinks(k, x, y.(wait := NoData), Some(x));
      WakeLinks(k1, x, Pending);
      WakeEffect(k1, x, Pending);
      SenderWoken(x, y, T(k', x));
      QuietKeepsFlow(k, k');
    }
  }

  lemma SenderWoken(t: Tid, x: Tcb, y: Tcb)
    requires |x.queue| <= x.cap && Shape(x.todo) && (x.todo != [] ==> Fulfilled(x, End(x)))
    requires x.todo != [] ==> End(x) == Yield
    requires y == Linked(x.(wait := NoData), Rq(x.prio), y.ticket).(status := Pending)
    ensures OwnOk(t, y)
  {
  }

  /** The two ways in which the message of the first waiting sender is taken. */
  lemma TakeWaitingOk(k: Core, a: Tid, queued: bool)
    requires Draining(k, a) && MayBlock(k, a) && L(k, Senders(a)) != []
    requires if queued then |T(k, a).queue| + 1 == T(k, a).cap else T(k, a).queue == [] && T(k, a).cap == 0
    ensures CoreOk(TakeWaiting(k, a, L(k, Senders(a))[0], queued))
  {
    var x := L(k, Senders(a))[0];
    var m := Content(T(k, x).wait);
    var tcb := T(k, a);
    var k1 := RemoveHead(k, Senders(a));
    WaitersCarryOwn(k, a, 0, None);
    assert OwnOk(a, tcb) && StatusFits(tcb) && T(k1, a) == tcb;
    if queued {
      var y := tcb.(queue := tcb.queue + [m]);
      Associate2(tcb.got, tcb.queue, [m]);
      HeadDetached(k, a, y);
      ReleaseSenderOk(Refill(k1, a, m), x);
    } else {
      var y := tcb.(wait := Buffer(m), answer := None, got := tcb.got + [m]);
      HeadDetached(k, a, y);
      MarkDetached(SetT(k1, a, y), x, m);
      ReleaseSenderOk(Accept(k1, a, m), x);
    }
  }
}
