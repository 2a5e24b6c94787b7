/** The invariants of the thread control blocks: wait conditions, rendezvous and message flow. */
module KernelInv {
  import opened KernelTypes
  import opened KernelSpec
  import opened KernelLinks

  // ---------------------------------------------------------------- a thread by itself

  function End(tcb: Tcb): Act
    requires tcb.todo != []
  {
    tcb.todo[|tcb.todo| - 1]
  }

  /** A writer waits on the list of writers, a reader on the list of readers. */
  predicate WaitsForMbox(loc: Option<ListId>, end: Act) {
    match end
    case RetryPut(b, v) => loc == Some(Writers(b))
    case GotMail(b) => loc == Some(Readers(b))
    case _ => false
  }

  /** What a thread waits for has not happened yet. */
  predicate WaitOk(t: Tid, tcb: Tcb) {
    match tcb.status
    case MutexBlocked => tcb.lock == None
    case FlagBlockedAny => tcb.wait.Mask? && tcb.flags * tcb.wait.mask == {}
    case FlagBlockedAll => tcb.wait.Mask? && !(tcb.wait.mask <= tcb.flags)
    case ReceiveBlocked => tcb.wait.Buffer? && tcb.queue == [] && tcb.todo != [] && End(tcb) == Received
    case SendBlocked => tcb.wait.Buffer? && tcb.wait.msg.from == Some(t) && (tcb.todo != [] ==> End(tcb) == Yield)
    case ReplyBlocked =>
      && tcb.wait.Buffer? && tcb.wait.msg.from == Some(t)
      && (tcb.loc.Some? ==> !tcb.answerable)
      && tcb.todo != [] && End(tcb) == Replied
    case MboxBlocked => tcb.todo != [] && WaitsForMbox(tcb.loc, End(tcb))
    case _ => true
  }

  /** The thread is inside a blocking call that ends with this action, and still blocked. */
  predicate StillWaits(tcb: Tcb, end: Act) {
    match end
    case Locked(m) => tcb.status == MutexBlocked && tcb.loc == Some(MutexQ(m))
    case Replied => tcb.status == ReplyBlocked
    case Received => tcb.status == ReceiveBlocked
    case GotMail(b) => tcb.status == MboxBlocked && tcb.loc == Some(Readers(b))
    case ClearAny(mask) => tcb.status == FlagBlockedAny && tcb.wait == Mask(mask)
    case ReadOne(mask) => tcb.status == FlagBlockedAny && tcb.wait == Mask(mask)
    case ClearAll(mask) => tcb.status == FlagBlockedAll && tcb.wait == Mask(mask)
    case _ => false
  }

  /** The thread has what the call that ends with this action waits for. */
  predicate Fulfilled(tcb: Tcb, end: Act) {
    match end
    case Locked(m) => tcb.lock == Some(m)
    case Replied => tcb.answer.Some? && tcb.wait == Buffer(tcb.answer.value)
    case Received => tcb.got != [] && tcb.wait == Buffer(tcb.got[|tcb.got| - 1])
    case GotMail(b) => tcb.mail.Some? && tcb.wait == Buffer(tcb.mail.value)
    case ClearAny(mask) => tcb.flags * mask != {}
    case ReadOne(mask) => tcb.flags * mask != {}
    case ClearAll(mask) => mask <= tcb.flags
    case ClearOne(bit) => bit != {} && bit <= tcb.flags
    case _ => true
  }

  predicate ReturnOk(tcb: Tcb) {
    tcb.todo != [] ==> StillWaits(tcb, End(tcb)) || Fulfilled(tcb, End(tcb))
  }

  /** A thread in mutex_lock_cancelable is blocked on the mutex, or runnable. */
  predicate CancelableOk(tcb: Tcb) {
    tcb.todo != [] && End(tcb).CheckCancel? ==> tcb.status == MutexBlocked || OnRunqueue(tcb.status)
  }

  /** Giving up the processor, in one of the ways in which a call does that on its way. */
  predicate Detour(act: Act) {
    act.Yield? || act.YieldRoundRobin? || act.Switch? || act.SwitchIfRequested? || act.CheckPriority?
  }

  /** What a call does before its last action is to give up the processor. */
  predicate Shape(todo: seq<Act>) {
    |todo| <= 1 || (Detour(todo[0]) && Shape(todo[1..]))
  }

  predicate OwnOk(t: Tid, tcb: Tcb) {
    WaitOk(t, tcb) && ReturnOk(tcb) && CancelableOk(tcb) && Shape(tcb.todo) && |tcb.queue| <= tcb.cap
  }

  ghost predicate Own(k: Core) {
    forall t: Tid :: t < |k.ts| ==> OwnOk(t, T(k, t))
  }

  // ---------------------------------------------------------------- rendezvous and message flow

  /** A thread blocked on receiving has nothing to receive, and senders wait only for a full queue. */
  ghost predicate RendezvousOk(k: Core, t: Tid) {
    && (T(k, t).status == ReceiveBlocked ==> L(k, Senders(t)) == [])
    && (L(k, Senders(t)) != [] ==> QueueFull(T(k, t)))
  }

  ghost predicate Rendezvous(k: Core) {
    forall t: Tid :: t < |k.ts| ==> RendezvousOk(k, t)
  }

  /** The messages of the threads of a list. */
  function Waiting(k: Core, q: seq<Tid>): (r: seq<Msg>)
    ensures |r| == |q| && forall i :: 0 <= i < |q| ==> r[i] == Content(T(k, q[i]).wait)
  {
    if q == [] then [] else [Content(T(k, q[0]).wait)] + Waiting(k, q[1..])
  }

  /** The messages of one sender, in order. */
  function From(x: Option<Tid>, ms: seq<Msg>): seq<Msg> {
    if ms == [] then [] else (if ms[0].from == x then [ms[0]] else []) + From(x, ms[1..])
  }

  /** Everything accepted for t: received, queued, or in the buffer of a waiting sender. */
  function Accepted(k: Core, t: Tid): seq<Msg> {
    T(k, t).got + T(k, t).queue + Waiting(k, L(k, Senders(t)))
  }

  /** Sender by sender, that is exactly what was sent, in the order in which it was sent. */
  ghost predicate FlowOk(k: Core, t: Tid) {
    forall x :: From(x, Accepted(k, t)) == From(x, T(k, t).sent)
  }

  ghost predicate Flow(k: Core) {
    forall t: Tid :: t < |k.ts| ==> FlowOk(k, t)
  }

  ghost predicate CoreOk(k: Core) {
    Links(k) && Own(k) && Rendezvous(k) && Flow(k)
  }

  lemma FromAppend(x: Option<Tid>, a: seq<Msg>, b: seq<Msg>)
    ensures From(x, a + b) == From(x, a) + From(x, b)
  {
    if a == [] {
      assert a + b == b;
    } else {
      assert (a + b)[1..] == a[1..] + b;
      FromAppend(x, a[1..], b);
    }
  }

  // ---------------------------------------------------------------- steps that leave messages alone

  predicate SameMessages(x: Tcb, y: Tcb) {
    && x.queue == y.queue && x.cap == y.cap && x.got == y.got && x.sent == y.sent
    && (y.status == ReceiveBlocked ==> x.status == ReceiveBlocked)
    && (x.loc.Some? && x.loc.value.Senders? ==> y.wait == x.wait)
  }

  /** Neither queues nor waiting senders change, and nobody starts to receive. */
  ghost predicate Quiet(k: Core, k': Core) {
    && |k'.ts| == |k.ts|
    && (forall t: Tid {:trigger L(k', Senders(t))} :: L(k', Senders(t)) == L(k, Senders(t)))
    && (forall t: Tid {:trigger T(k', t)} :: SameMessages(T(k, t), T(k', t)))
  }

  lemma QuietKeepsRendezvous(k: Core, k': Core, t: Tid)
    requires Quiet(k, k') && RendezvousOk(k, t)
    ensures RendezvousOk(k', t)
  {
    assert L(k', Senders(t)) == L(k, Senders(t)) && SameMessages(T(k, t), T(k', t));
  }

  /** Q is the order in which the waiting senders stand; it is the same before and after. */
  lemma SameWaiting(k: Core, k': Core, q: seq<Tid>)
    requires forall i :: 0 <= i < |q| ==> T(k', q[i]).wait == T(k, q[i]).wait
    ensures Waiting(k', q) == Waiting(k, q)
  {
  }

  lemma QuietKeepsWaiting(k: Core, k': Core, t: Tid)
    requires ListOk(k, Senders(t)) && Quiet(k, k')
    ensures Waiting(k', L(k', Senders(t))) == Waiting(k, L(k, Senders(t)))
  {
    var q := L(k, Senders(t));
    assert L(k', Senders(t)) == q;
    forall i | 0 <= i < |q| ensures T(k', q[i]).wait == T(k, q[i]).wait {
      assert SameMessages(T(k, q[i]), T(k', q[i]));
    }
    SameWaiting(k, k', q);
  }

  lemma QuietKeepsFlowOf(k: Core, k': Core, t: Tid)
    requires ListOk(k, Senders(t)) && Quiet(k, k') && FlowOk(k, t)
    ensures FlowOk(k', t)
  {
    QuietKeepsWaiting(k, k', t);
    assert SameMessages(T(k, t), T(k', t));
    assert Accepted(k', t) == Accepted(k, t);
  }

  lemma QuietKeepsFlow(k: Core, k': Core)
    requires (forall l :: ListOk(k, l)) && Flow(k) && Quiet(k, k')
    ensures Flow(k') && (Rendezvous(k) ==> Rendezvous(k'))
  {
    forall t: Tid | t < |k'.ts| ensures FlowOk(k', t) {
      assert ListOk(k, Senders(t)) && FlowOk(k, t);
      QuietKeepsFlowOf(k, k', t);
    }
    if Rendezvous(k) {
      forall t: Tid | t < |k'.ts| ensures RendezvousOk(k', t) {
        assert RendezvousOk(k, t);
        QuietKeepsRendezvous(k, k', t);
      }
    }
  }

  // ---------------------------------------------------------------- life and death

  predicate SameLife(x: Tcb, y: Tcb) {
    x.pid == y.pid && (x.status == Stopped <==> y.status == Stopped)
  }

  /** Nobody starts or ends. */
  ghost predicate SameLives(k: Core, k': Core) {
    |k'.ts| == |k.ts| && forall t: Tid {:trigger T(k', t)} :: SameLife(T(k, t), T(k', t))
  }
}
