/** Changes that leave mutexes, cancellations, mailbox readers and what was sent alone. */
module KernelSteady {
  import opened KernelTypes
  import opened KernelSpec
  import opened KernelLinks
  import opened KernelInv
  import opened KernelCore
  import opened KernelMessages
  import opened KernelSched
  import opened KernelState
  import opened KernelSteps

  /** A thread that is to retry a put afterwards was so before. */
  predicate RetrySteady(x: Tcb, y: Tcb) {
    y.todo != [] && End(y).RetryPut? ==> x.todo != [] && End(x) == End(y)
  }

  /** So was a thread that is in mutex_lock_cancelable, and it stands where it stood. */
  predicate StandSteady(x: Tcb, y: Tcb) {
    y.todo != [] && End(y).CheckCancel? ==>
      && x.todo != [] && End(x) == End(y) && x.lock == y.lock
      && (x.status == MutexBlocked <==> y.status == MutexBlocked)
      && (x.status == MutexBlocked ==> x.loc == y.loc)
  }

  /** A thread that has been handed mail had it before. */
  predicate MailSteady(x: Tcb, y: Tcb) {
    y.todo != [] && End(y).GotMail? && y.mail.Some? ==> x.todo != [] && End(x) == End(y) && x.mail == y.mail
  }

  predicate CancelSteady(x: Tcb, y: Tcb) {
    RetrySteady(x, y) && StandSteady(x, y) && MailSteady(x, y)
  }

  /** No mailbox forgets that a put waited, or delivers to a thread in _mbox_get. */
  ghost predicate BoxesSteady(s: State, s': State) {
    forall b :: b in s.mboxes ==>
      && b in s'.mboxes && (s.mboxes[b].waited ==> s'.mboxes[b].waited)
      && forall t: Tid :: T(s'.k, t).todo != [] && End(T(s'.k, t)) == GotMail(b) ==>
           LastMail(s'.mboxes[b], t) == LastMail(s.mboxes[b], t)
  }

  ghost predicate SameQueues(k: Core, k': Core) {
    && (forall m: nat {:trigger L(k', MutexQ(m))} :: L(k', MutexQ(m)) == L(k, MutexQ(m)))
    && (forall b: nat {:trigger L(k', Readers(b))} :: L(k', Readers(b)) == L(k, Readers(b)))
  }

  ghost predicate Steady(k: Core, k': Core) {
    && |k'.ts| == |k.ts| && k.clock <= k'.clock && SameQueues(k, k')
    && (forall t: Tid {:trigger T(k', t)} :: T(k', t).sent == T(k, t).sent && CancelSteady(T(k, t), T(k', t)))
  }

  /** Nothing but threads and run queues changes. */
  predicate SameObjects(s: State, s': State) {
    && s'.locked == s.locked && s'.grants == s.grants && s'.releases == s.releases
    && s'.mboxes == s.mboxes && s'.cancels == s.cancels
  }

  ghost predicate RestOk(s: State) {
    MutexesOk(s) && CancelsOk(s) && MboxesOk(s) && RetriesOk(s) && MailsOk(s) && SerialsOk(s.k)
  }

  lemma SteadyKeepsSerials(k: Core, k': Core)
    requires SerialsOk(k) && |k'.ts| == |k.ts| && k.clock <= k'.clock
    requires forall t: Tid {:trigger T(k', t)} :: T(k', t).sent == T(k, t).sent
    ensures SerialsOk(k')
  {
    forall t: Tid | t < |k'.ts| ensures forall i {:trigger T(k', t).sent[i]} :: 0 <= i < |T(k', t).sent| ==>
        T(k', t).sent[i].serial < k'.clock {
      assert T(k', t).sent == T(k, t).sent;
    }
  }

  lemma SteadyKeepsCancels(s: State, s': State)
    requires CancelsOk(s) && s'.cancels == s.cancels && |s'.k.ts| == |s.k.ts|
    requires forall t: Tid {:trigger T(s'.k, t)} :: StandSteady(T(s.k, t), T(s'.k, t))
    ensures CancelsOk(s')
  {
    forall t: Tid | t < |s'.k.ts| && T(s'.k, t).todo != [] && End(T(s'.k, t)).CheckCancel?
      ensures End(T(s'.k, t)).id in s'.cancels && CancelOk(T(s'.k, t), t, s'.cancels[End(T(s'.k, t)).id])
    {
      assert StandSteady(T(s.k, t), T(s'.k, t));
    }
  }

  lemma SteadyKeepsRetries(s: State, s': State)
    requires RetriesOk(s) && MailsOk(s) && |s'.k.ts| == |s.k.ts| && BoxesSteady(s, s')
    requires forall t: Tid {:trigger T(s'.k, t)} ::
        RetrySteady(T(s.k, t), T(s'.k, t)) && MailSteady(T(s.k, t), T(s'.k, t))
    ensures RetriesOk(s') && MailsOk(s')
  {
    SteadyKeepsMails(s, s');
    forall t: Tid | t < |s'.k.ts| && T(s'.k, t).todo != [] && End(T(s'.k, t)).RetryPut?
      ensures End(T(s'.k, t)).mbox in s'.mboxes && s'.mboxes[End(T(s'.k, t)).mbox].waited
    {
      assert RetrySteady(T(s.k, t), T(s'.k, t));
    }
  }

  lemma SteadyKeepsMails(s: State, s': State)
    requires MailsOk(s) && |s'.k.ts| == |s.k.ts| && BoxesSteady(s, s')
    requires forall t: Tid {:trigger T(s'.k, t)} :: MailSteady(T(s.k, t), T(s'.k, t))
    ensures MailsOk(s')
  {
    forall t: Tid | t < |s'.k.ts| && T(s'.k, t).todo != [] && End(T(s'.k, t)).GotMail? && T(s'.k, t).mail.Some?
      ensures var b := End(T(s'.k, t)).mbox; b in s'.mboxes && LastMail(s'.mboxes[b], t) == T(s'.k, t).mail
    {
      assert MailSteady(T(s.k, t), T(s'.k, t));
    }
  }

  lemma SteadyKeepsMutexes(s: State, s': State)
    requires MutexesOk(s) && SameQueues(s.k, s'.k)
    requires s'.locked == s.locked && s'.grants == s.grants && s'.releases == s.releases
    ensures MutexesOk(s')
  {
    forall m: nat ensures MutexOk(s', m) { assert MutexOk(s, m) && L(s'.k, MutexQ(m)) == L(s.k, MutexQ(m)); }
  }

  lemma SteadyKeepsMboxes(s: State, s': State)
    requires MboxesOk(s) && SameQueues(s.k, s'.k) && s'.mboxes == s.mboxes
    ensures MboxesOk(s')
  {
    forall b | b in s'.mboxes ensures MboxOk(s', b) {
      assert MboxOk(s, b) && L(s'.k, Readers(b)) == L(s.k, Readers(b));
    }
  }

  lemma SteadyKeepsRest(s: State, s': State)
    requires RestOk(s) && SameObjects(s, s') && Steady(s.k, s'.k)
    ensures RestOk(s')
  {
    SteadyKeepsSerials(s.k, s'.k);
    SteadyKeepsCancels(s, s');
    SteadyKeepsMutexes(s, s');
    SteadyKeepsMboxes(s, s');
    assert forall t: Tid :: CancelSteady(T(s.k, t), T(s'.k, t));
    SteadyKeepsRetries(s, s');
  }

  lemma SteadyTrans(k: Core, k1: Core, k2: Core)
    requires Steady(k, k1) && Steady(k1, k2)
    ensures Steady(k, k2)
  {
    forall t: Tid ensures T(k2, t).sent == T(k, t).sent && CancelSteady(T(k, t), T(k2, t)) {
      assert T(k1, t).sent == T(k, t).sent && CancelSteady(T(k, t), T(k1, t));
    }
    forall m: nat ensures L(k2, MutexQ(m)) == L(k, MutexQ(m)) { assert L(k1, MutexQ(m)) == L(k, MutexQ(m)); }
    forall b: nat ensures L(k2, Readers(b)) == L(k, Readers(b)) { assert L(k1, Readers(b)) == L(k, Readers(b)); }
  }

  lemma OneThreadSteady(k: Core, k': Core, t: Tid)
    requires OnlyThread(k, k', t) && SameQueues(k, k') && k.clock <= k'.clock
    requires T(k', t).sent == T(k, t).sent && CancelSteady(T(k, t), T(k', t))
    ensures Steady(k, k')
  {
  }

  lemma RecordSteady(k: Core, t: Tid, y: Tcb)
    requires y.sent == T(k, t).sent && CancelSteady(T(k, t), y)
    ensures Steady(k, SetT(k, t, y))
  {
    OneThreadSteady(k, SetT(k, t, y), t);
  }

  /** A thread that is not waiting for a mutex wakes. */
  lemma WakeSteady(k: Core, t: Tid, status: Status)
    requires t < |k.ts| && OnRunqueue(status) && !OnRunqueue(T(k, t).status) && T(k, t).status != MutexBlocked
    ensures Steady(k, SetStatus(k, t, status))
  {
    WakeEffect(k, t, status);
    OneThreadSteady(k, SetStatus(k, t, status), t);
  }

  /** A thread in no call blocks on something that is neither a mutex nor a mailbox to read. */
  lemma BlockSteady(k: Core, t: Tid, status: Status)
    requires IsHead(k, t) && !OnRunqueue(status) && status != MutexBlocked && T(k, t).todo == []
    ensures Steady(k, SetStatus(k, t, status))
  {
    BlockEffect(k, t, status);
    OneThreadSteady(k, SetStatus(k, t, status), t);
  }

  lemma EnlistSteady(k: Core, l: ListId, t: Tid)
    requires t < |k.ts| && T(k, t).status != MutexBlocked && !l.MutexQ? && !l.Readers?
    ensures Steady(k, AddToList(k, l, t))
  {
    OneThreadSteady(k, AddToList(k, l, t), t);
  }

  lemma WakeHeadSteady(k: Core, l: ListId)
    requires Links(k) && (l.CondQ? || l.Writers?)
    ensures Steady(k, WakeHead(k, l))
  {
    if L(k, l) != [] {
      WakeHeadEffect(k, l);
      OneThreadSteady(k, WakeHead(k, l), L(k, l)[0]);
    }
  }

  lemma OweSteady(k: Core, t: Tid, act: Act)
    requires Plain(act)
    ensures Steady(k, Owe(k, t, [act]))
  {
    var x := T(k, t);
    var y := x.(todo := [act] + x.todo);
    if x.todo != [] { assert End(y) == End(x); }
    RecordSteady(k, t, y);
  }

  lemma ThenSteady(s: State, act: Act)
    requires Plain(act)
    ensures Steady(s.k, Then(s, act).k) && SameObjects(s, Then(s, act))
  {
    assert Steady(s.k, s.k);
    if !s.isr && s.active.Some? { OweSteady(s.k, s.active.value, act); }
  }

  lemma RaiseSteady(k: Core, t: Tid, mask: Flags)
    requires t < |k.ts|
    ensures Steady(k, Raise(k, t, mask))
  {
    var y := WithFlags(T(k, t), mask);
    RecordSteady(k, t, y);
    if FlagsSatisfied(y) {
      WakeSteady(SetT(k, t, y), t, Pending);
      SteadyTrans(k, SetT(k, t, y), Raise(k, t, mask));
    }
  }

  lemma RemarksSteady(k: Core, k': Core)
    requires Remarks(k, k')
    ensures Steady(k, k')
  {
    forall t: Tid ensures T(k', t).sent == T(k, t).sent && CancelSteady(T(k, t), T(k', t)) {
      assert StaysRunnable(T(k, t), T(k', t));
    }
    assert forall l :: L(k', l) == L(k, l);
  }

  lemma RotateSteady(k: Core, p: nat)
    ensures Steady(k, Rotate(k, p))
  {
    if L(k, Rq(p)) != [] { OneThreadSteady(k, Rotate(k, p), L(k, Rq(p))[0]); }
  }

  lemma ReprioritizeSteady(k: Core, t: Tid, prio: nat)
    requires CoreOk(k) && MayChangePriority(k, t)
    ensures Steady(k, Reprioritize(k, t, prio))
  {
    ReprioritizeEffect(k, t, prio);
    assert StatusFits(T(k, t));
    OneThreadSteady(k, Reprioritize(k, t, prio), t);
  }

  lemma LivesKeepPids(s: State, s': State)
    requires PidsOk(s) && s'.pids == s.pids && SameLives(s.k, s'.k)
    ensures PidsOk(s')
  {
    forall t: Tid ensures SameLife(T(s.k, t), T(s'.k, t)) { }
  }

  lemma LivesTrans(k: Core, k1: Core, k2: Core)
    requires SameLives(k, k1) && SameLives(k1, k2)
    ensures SameLives(k, k2)
  {
    forall t: Tid ensures SameLife(T(k, t), T(k2, t)) {
      assert SameLife(T(k, t), T(k1, t)) && SameLife(T(k1, t), T(k2, t));
    }
  }
}
