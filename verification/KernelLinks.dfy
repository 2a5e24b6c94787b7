/** The discipline of the single link of a thread: a thread is on at most one list, on the one its
    status asks for, and every list is ordered. */
module KernelLinks {
  import opened KernelTypes
  import opened KernelSpec

  /** x is ahead of y: run queues are first in first out, wait lists are ordered by priority and
      first in first out among equals. */
  predicate Ahead(l: ListId, x: Tcb, y: Tcb) {
    if l.Rq? then x.ticket < y.ticket
    else x.prio < y.prio || (x.prio == y.prio && x.ticket < y.ticket)
  }

  ghost predicate ListOk(k: Core, l: ListId) {
    var q := L(k, l);
    && (forall i {:trigger q[i]} :: 0 <= i < |q| ==> q[i] < |k.ts| && T(k, q[i]).loc == Some(l))
    && (forall i, j {:trigger q[i], q[j]} :: 0 <= i < j < |q| ==> Ahead(l, T(k, q[i]), T(k, q[j])))
  }

  /** The list a thread of this status has to be on. */
  predicate StatusFits(tcb: Tcb) {
    match tcb.status
    case Running => tcb.loc == Some(Rq(tcb.prio))
    case Pending => tcb.loc == Some(Rq(tcb.prio))
    case MutexBlocked => tcb.loc.Some? && tcb.loc.value.MutexQ?
    case CondBlocked => tcb.loc.Some? && tcb.loc.value.CondQ?
    case SendBlocked => tcb.loc.Some? && tcb.loc.value.Senders?
    case MboxBlocked => tcb.loc.Some? && (tcb.loc.value.Readers? || tcb.loc.value.Writers?)
    case ReplyBlocked => tcb.loc.Some? ==> tcb.loc.value.Senders?
    case _ => tcb.loc == None
  }

  ghost predicate TcbLinked(k: Core, t: Tid)
    requires t < |k.ts|
  {
    var tcb := T(k, t);
    && tcb.prio < LEVELS
    && (tcb.loc.Some? ==> t in L(k, tcb.loc.value) && tcb.ticket < k.clock)
    && (tcb.loc.Some? && tcb.loc.value.Rq? ==> tcb.loc.value.prio == tcb.prio)
    && (tcb.loc.Some? && tcb.loc.value.Senders? ==> tcb.loc.value.target < |k.ts|)
  }

  /** The link discipline; inside a critical section the status of one thread may be ahead of or
      behind its link. */
  ghost predicate LinksBut(k: Core, x: Option<Tid>) {
    && (forall l :: ListOk(k, l))
    && (forall t: Tid :: t < |k.ts| ==> TcbLinked(k, t))
    && (forall t: Tid :: t < |k.ts| && x != Some(t) ==> StatusFits(T(k, t)))
  }

  ghost predicate Links(k: Core) {
    LinksBut(k, None)
  }

  predicate SameLink(x: Tcb, y: Tcb) {
    x.status == y.status && x.prio == y.prio && x.loc == y.loc && x.ticket == y.ticket
  }

  lemma UpdateKeepsLinks(k: Core, t: Tid, tcb: Tcb, x: Option<Tid>)
    requires LinksBut(k, x) && SameLink(T(k, t), tcb)
    ensures LinksBut(SetT(k, t, tcb), x)
  {
    var k' := SetT(k, t, tcb);
    forall l ensures ListOk(k', l) { assert ListOk(k, l); assert L(k', l) == L(k, l); }
    forall u: Tid | u < |k'.ts| ensures TcbLinked(k', u) { assert TcbLinked(k, u); }
  }

  lemma TickKeepsLinks(k: Core, x: Option<Tid>)
    requires LinksBut(k, x)
    ensures LinksBut(Tick(k), x)
  {
    var k' := Tick(k);
    forall l ensures ListOk(k', l) { assert ListOk(k, l); }
    forall u: Tid | u < |k'.ts| ensures TcbLinked(k', u) { assert TcbLinked(k, u); }
  }

  /** A thread is not on a list that its own record does not name. */
  lemma NotListed(k: Core, l: ListId, t: Tid, x: Option<Tid>)
    requires LinksBut(k, x) && T(k, t).loc != Some(l)
    ensures t !in L(k, l)
  {
    assert ListOk(k, l);
  }

  /** Only list l and thread t change. */
  ghost predicate Relinks(k: Core, k': Core, l: ListId, t: Tid) {
    && |k'.ts| == |k.ts| && k.clock <= k'.clock
    && (forall l' {:trigger L(k', l')} :: l' != l ==> L(k', l') == L(k, l'))
    && (forall u: Tid {:trigger T(k', u)} :: u != t ==> T(k', u) == T(k, u))
    && (forall u: Tid :: u != t && u in L(k, l) ==> u in L(k', l))
  }

  lemma RelinkKeepsOthers(k: Core, k': Core, l: ListId, t: Tid, x: Option<Tid>)
    requires LinksBut(k, x) && Relinks(k, k', l, t)
    requires T(k, t).loc == None || T(k, t).loc == Some(l)
    requires ListOk(k', l) && (t < |k'.ts| ==> TcbLinked(k', t))
    requires x == None || x == Some(t)
    ensures LinksBut(k', Some(t))
  {
    forall l' | l' != l ensures ListOk(k', l') {
      assert ListOk(k, l') && L(k', l') == L(k, l');
      NotListed(k, l', t, x);
    }
    forall u: Tid | u < |k'.ts| ensures TcbLinked(k', u) {
      assert u != t ==> TcbLinked(k, u) && T(k', u) == T(k, u);
    }
  }

  /** A list whose members keep their records, apart from t, stays in order when it becomes the
      sequence q' of the members at increasing positions of q. */
  lemma SubsequenceOk(k: Core, k': Core, l: ListId, at: seq<nat>)
    requires ListOk(k, l)
    requires |at| == |L(k', l)| && |k'.ts| == |k.ts|
    requires forall i {:trigger at[i]} :: 0 <= i < |at| ==> at[i] < |L(k, l)| && L(k', l)[i] == L(k, l)[at[i]]
    requires forall i, j {:trigger at[i], at[j]} :: 0 <= i < j < |at| ==> at[i] < at[j]
    requires forall i {:trigger L(k', l)[i]} :: 0 <= i < |at| ==> T(k', L(k', l)[i]) == T(k, L(k', l)[i])
    ensures ListOk(k', l)
  {
    var q, q' := L(k, l), L(k', l);
    forall i | 0 <= i < |q'| ensures q'[i] < |k'.ts| && T(k', q'[i]).loc == Some(l) {
      assert q'[i] == q[at[i]];
    }
    forall i, j | 0 <= i < j < |q'| ensures Ahead(l, T(k', q'[i]), T(k', q'[j])) {
      assert at[i] < at[j];
      assert q'[i] == q[at[i]] && q'[j] == q[at[j]];
    }
  }

  lemma Distinct(k: Core, l: ListId, i: nat, j: nat)
    requires ListOk(k, l) && i < j < |L(k, l)|
    ensures L(k, l)[i] != L(k, l)[j]
  {
  }

  lemma RemoveHeadUnlinks(k: Core, l: ListId)
    requires Links(k) && L(k, l) != []
    ensures var t := L(k, l)[0]; LinksBut(RemoveHead(k, l), Some(t)) && T(RemoveHead(k, l), t).loc == None
  {
    var q := L(k, l);
    var t := q[0];
    var k' := RemoveHead(k, l);
    assert ListOk(k, l) && TcbLinked(k, t);
    assert L(k', l) == q[1..];
    forall i | 0 <= i < |q[1..]| ensures q[1..][i] == q[i + 1] != t { Distinct(k, l, 0, i + 1); }
    SubsequenceOk(k, k', l, seq(|q| - 1, i => i + 1));
    RelinkKeepsOthers(k, k', l, t, None);
  }

  /** What a list looks like after t, on no list, is put between its first p members and the rest. */
  lemma InsertedOk(k: Core, k': Core, l: ListId, t: Tid, p: nat)
    requires ListOk(k, l) && t < |k.ts| && T(k, t).loc == None && p <= |L(k, l)|
    requires L(k', l) == L(k, l)[..p] + [t] + L(k, l)[p..]
    requires |k'.ts| == |k.ts| && T(k', t).loc == Some(l)
    requires forall u: Tid {:trigger T(k', u)} :: u != t ==> T(k', u) == T(k, u)
    requires forall i {:trigger L(k, l)[i]} :: 0 <= i < p ==> Ahead(l, T(k, L(k, l)[i]), T(k', t))
    requires forall i {:trigger L(k, l)[i]} :: p <= i < |L(k, l)| ==> Ahead(l, T(k', t), T(k, L(k, l)[i]))
    ensures ListOk(k', l)
  {
    var q, q' := L(k, l), L(k', l);
    assert forall i :: 0 <= i < |q'| ==> q'[i] == if i < p then q[i] else if i == p then t else q[i - 1];
    assert forall i {:trigger q[i]} :: 0 <= i < |q| ==> q[i] != t;
    forall i, j | 0 <= i < j < |q'| ensures Ahead(l, T(k', q'[i]), T(k', q'[j])) {
    }
  }

  lemma PushLinks(k: Core, t: Tid)
    requires LinksBut(k, Some(t)) && t < |k.ts| && T(k, t).loc == None
    ensures LinksBut(Push(k, t), Some(t))
    ensures T(Push(k, t), t) == Linked(T(k, t), Rq(T(k, t).prio), k.clock)
  {
    var l := Rq(T(k, t).prio);
    var k' := Push(k, t);
    var q := L(k, l);
    assert ListOk(k, l) && TcbLinked(k, t);
    assert L(k', l) == q[..|q|] + [t] + q[|q|..];
    forall i | 0 <= i < |q| ensures T(k, q[i]).ticket < k.clock { assert TcbLinked(k, q[i]); }
    InsertedOk(k, k', l, t, |q|);
    RelinkKeepsOthers(k, k', l, t, Some(t));
  }

  /** Where Insert puts t. */
  function Position(k: Core, q: seq<Tid>, t: Tid): (p: nat)
    ensures p <= |q|
  {
    if q == [] || T(k, q[0]).prio > T(k, t).prio then 0 else 1 + Position(k, q[1..], t)
  }

  /** It is put behind all of the same or a higher priority. */
  lemma {:induction false} InsertIs(k: Core, q: seq<Tid>, t: Tid)
    ensures var p := Position(k, q, t);
            && Insert(k, q, t) == q[..p] + [t] + q[p..]
            && (forall i {:trigger q[i]} :: 0 <= i < p ==> T(k, q[i]).prio <= T(k, t).prio)
            && (p < |q| ==> T(k, q[p]).prio > T(k, t).prio)
  {
    if q != [] && T(k, q[0]).prio <= T(k, t).prio {
      InsertIs(k, q[1..], t);
      ConsSplit(q[0], q[1..], Position(k, q[1..], t), t);
      assert [q[0]] + q[1..] == q;
      forall i | 0 < i < Position(k, q, t) ensures T(k, q[i]).prio <= T(k, t).prio { assert q[i] == q[1..][i - 1]; }
    }
  }

  lemma ConsSplit(x: Tid, q: seq<Tid>, p: nat, t: Tid)
    requires p <= |q|
    ensures [x] + (q[..p] + [t] + q[p..]) == ([x] + q)[..p + 1] + [t] + ([x] + q)[p + 1..]
  {
  }

  lemma AddToListLinks(k: Core, l: ListId, t: Tid)
    requires LinksBut(k, Some(t)) && t < |k.ts| && T(k, t).loc == None && !l.Rq?
    requires l.Senders? ==> l.target < |k.ts|
    ensures LinksBut(AddToList(k, l, t), Some(t))
    ensures T(AddToList(k, l, t), t) == Linked(T(k, t), l, k.clock)
  {
    var k' := AddToList(k, l, t);
    var q := L(k, l);
    var p := Position(k, q, t);
    InsertIs(k, q, t);
    assert ListOk(k, l) && TcbLinked(k, t);
    forall i | 0 <= i < |q| ensures T(k, q[i]).ticket < k.clock { assert TcbLinked(k, q[i]); }
    forall i | p <= i < |q| ensures T(k, q[i]).prio > T(k, t).prio {
      assert i > p ==> Ahead(l, T(k, q[p]), T(k, q[i]));
    }
    InsertedOk(k, k', l, t, p);
    InsertKeepsMembers(k, l, t, p);
    RelinkKeepsOthers(k, k', l, t, Some(t));
  }

  lemma InsertKeepsMembers(k: Core, l: ListId, t: Tid, p: nat)
    requires p <= |L(k, l)|
    ensures var q := L(k, l); var q' := q[..p] + [t] + q[p..]; t in q' && forall u :: u in q ==> u in q'
  {
    var q := L(k, l);
    assert q == q[..p] + q[p..];
    var q' := q[..p] + [t] + q[p..];
    assert q'[p] == t;
  }

  lemma WithoutIs(q: seq<Tid>, t: Tid, p: nat)
    requires p < |q| && q[p] == t && t !in q[..p]
    ensures Without(q, t) == q[..p] + q[p + 1..]
  {
    if p > 0 {
      assert q[1..][..p - 1] == q[1..p];
      WithoutIs(q[1..], t, p - 1);
      assert q[..p] == [q[0]] + q[1..p];
    }
  }

  lemma CutAt(q: seq<Tid>, p: nat)
    requires p < |q|
    ensures var q' := q[..p] + q[p + 1..];
            && |q'| == |q| - 1
            && (forall i :: 0 <= i < |q'| ==> q'[i] == q[if i < p then i else i + 1])
            && (forall u :: u in q && u != q[p] ==> u in q')
  {
    assert q == q[..p] + [q[p]] + q[p + 1..];
  }

  lemma OnlyAt(k: Core, l: ListId, p: nat)
    requires ListOk(k, l) && p < |L(k, l)|
    ensures forall i :: 0 <= i < |L(k, l)| && i != p ==> L(k, l)[i] != L(k, l)[p]
  {
    forall i | 0 <= i < |L(k, l)| && i != p ensures L(k, l)[i] != L(k, l)[p] {
      if i < p { Distinct(k, l, i, p); } else { Distinct(k, l, p, i); }
    }
  }

  lemma CutOk(k: Core, k': Core, l: ListId, p: nat)
    requires ListOk(k, l) && p < |L(k, l)| && |k'.ts| == |k.ts|
    requires L(k', l) == L(k, l)[..p] + L(k, l)[p + 1..]
    requires forall u: Tid {:trigger T(k', u)} :: u != L(k, l)[p] ==> T(k', u) == T(k, u)
    ensures ListOk(k', l)
  {
    var q := L(k, l);
    OnlyAt(k, l, p);
    CutAt(q, p);
    SubsequenceOk(k, k', l, seq(|q| - 1, i => if i < p then i else i + 1));
  }

  lemma RemoveFromUnlinks(k: Core, l: ListId, t: Tid)
    requires Links(k) && t in L(k, l)
    ensures LinksBut(RemoveFrom(k, l, t), Some(t)) && T(RemoveFrom(k, l, t), t).loc == None
  {
    var q := L(k, l);
    var p :| 0 <= p < |q| && q[p] == t;
    assert ListOk(k, l) && TcbLinked(k, t);
    OnlyAt(k, l, p);
    WithoutIs(q, t, p);
    CutAt(q, p);
    CutOk(k, RemoveFrom(k, l, t), l, p);
    RelinkKeepsOthers(k, RemoveFrom(k, l, t), l, t, None);
  }

  /** A thread that is on no list and not on a run queue becomes runnable. */
  lemma WakeLinks(k: Core, t: Tid, status: Status)
    requires LinksBut(k, Some(t)) && t < |k.ts| && T(k, t).loc == None
    requires !OnRunqueue(T(k, t).status) && OnRunqueue(status)
    ensures Links(SetStatus(k, t, status))
  {
    PushLinks(k, t);
    SetStatusOnly(Push(k, t), t, status);
  }

  /** The status of the excepted thread is brought in line with its link. */
  lemma SetStatusOnly(k: Core, t: Tid, status: Status)
    requires LinksBut(k, Some(t)) && t < |k.ts|
    ensures var k' := SetT(k, t, T(k, t).(status := status));
            LinksBut(k', Some(t)) && (StatusFits(T(k', t)) ==> Links(k'))
  {
    var k' := SetT(k, t, T(k, t).(status := status));
    forall l ensures ListOk(k', l) { assert ListOk(k, l) && L(k', l) == L(k, l); }
    forall u: Tid | u < |k'.ts| ensures TcbLinked(k', u) { assert TcbLinked(k, u); }
  }

  /** A runnable thread is the head of its run queue: the one _runqueue_pop takes out. */
  predicate IsHead(k: Core, t: Tid) {
    t < |k.ts| && OnRunqueue(T(k, t).status)
    && L(k, Rq(T(k, t).prio)) != [] && L(k, Rq(T(k, t).prio))[0] == t
  }

  /** A thread that blocks leaves its run queue, provided it is the head. */
  lemma BlockLinks(k: Core, t: Tid, status: Status)
    requires Links(k) && IsHead(k, t) && !OnRunqueue(status)
    ensures var k' := SetStatus(k, t, status);
            && LinksBut(k', Some(t))
            && T(k', t) == T(k, t).(status := status, loc := None)
            && (StatusFits(T(k', t)) ==> Links(k'))
  {
    RemoveHeadUnlinks(k, Rq(T(k, t).prio));
    SetStatusOnly(RemoveHead(k, Rq(T(k, t).prio)), t, status);
  }

  lemma BlockOnListLinks(k: Core, t: Tid, status: Status, l: ListId)
    requires Links(k) && IsHead(k, t) && !OnRunqueue(status) && !l.Rq?
    requires StatusFits(T(k, t).(status := status, loc := Some(l))) && !l.Senders?
    ensures Links(AddToList(SetStatus(k, t, status), l, t))
  {
    BlockLinks(k, t, status);
    AddToListLinks(SetStatus(k, t, status), l, t);
  }

  /** Members of a wait list are blocked. */
  lemma WaitersBlocked(k: Core, l: ListId, t: Tid)
    requires Links(k) && !l.Rq? && t in L(k, l)
    ensures t < |k.ts| && !OnRunqueue(T(k, t).status) && T(k, t).loc == Some(l)
  {
    assert ListOk(k, l);
  }

  lemma WakeHeadLinks(k: Core, l: ListId)
    requires Links(k) && !l.Rq?
    ensures Links(WakeHead(k, l))
  {
    if L(k, l) != [] {
      WaitersBlocked(k, l, L(k, l)[0]);
      RemoveHeadUnlinks(k, l);
      WakeLinks(RemoveHead(k, l), L(k, l)[0], Pending);
    }
  }

  lemma RotateLinks(k: Core, p: nat)
    requires Links(k)
    ensures Links(Rotate(k, p))
  {
    var l := Rq(p);
    var q := L(k, l);
    var k' := Rotate(k, p);
    if q != [] {
      var t := q[0];
      assert ListOk(k, l) && TcbLinked(k, t);
      RemoveHeadUnlinks(k, l);
      var k1 := RemoveHead(k, l);
      assert L(k1, l) == q[1..] && T(k1, t).prio == p;
      PushLinks(k1, t);
      RotateIsRepush(k, p);
      assert StatusFits(T(k, t));
    }
  }

  lemma RotateIsRepush(k: Core, p: nat)
    requires Links(k) && L(k, Rq(p)) != []
    ensures var t := L(k, Rq(p))[0];
            forall l {:trigger L(Rotate(k, p), l)} :: L(Rotate(k, p), l) == L(Push(RemoveHead(k, Rq(p)), t), l)
    ensures Rotate(k, p).ts == Push(RemoveHead(k, Rq(p)), L(k, Rq(p))[0]).ts
    ensures LinksBut(Push(RemoveHead(k, Rq(p)), L(k, Rq(p))[0]), None) ==> Links(Rotate(k, p))
  {
    var l := Rq(p);
    var t := L(k, l)[0];
    assert ListOk(k, l) && TcbLinked(k, t);
    var k1 := Push(RemoveHead(k, l), t);
    var k' := Rotate(k, p);
    assert T(k1, t) == T(k', t);
    assert k'.ts == k1.ts;
    assert forall l' :: L(k', l') == L(k1, l');
    if LinksBut(k1, None) {
      forall l' ensures ListOk(k', l') { assert ListOk(k1, l'); }
      forall u: Tid | u < |k'.ts| ensures TcbLinked(k', u) { assert TcbLinked(k1, u); }
    }
  }

  lemma AddThreadLinks(k: Core, prio: nat, pid: nat)
    requires Links(k) && prio < LEVELS
    ensures Links(AddThread(k, prio, pid))
  {
    var k' := AddThread(k, prio, pid);
    forall l ensures ListOk(k', l) { assert ListOk(k, l) && L(k', l) == L(k, l); }
    forall u: Tid | u < |k'.ts| ensures TcbLinked(k', u) && StatusFits(T(k', u)) {
      assert u < |k.ts| ==> TcbLinked(k, u) && T(k', u) == T(k, u);
      if u < |k.ts| { assert StatusFits(T(k, u)); }
    }
  }

  /** Nobody ahead of t in its run queue, or t on no list at all. */
  predicate MayChangePriority(k: Core, t: Tid) {
    t < |k.ts| && (IsHead(k, t) || T(k, t).loc == None)
  }

  lemma UnlinkedPriority(k: Core, t: Tid, prio: nat, x: Option<Tid>)
    requires LinksBut(k, x) && t < |k.ts| && T(k, t).loc == None && prio < LEVELS
    requires x == Some(t) || StatusFits(T(k, t).(prio := prio))
    ensures LinksBut(SetT(k, t, T(k, t).(prio := prio)), x)
  {
    var k' := SetT(k, t, T(k, t).(prio := prio));
    forall l ensures ListOk(k', l) { assert ListOk(k, l) && L(k', l) == L(k, l); NotListed(k, l, t, x); }
    forall u: Tid | u < |k'.ts| ensures TcbLinked(k', u) { assert TcbLinked(k, u); }
  }

  lemma ReprioritizeLinks(k: Core, t: Tid, prio: nat)
    requires Links(k) && MayChangePriority(k, t) && prio < LEVELS
    ensures Links(Reprioritize(k, t, prio))
  {
    assert StatusFits(T(k, t));
    if OnRunqueue(T(k, t).status) {
      RemoveHeadUnlinks(k, Rq(T(k, t).prio));
      var k1 := RemoveHead(k, Rq(T(k, t).prio));
      UnlinkedPriority(k1, t, prio, Some(t));
      PushLinks(SetT(k1, t, T(k1, t).(prio := prio)), t);
    } else {
      UnlinkedPriority(k, t, prio, None);
    }
  }
}
