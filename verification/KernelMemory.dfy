/** How the kernel stores lists and rings: one link per thread, list heads, and for every message
    queue two counters and an array; and what a single store does to the lists they represent. */
module KernelMemory {
  import opened KernelTypes
  import opened KernelSpec
  import opened KernelLinks
  import opened BitArithmetic
  import opened Cib

  /** list_node_t *: a null pointer, MUTEX_LOCKED, or the rq_entry of a thread. */
  datatype Link = Null | MutexLocked | To(thread: Tid)

  // ---------------------------------------------------------------- what the links represent

  /** From this link on, the links lead through q and then to `end`. */
  ghost predicate Leads(next: seq<Link>, from: Link, q: seq<Tid>, end: Link)
    decreases |q|
  {
    if q == [] then from == end
    else from == To(q[0]) && q[0] < |next| && Leads(next, next[q[0]], q[1..], end)
  }

  function Last(q: seq<Tid>): Tid
    requires q != []
  {
    q[|q| - 1]
  }

  /** A wait list ends with a null pointer, and an empty one has `nil` in its head; a run queue is
      circular, and its head points to its last member. */
  ghost predicate Represents(next: seq<Link>, head: Link, l: ListId, q: seq<Tid>, nil: Link) {
    if q == [] then head == nil
    else if l.Rq? then head == To(Last(q)) && Leads(next, To(q[0]), q, To(q[0]))
    else Leads(next, head, q, Null)
  }

  function Nil(l: ListId, locked: set<nat>): Link {
    if l.MutexQ? && l.mutex in locked then MutexLocked else Null
  }

  function Head(first: map<ListId, Link>, l: ListId): Link {
    if l in first then first[l] else Null
  }

  ghost predicate Rep(next: seq<Link>, first: map<ListId, Link>, k: Core, locked: set<nat>) {
    |next| == |k.ts| && forall l {:trigger L(k, l)} :: Represents(next, Head(first, l), l, L(k, l), Nil(l, locked))
  }

  predicate Distinct(q: seq<Tid>) {
    forall i, j :: 0 <= i < j < |q| ==> q[i] != q[j]
  }

  /** Members of a list exist, and are on no other list nor twice on this one. */
  ghost predicate Apart(k: Core) {
    forall l {:trigger L(k, l)} ::
        Distinct(L(k, l)) && forall t: Tid :: t in L(k, l) ==> t < |k.ts| && T(k, t).loc == Some(l)
  }

  /** The priorities whose run queue is not empty. */
  function NonEmpty(k: Core): set<nat> {
    set p: nat | p < LEVELS && L(k, Rq(p)) != []
  }

  lemma {:induction false} LeadsFrame(next: seq<Link>, next': seq<Link>, from: Link, q: seq<Tid>, end: Link)
    requires Leads(next, from, q, end) && |next'| == |next|
    requires forall t: Tid :: t in q && t < |next| ==> next'[t] == next[t]
    ensures Leads(next', from, q, end)
    decreases |q|
  {
    if q != [] {
      assert q[0] in q;
      LeadsFrame(next, next', next[q[0]], q[1..], end);
    }
  }

  lemma {:induction false} LeadsOn(next: seq<Link>, from: Link, a: seq<Tid>, mid: Link, b: seq<Tid>, end: Link)
    requires Leads(next, from, a, mid) && Leads(next, mid, b, end)
    ensures Leads(next, from, a + b, end)
    decreases |a|
  {
    if a == [] {
      assert a + b == b;
    } else {
      LeadsOn(next, next[a[0]], a[1..], mid, b, end);
      assert (a + b)[0] == a[0] && (a + b)[1..] == a[1..] + b;
    }
  }

  /** The last member of a gets another successor. */
  lemma {:induction false} LeadsElsewhere(next: seq<Link>, next': seq<Link>, from: Link, a: seq<Tid>, end: Link,
      end': Link)
    requires a != [] && Leads(next, from, a, end) && Distinct(a)
    requires Last(a) < |next| && next' == next[Last(a) := end']
    ensures Leads(next', from, a, end')
    decreases |a|
  {
    if |a| == 1 {
      assert a[1..] == [];
    } else {
      assert Last(a[1..]) == Last(a) && a[0] != Last(a);
      assert Distinct(a[1..]) by { assert forall i :: 0 <= i < |a[1..]| ==> a[1..][i] == a[i + 1]; }
      LeadsElsewhere(next, next', next[a[0]], a[1..], end, end');
    }
  }

  lemma {:induction false} LeadsToLast(next: seq<Link>, from: Link, a: seq<Tid>, end: Link)
    requires a != [] && Leads(next, from, a, end)
    ensures Last(a) < |next| && next[Last(a)] == end
    decreases |a|
  {
    if |a| > 1 {
      assert Last(a[1..]) == Last(a);
      LeadsToLast(next, next[a[0]], a[1..], end);
    }
  }

  /** Links of threads that are not on a list do not matter to it. */
  lemma RepresentsFrame(next: seq<Link>, next': seq<Link>, head: Link, l: ListId, q: seq<Tid>, nil: Link)
    requires Represents(next, head, l, q, nil) && |next'| == |next|
    requires forall t: Tid :: t in q && t < |next| ==> next'[t] == next[t]
    ensures Represents(next', head, l, q, nil)
  {
    if q != [] { LeadsFrame(next, next', if l.Rq? then To(q[0]) else head, q, if l.Rq? then To(q[0]) else Null); }
  }

  /** Nothing about list l changes. */
  predicate SameList(k: Core, k': Core, first: map<ListId, Link>, first': map<ListId, Link>, locked: set<nat>,
      locked': set<nat>, l: ListId) {
    L(k', l) == L(k, l) && Head(first', l) == Head(first, l) && Nil(l, locked') == Nil(l, locked)
  }

  /** Only list l and the links of its members and of t, which is on no other list, change. */
  lemma RepFrame(next: seq<Link>, next': seq<Link>, first: map<ListId, Link>, first': map<ListId, Link>,
                 k: Core, k': Core, locked: set<nat>, locked': set<nat>, l: ListId, t: Tid)
    requires Rep(next, first, k, locked) && Apart(k) && |k'.ts| == |k.ts| && |next'| == |next|
    requires T(k, t).loc == None || T(k, t).loc == Some(l)
    requires forall u: Tid :: u < |next| && u != t && T(k, u).loc != Some(l) ==> next'[u] == next[u]
    requires forall l' :: l' != l ==> SameList(k, k', first, first', locked, locked', l')
    requires Represents(next', Head(first', l), l, L(k', l), Nil(l, locked'))
    ensures Rep(next', first', k', locked')
  {
    forall l' ensures Represents(next', Head(first', l'), l', L(k', l'), Nil(l', locked')) {
      if l' != l {
        assert SameList(k, k', first, first', locked, locked', l') &&
          Represents(next, Head(first, l'), l', L(k, l'), Nil(l', locked));
        forall u: Tid | u in L(k, l') && u < |next| ensures next'[u] == next[u] { assert T(k, u).loc == Some(l'); }
        RepresentsFrame(next, next', Head(first, l'), l', L(k, l'), Nil(l', locked));
      }
    }
  }

  lemma ApartFrame(k: Core, k': Core, l: ListId, t: Tid)
    requires Apart(k) && |k'.ts| == |k.ts| && (T(k, t).loc == None || T(k, t).loc == Some(l))
    requires forall u: Tid {:trigger T(k', u)} :: u != t ==> T(k', u) == T(k, u)
    requires forall l' {:trigger L(k', l')} :: l' != l ==> L(k', l') == L(k, l')
    requires Distinct(L(k', l)) && forall u: Tid :: u in L(k', l) ==> u < |k.ts| && T(k', u).loc == Some(l)
    ensures Apart(k')
  {
    forall l' ensures Distinct(L(k', l')) &&
        forall u: Tid :: u in L(k', l') ==> u < |k'.ts| && T(k', u).loc == Some(l') {
      if l' != l {
        assert L(k', l') == L(k, l');
        assert t !in L(k, l');
      }
    }
  }

  lemma SameNonEmpty(k: Core, k': Core)
    requires forall p: nat :: p < LEVELS ==> (L(k', Rq(p)) == [] <==> L(k, Rq(p)) == [])
    ensures NonEmpty(k') == NonEmpty(k)
  {
  }

  // ---------------------------------------------------------------- what a store does to the lists

  lemma HeadRemoved(next: seq<Link>, first: map<ListId, Link>, first': map<ListId, Link>, k: Core, locked: set<nat>,
      l: ListId)
    requires Rep(next, first, k, locked) && Apart(k) && !l.Rq? && L(k, l) != []
    requires L(k, l)[0] < |next| && first' == first[l := next[L(k, l)[0]]]
    ensures Rep(next, first', RemoveHead(k, l), if l.MutexQ? then locked - {l.mutex} else locked)
    ensures Apart(RemoveHead(k, l)) && NonEmpty(RemoveHead(k, l)) == NonEmpty(k)
  {
    var q := L(k, l);
    var k' := RemoveHead(k, l);
    var locked' := if l.MutexQ? then locked - {l.mutex} else locked;
    assert Represents(next, Head(first, l), l, q, Nil(l, locked));
    assert q[0] in q && Leads(next, next[q[0]], q[1..], Null);
    forall l': ListId | l' != l ensures Nil(l', locked') == Nil(l', locked) { }
    assert L(k', l) == q[1..] && Represents(next, Head(first', l), l, q[1..], Nil(l, locked'));
    assert T(k, q[0]).loc == Some(l) && |k'.ts| == |k.ts|;
    forall o: ListId | o != l ensures SameList(k, k', first, first', locked, locked', o) { }
    RepFrame(next, next, first, first', k, k', locked, locked', l, q[0]);
    TailDistinct(q);
    forall u: Tid | u in q[1..] ensures u < |k.ts| && T(k', u).loc == Some(l) { assert u in q && u != q[0]; }
    ApartFrame(k, k', l, q[0]);
    SameNonEmpty(k, k');
  }

  lemma TailDistinct(q: seq<Tid>)
    requires Distinct(q) && q != []
    ensures Distinct(q[1..]) && q[0] !in q[1..]
  {
    assert forall i :: 0 <= i < |q[1..]| ==> q[1..][i] == q[i + 1];
  }

  /** No thread of q has a lower priority than this. */
  predicate NoneBelow(k: Core, q: seq<Tid>, prio: nat) {
    forall u: Tid :: u in q ==> T(k, u).prio <= prio
  }

  lemma PassedOne(k: Core, done: seq<Tid>, rest: seq<Tid>, prio: nat)
    requires rest != [] && NoneBelow(k, done, prio) && T(k, rest[0]).prio <= prio
    ensures NoneBelow(k, done + [rest[0]], prio) && done + rest == done + [rest[0]] + rest[1..]
  {
  }

  lemma AddedBetween(k: Core, l: ListId, done: seq<Tid>, rest: seq<Tid>, t: Tid)
    requires L(k, l) == done + rest && NoneBelow(k, done, T(k, t).prio) &&
        (rest != [] ==> T(k, rest[0]).prio > T(k, t).prio)
    ensures AddToList(k, l, t) == Tick(SetT(SetL(k, l, done + [t] + rest), t, Linked(T(k, t), l, k.clock)))
  {
    InsertBetween(k, done, rest, t);
  }

  lemma {:induction false} InsertBetween(k: Core, done: seq<Tid>, rest: seq<Tid>, t: Tid)
    requires forall u: Tid :: u in done ==> T(k, u).prio <= T(k, t).prio
    requires rest != [] ==> T(k, rest[0]).prio > T(k, t).prio
    ensures Insert(k, done + rest, t) == done + [t] + rest
    decreases |done|
  {
    if done == [] {
      assert done + rest == rest;
      assert done + [t] + rest == [t] + rest;
    } else {
      assert done[0] in done;
      InsertBetween(k, done[1..], rest, t);
      Unfold(done, [], rest);
      Unfold(done, [t], rest);
    }
  }

  lemma Unfold(a: seq<Tid>, b: seq<Tid>, c: seq<Tid>)
    requires a != []
    ensures a + b + c == [a[0]] + (a[1..] + b + c) && (a + c)[0] == a[0] && (a + c)[1..] == a[1..] + c
  {
  }

  /** t was linked between done and rest. */
  lemma Inserted(next: seq<Link>, next': seq<Link>, first: map<ListId, Link>, first': map<ListId, Link>,
                 k: Core, k': Core, locked: set<nat>, l: ListId, t: Tid, done: seq<Tid>, rest: seq<Tid>, mid: Link)
    requires Rep(next, first, k, locked) && Apart(k) && !l.Rq? && t < |k.ts| && T(k, t).loc == None &&
        L(k, l) == done + rest
    requires k' == Tick(SetT(SetL(k, l, done + [t] + rest), t, Linked(T(k, t), l, k.clock)))
    requires Leads(next, Head(first, l), done, mid) && Leads(next, mid, rest, Null)
    requires if done == [] then next' == next[t := mid] && first' == first[l := To(t)]
             else Last(done) < |next| && next' == next[t := mid][Last(done) := To(t)] && first' == first
    ensures Rep(next', first', k', if l.MutexQ? then locked - {l.mutex} else locked)
    ensures Apart(k') && NonEmpty(k') == NonEmpty(k)
  {
    var q' := done + [t] + rest;
    var locked' := if l.MutexQ? then locked - {l.mutex} else locked;
    assert t !in L(k, l) && Distinct(done + rest);
    InsertedLeads(next, next', Head(first, l), Head(first', l), done, rest, t, mid);
    assert q' != [] && L(k', l) == q' && Represents(next', Head(first', l), l, q', Nil(l, locked'));
    forall l': ListId | l' != l ensures Nil(l', locked') == Nil(l', locked) { }
    if done != [] { assert Last(done) in L(k, l); }
    forall o: ListId | o != l ensures SameList(k, k', first, first', locked, locked', o) { }
    RepFrame(next, next', first, first', k, k', locked, locked', l, t);
    InsertedApart(k, k', l, t, done, rest);
    SameNonEmpty(k, k');
  }

  lemma InsertedApart(k: Core, k': Core, l: ListId, t: Tid, done: seq<Tid>, rest: seq<Tid>)
    requires Apart(k) && t < |k.ts| && T(k, t).loc == None && L(k, l) == done + rest
    requires k' == Tick(SetT(SetL(k, l, done + [t] + rest), t, Linked(T(k, t), l, k.clock)))
    ensures Apart(k')
  {
    assert t !in L(k, l);
    InsertedDistinct(done, rest, t);
    assert L(k', l) == done + [t] + rest;
    ApartFrame(k, k', l, t);
  }

  lemma InsertedDistinct(a: seq<Tid>, b: seq<Tid>, t: Tid)
    requires Distinct(a + b) && t !in a + b
    ensures Distinct(a + [t] + b) && forall u :: u in a + [t] + b <==> u == t || u in a + b
  {
    var q, q' := a + b, a + [t] + b;
    assert forall i :: 0 <= i < |a| ==> q[i] == a[i] && q'[i] == a[i];
    assert forall i :: 0 <= i < |b| ==> q[|a| + i] == b[i] && q'[|a| + 1 + i] == b[i];
    assert q'[|a|] == t;
  }

  lemma InsertedLeads(next: seq<Link>, next': seq<Link>, head: Link, head': Link, a: seq<Tid>, b: seq<Tid>, t: Tid,
      mid: Link)
    requires Distinct(a + b) && t !in a + b && t < |next|
    requires Leads(next, head, a, mid) && Leads(next, mid, b, Null)
    requires if a == [] then next' == next[t := mid] && head' == To(t)
             else Last(a) < |next| && next' == next[t := mid][Last(a) := To(t)] && head' == head
    ensures Leads(next', head', a + [t] + b, Null)
  {
    Disjoint(a, b, t);
    LeadsFrame(next, next', mid, b, Null);
    assert [t][1..] == [];
    if a == [] {
      assert Leads(next', To(t), [t], mid);
      assert a + [t] + b == [t] + b;
      LeadsOn(next', To(t), [t], mid, b, Null);
    } else {
      LeadsFrame(next, next[t := mid], head, a, mid);
      LeadsElsewhere(next[t := mid], next', head, a, mid, To(t));
      assert Leads(next', To(t), [t], mid);
      LeadsOn(next', head, a, To(t), [t], mid);
      LeadsOn(next', head, a + [t], mid, b, Null);
    }
  }

  lemma Disjoint(a: seq<Tid>, b: seq<Tid>, t: Tid)
    requires Distinct(a + b) && t !in a + b
    ensures Distinct(a) && t !in a && t !in b && (a != [] ==> Last(a) !in b)
  {
    assert forall i :: 0 <= i < |a| ==> (a + b)[i] == a[i];
    assert forall i :: 0 <= i < |b| ==> (a + b)[|a| + i] == b[i];
  }

  lemma {:induction false} WithoutBetween(done: seq<Tid>, rest: seq<Tid>, t: Tid)
    requires t !in done && rest != [] && rest[0] == t
    ensures Without(done + rest, t) == done + rest[1..]
    decreases |done|
  {
    if done == [] {
      assert done + rest == rest;
    } else {
      WithoutBetween(done[1..], rest, t);
      Unfold(done, [], rest);
      Unfold(done, [], rest[1..]);
    }
  }

  /** t was taken out between done and the rest behind it. */
  lemma Unlinked(next: seq<Link>, next': seq<Link>, first: map<ListId, Link>, first': map<ListId, Link>,
                 k: Core, k': Core, locked: set<nat>, l: ListId, t: Tid, done: seq<Tid>, rest: seq<Tid>)
    requires Rep(next, first, k, locked) && Apart(k) && !l.Rq? && t < |k.ts| && L(k, l) == done + rest
    requires rest != [] && rest[0] == t && t !in done
    requires k' == SetT(SetL(k, l, done + rest[1..]), t, T(k, t).(loc := None))
    requires Leads(next, Head(first, l), done, To(t)) && Leads(next, To(t), rest, Null)
    requires if done == [] then next' == next && first' == first[l := next[t]]
             else Last(done) < |next| && next' == next[Last(done) := next[t]] && first' == first
    ensures Rep(next', first', k', if l.MutexQ? then locked - {l.mutex} else locked)
    ensures Apart(k') && NonEmpty(k') == NonEmpty(k)
  {
    var locked' := if l.MutexQ? then locked - {l.mutex} else locked;
    assert (done + rest)[|done|] == t;
    assert t in L(k, l) && Distinct(done + rest);
    UnlinkedLeads(next, next', Head(first, l), Head(first', l), done, rest, t);
    assert L(k', l) == done + rest[1..] && Represents(next', Head(first', l), l, done + rest[1..], Nil(l, locked'));
    forall l': ListId | l' != l ensures Nil(l', locked') == Nil(l', locked) { }
    if done != [] { assert (done + rest)[|done| - 1] == Last(done); assert Last(done) in L(k, l); }
    forall o: ListId | o != l ensures SameList(k, k', first, first', locked, locked', o) { }
    RepFrame(next, next', first, first', k, k', locked, locked', l, t);
    UnlinkedDistinct(done, rest, t);
    ApartFrame(k, k', l, t);
    SameNonEmpty(k, k');
  }

  lemma UnlinkedDistinct(a: seq<Tid>, b: seq<Tid>, t: Tid)
    requires Distinct(a + b) && b != [] && b[0] == t && t !in a
    ensures Distinct(a + b[1..]) && forall u :: u in a + b[1..] ==> u != t && u in a + b
  {
    var q, q' := a + b, a + b[1..];
    assert forall i :: 0 <= i < |a| ==> q[i] == a[i] && q'[i] == a[i];
    assert forall i :: 0 <= i < |b[1..]| ==> q[|a| + 1 + i] == b[1..][i] && q'[|a| + i] == b[1..][i];
    assert q[|a|] == t;
  }

  lemma UnlinkedLeads(next: seq<Link>, next': seq<Link>, head: Link, head': Link, a: seq<Tid>, b: seq<Tid>, t: Tid)
    requires Distinct(a + b) && b != [] && b[0] == t && t !in a && t < |next|
    requires Leads(next, head, a, To(t)) && Leads(next, To(t), b, Null)
    requires if a == [] then next' == next && head' == next[t]
             else Last(a) < |next| && next' == next[Last(a) := next[t]] && head' == head
    ensures if a + b[1..] == [] then head' == Null else Leads(next', head', a + b[1..], Null)
  {
    assert Leads(next, next[t], b[1..], Null);
    if a == [] {
      assert a + b[1..] == b[1..];
    } else {
      assert forall i :: 0 <= i < |a| ==> (a + b)[i] == a[i];
      assert forall i :: 0 <= i < |b| ==> (a + b)[|a| + i] == b[i];
      forall i | 0 <= i < |b[1..]| ensures b[1..][i] != Last(a) { assert (a + b)[|a| - 1] != (a + b)[|a| + 1 + i]; }
      LeadsElsewhere(next, next', head, a, To(t), next[t]);
      LeadsFrame(next, next', next[t], b[1..], Null);
      LeadsOn(next', head, a, next[t], b[1..], Null);
    }
  }

  // ---------------------------------------------------------------- circular lists

  lemma Pushed(next: seq<Link>, next': seq<Link>, first: map<ListId, Link>, first': map<ListId, Link>,
               k: Core, k': Core, locked: set<nat>, t: Tid, p: nat)
    requires Rep(next, first, k, locked) && Apart(k) && t < |k.ts| && T(k, t).loc == None && p == T(k, t).prio < LEVELS
    requires k' == Push(k, t) && first' == first[Rq(p) := To(t)]
    requires var q := L(k, Rq(p));
             if q == [] then next' == next[t := To(t)]
             else Last(q) < |next| && next[Last(q)] == To(q[0]) && next' == next[t := To(q[0])][Last(q) := To(t)]
    ensures Rep(next', first', k', locked) && Apart(k') && NonEmpty(k') == NonEmpty(k) + {p}
  {
    var q := L(k, Rq(p));
    var q' := q + [t];
    assert t !in q && Represents(next, Head(first, Rq(p)), Rq(p), q, Null);
    PushedLeads(next, next', q, t);
    assert L(k', Rq(p)) == q' && Last(q') == t && q'[0] == (if q == [] then t else q[0]);
    assert Represents(next', Head(first', Rq(p)), Rq(p), q', Null);
    if q != [] { assert Last(q) in q; }
    forall o: ListId | o != Rq(p) ensures SameList(k, k', first, first', locked, locked, o) { }
    RepFrame(next, next', first, first', k, k', locked, locked, Rq(p), t);
    InsertedDistinct(q, [], t);
    assert q + [t] + [] == q' && q + [] == q;
    ApartFrame(k, k', Rq(p), t);
  }

  lemma PushedLeads(next: seq<Link>, next': seq<Link>, q: seq<Tid>, t: Tid)
    requires Distinct(q) && t !in q && t < |next|
    requires if q == [] then next' == next[t := To(t)]
             else
               && Leads(next, To(q[0]), q, To(q[0])) && Last(q) < |next|
               && next' == next[t := To(q[0])][Last(q) := To(t)]
    ensures var q' := q + [t]; Leads(next', To(q'[0]), q', To(q'[0]))
  {
    assert [t][1..] == [];
    if q == [] {
      assert q + [t] == [t];
      assert Leads(next', To(t), [t], To(t));
    } else {
      assert Last(q) in q;
      LeadsFrame(next, next[t := To(q[0])], To(q[0]), q, To(q[0]));
      LeadsElsewhere(next[t := To(q[0])], next', To(q[0]), q, To(q[0]), To(t));
      assert Leads(next', To(t), [t], To(q[0]));
      LeadsOn(next', To(q[0]), q, To(t), [t], To(q[0]));
      assert (q + [t])[0] == q[0];
    }
  }

  lemma Popped(next: seq<Link>, next': seq<Link>, first: map<ListId, Link>, first': map<ListId, Link>,
               k: Core, k': Core, locked: set<nat>, p: nat)
    requires Rep(next, first, k, locked) && Apart(k) && p < LEVELS && L(k, Rq(p)) != [] && k' == RemoveHead(k, Rq(p))
    requires var q := L(k, Rq(p));
             && Last(q) < |next| && q[0] < |next| && next[Last(q)] == To(q[0])
             && if To(Last(q)) == To(q[0]) then next' == next && first' == first[Rq(p) := Null]
                else next' == next[Last(q) := next[q[0]]] && first' == first
    ensures Rep(next', first', k', locked) && Apart(k')
    ensures NonEmpty(k') == if L(k', Rq(p)) == [] then NonEmpty(k) - {p} else NonEmpty(k)
  {
    var q := L(k, Rq(p));
    assert Distinct(q) && Represents(next, Head(first, Rq(p)), Rq(p), q, Null) && q[0] in q && Last(q) in q;
    TailDistinct(q);
    PoppedLeads(next, next', q);
    assert L(k', Rq(p)) == q[1..] && Represents(next', Head(first', Rq(p)), Rq(p), q[1..], Null);
    forall o: ListId | o != Rq(p) ensures SameList(k, k', first, first', locked, locked, o) { }
    RepFrame(next, next', first, first', k, k', locked, locked, Rq(p), q[0]);
    forall u: Tid | u in q[1..] ensures u < |k.ts| && T(k', u).loc == Some(Rq(p)) { assert u in q && u != q[0]; }
    ApartFrame(k, k', Rq(p), q[0]);
  }

  lemma PoppedLeads(next: seq<Link>, next': seq<Link>, q: seq<Tid>)
    requires Distinct(q) && q != [] && Leads(next, To(q[0]), q, To(q[0])) && Last(q) < |next| && q[0] < |next|
    requires if Last(q) == q[0] then next' == next else next' == next[Last(q) := next[q[0]]]
    ensures Last(q) == q[0] <==> q[1..] == []
    ensures q[1..] != [] ==> Last(q[1..]) == Last(q) && Leads(next', To(q[1]), q[1..], To(q[1]))
  {
    TailDistinct(q);
    if |q| > 1 {
      assert q[1..][0] == q[1] && Last(q[1..]) == Last(q);
      assert Leads(next, next[q[0]], q[1..], To(q[0]));
      LeadsElsewhere(next, next', next[q[0]], q[1..], To(q[0]), To(q[1]));
    }
  }

  lemma Advanced(next: seq<Link>, first: map<ListId, Link>, first': map<ListId, Link>, k: Core, k': Core,
      locked: set<nat>, p: nat)
    requires Rep(next, first, k, locked) && Apart(k) && p < LEVELS && L(k, Rq(p)) != [] && k' == Rotate(k, p)
    requires first' == first[Rq(p) := To(L(k, Rq(p))[0])]
    ensures Rep(next, first', k', locked) && Apart(k') && NonEmpty(k') == NonEmpty(k)
  {
    var q := L(k, Rq(p));
    var q' := q[1..] + [q[0]];
    assert Distinct(q) && Represents(next, Head(first, Rq(p)), Rq(p), q, Null) && q[0] in q;
    AdvancedLeads(next, q);
    forall l: ListId ensures L(k', l) == if l == Rq(p) then q' else L(k, l) { }
    forall u: Tid ensures T(k', u) == if u == q[0] then T(k, u).(ticket := k.clock) else T(k, u) { }
    forall o: ListId | o != Rq(p) ensures SameList(k, k', first, first', locked, locked, o) { }
    RepFrame(next, next, first, first', k, k', locked, locked, Rq(p), q[0]);
    TailDistinct(q);
    InsertedDistinct(q[1..], [], q[0]);
    assert q[1..] + [q[0]] + [] == q' && q[1..] + [] == q[1..];
    forall u: Tid | u in q' ensures u < |k.ts| && T(k', u).loc == Some(Rq(p)) { assert u in q; }
    ApartFrame(k, k', Rq(p), q[0]);
    SameNonEmpty(k, k');
  }

  lemma AdvancedLeads(next: seq<Link>, q: seq<Tid>)
    requires q != [] && Leads(next, To(q[0]), q, To(q[0]))
    ensures var q' := q[1..] + [q[0]]; Leads(next, To(q'[0]), q', To(q'[0]))
  {
    var q' := q[1..] + [q[0]];
    assert [q[0]][1..] == [];
    assert Leads(next, next[q[0]], q[1..], To(q[0])) && Leads(next, To(q[0]), [q[0]], next[q[0]]);
    LeadsOn(next, next[q[0]], q[1..], To(q[0]), [q[0]], next[q[0]]);
    assert Leads(next, next[q[0]], q', next[q[0]]);
    assert next[q[0]] == To(q'[0]);
  }

  lemma RecordKeeps(next: seq<Link>, first: map<ListId, Link>, k: Core, k': Core, lh: set<nat>, t: Tid, tcb: Tcb)
    requires Rep(next, first, k, lh) && Apart(k) && t < |k.ts| && k' == SetT(k, t, tcb) && tcb.loc == T(k, t).loc
    ensures Rep(next, first, k', lh) && Apart(k') && NonEmpty(k') == NonEmpty(k)
  {
    forall u: Tid ensures T(k', u).loc == T(k, u).loc { }
    forall l ensures Represents(next, Head(first, l), l, L(k', l), Nil(l, lh)) && L(k', l) == L(k, l) {
      assert Represents(next, Head(first, l), l, L(k, l), Nil(l, lh));
    }
    SameNonEmpty(k, k');
  }

  lemma HeadExists(k: Core, l: ListId)
    requires Apart(k)
    ensures L(k, l) != [] ==> L(k, l)[0] < |k.ts|
  {
    assert L(k, l) != [] ==> L(k, l)[0] in L(k, l);
  }

  lemma Added(next: seq<Link>, next': seq<Link>, first: map<ListId, Link>, k: Core, k': Core, lh: set<nat>)
    requires Rep(next, first, k, lh) && Apart(k) && next' == next + [Null]
    requires |k'.ts| == |k.ts| + 1 && k'.lists == k.lists && k'.ts[..|k.ts|] == k.ts
    ensures Rep(next', first, k', lh) && Apart(k') && NonEmpty(k') == NonEmpty(k)
  {
    forall u: Tid | u < |k.ts| ensures T(k', u) == T(k, u) { assert k'.ts[..|k.ts|][u] == k.ts[u]; }
    forall l ensures Represents(next', Head(first, l), l, L(k', l), Nil(l, lh)) && L(k', l) == L(k, l) {
      assert Represents(next, Head(first, l), l, L(k, l), Nil(l, lh));
      LongerFrame(next, Head(first, l), l, L(k, l), Nil(l, lh));
    }
    SameNonEmpty(k, k');
  }

  lemma {:induction false} LeadsLonger(next: seq<Link>, from: Link, q: seq<Tid>, end: Link)
    requires Leads(next, from, q, end)
    ensures Leads(next + [Null], from, q, end)
    decreases |q|
  {
    if q != [] { LeadsLonger(next, next[q[0]], q[1..], end); }
  }

  lemma LongerFrame(next: seq<Link>, head: Link, l: ListId, q: seq<Tid>, nil: Link)
    requires Represents(next, head, l, q, nil)
    ensures Represents(next + [Null], head, l, q, nil)
  {
    if q != [] { LeadsLonger(next, if l.Rq? then To(q[0]) else head, q, if l.Rq? then To(q[0]) else Null); }
  }

  lemma WordKeeps(next: seq<Link>, first: map<ListId, Link>, first': map<ListId, Link>, k: Core, lh: set<nat>,
      lh': set<nat>, m: nat)
    requires Rep(next, first, k, lh) && L(k, MutexQ(m)) == []
    requires first' == first[MutexQ(m) := if m in lh' then MutexLocked else Null]
    requires forall i :: i != m ==> (i in lh <==> i in lh')
    ensures Rep(next, first', k, lh')
  {
    forall l ensures Represents(next, Head(first', l), l, L(k, l), Nil(l, lh')) {
      assert Represents(next, Head(first, l), l, L(k, l), Nil(l, lh));
    }
  }

  /** While threads wait, the head of a mutex points to the first of them, locked or not. */
  lemma WaitersHideLock(next: seq<Link>, first: map<ListId, Link>, k: Core, locked: set<nat>, m: nat)
    requires Rep(next, first, k, locked - {m}) && L(k, MutexQ(m)) != []
    ensures Rep(next, first, k, locked)
  {
    forall l ensures Represents(next, Head(first, l), l, L(k, l), Nil(l, locked)) {
      assert Represents(next, Head(first, l), l, L(k, l), Nil(l, locked - {m}));
    }
  }

  lemma Unmoved(next: seq<Link>, next': seq<Link>, first: map<ListId, Link>, first': map<ListId, Link>, k: Core,
      k': Core)
    requires next' == next && first' == first && k' == k
    ensures forall lh :: Rep(next, first, k, lh) ==> Rep(next', first', k', lh)
  {
  }

  lemma Ticked(next: seq<Link>, first: map<ListId, Link>, k: Core, k': Core, lh: set<nat>)
    requires Rep(next, first, k, lh) && Apart(k) && k'.ts == k.ts && k'.lists == k.lists
    ensures Rep(next, first, k', lh) && Apart(k') && NonEmpty(k') == NonEmpty(k)
  {
    forall u: Tid ensures T(k', u) == T(k, u) { }
    forall l ensures L(k', l) == L(k, l) && Represents(next, Head(first, l), l, L(k', l), Nil(l, lh)) {
      assert Represents(next, Head(first, l), l, L(k, l), Nil(l, lh));
    }
    SameNonEmpty(k, k');
  }

  // ---------------------------------------------------------------- rings of messages

  /** A message queue, of a thread or of a mailbox: the counters, and the array that they index. */
  datatype MsgRing = MsgRing(cib: Counters, items: seq<Msg>)

  /** The ring holds these messages, oldest first. */
  ghost predicate RingHolds(r: MsgRing, cap: nat, q: seq<Msg>) {
    |r.items| == cap && exists n: nat :: n != 31 && Holds(r.cib, r.items, q, n)
  }

  /** The oldest message leaves the ring, */
  function GetFrom(r: MsgRing): MsgRing {
    r.(cib := AfterGet(r.cib))
  }

  /** and another one comes in. */
  function PutInto(r: MsgRing, m: Msg): MsgRing
    requires FreeSlot(r.cib) < |r.items|
  {
    MsgRing(AfterPut(r.cib), r.items[FreeSlot(r.cib) := m])
  }

  lemma RingTests(r: MsgRing, cap: nat, q: seq<Msg>)
    requires RingHolds(r, cap, q)
    ensures r.cib.read < UINTS && |q| <= cap && (Full(r.cib) <==> |q| >= cap) && (Avail(r.cib) != 0 <==> q != [])
  {
    var n: nat :| n != 31 && Holds(r.cib, r.items, q, n);
    FullIs(r.cib, r.items, q, n);
  }

  lemma RingGets(r: MsgRing, cap: nat, q: seq<Msg>)
    requires RingHolds(r, cap, q) && q != []
    ensures ReadSlot(r.cib) < |r.items| && r.items[ReadSlot(r.cib)] == q[0] && RingHolds(GetFrom(r), cap, q[1..])
  {
    var n: nat :| n != 31 && Holds(r.cib, r.items, q, n);
    ReadsFirst(r.cib, r.items, q, n);
    GetHolds(r.cib, r.items, q, n);
  }

  lemma RingPuts(r: MsgRing, cap: nat, q: seq<Msg>, m: Msg)
    requires RingHolds(r, cap, q) && |q| < cap
    ensures FreeSlot(r.cib) < |r.items| && RingHolds(PutInto(r, m), cap, q + [m])
  {
    var n: nat :| n != 31 && Holds(r.cib, r.items, q, n);
    PutHolds(r.cib, r.items, q, n, m);
  }

  lemma RingStarts(items: seq<Msg>)
    requires IsSize(|items|)
    ensures RingHolds(MsgRing(Fresh(|items|), items), |items|, [])
  {
    if |items| == 0 {
      FreshHolds(items, 32);
    } else {
      var n: nat :| n < 31 && |items| == Pow2(n);
      FreshHolds(items, n);
    }
  }

  /** Every thread's ring holds its message queue. */
  ghost predicate QueuesHold(ts: seq<Tcb>, queues: seq<MsgRing>) {
    |queues| == |ts| && forall t: Tid {:trigger queues[t]} :: t < |ts| ==> RingHolds(queues[t], ts[t].cap, ts[t].queue)
  }

  /** Every mailbox's ring holds its messages. */
  ghost predicate BoxesHold(mboxes: map<nat, Mbox>, rings: map<nat, MsgRing>) {
    forall b {:trigger b in rings} :: b in mboxes ==> b in rings && RingHolds(rings[b], mboxes[b].cap, mboxes[b].ring)
  }

  lemma BoxHolds(mboxes: map<nat, Mbox>, rings: map<nat, MsgRing>, b: nat)
    requires BoxesHold(mboxes, rings) && b in mboxes
    ensures b in rings && RingHolds(rings[b], mboxes[b].cap, mboxes[b].ring)
  {
    assert b in rings;
  }

  /** The record of a thread changes, and its ring with it. */
  lemma QueuesKeep(ts: seq<Tcb>, queues: seq<MsgRing>, t: Tid, y: Tcb, r: MsgRing)
    requires QueuesHold(ts, queues) && t < |ts| && RingHolds(r, y.cap, y.queue)
    ensures QueuesHold(ts[t := y], queues[t := r])
  {
    var ts', queues' := ts[t := y], queues[t := r];
    forall u: Tid {:trigger queues'[u]} | u < |ts| ensures RingHolds(queues'[u], ts'[u].cap, ts'[u].queue) {
      if u != t { assert RingHolds(queues[u], ts[u].cap, ts[u].queue); }
    }
  }

  /** The record of a thread changes, but not its message queue. */
  lemma QueuesStay(ts: seq<Tcb>, queues: seq<MsgRing>, t: Tid, y: Tcb)
    requires QueuesHold(ts, queues) && t < |ts| && y.cap == ts[t].cap && y.queue == ts[t].queue
    ensures QueuesHold(ts[t := y], queues)
  {
    assert RingHolds(queues[t], ts[t].cap, ts[t].queue);
    QueuesKeep(ts, queues, t, y, queues[t]);
    assert queues[t := queues[t]] == queues;
  }

  lemma QueuesGrow(ts: seq<Tcb>, queues: seq<MsgRing>, y: Tcb)
    requires QueuesHold(ts, queues) && y.cap == 0 && y.queue == []
    ensures QueuesHold(ts + [y], queues + [MsgRing(Fresh(0), [])])
  {
    RingStarts([]);
    var ts', queues' := ts + [y], queues + [MsgRing(Fresh(0), [])];
    forall u: Tid {:trigger queues'[u]} | u < |ts'| ensures RingHolds(queues'[u], ts'[u].cap, ts'[u].queue) {
      if u < |ts| { assert RingHolds(queues[u], ts[u].cap, ts[u].queue); }
    }
  }

  lemma BoxesKeep(mboxes: map<nat, Mbox>, rings: map<nat, MsgRing>, b: nat, y: Mbox, r: MsgRing)
    requires BoxesHold(mboxes, rings) && RingHolds(r, y.cap, y.ring)
    ensures BoxesHold(mboxes[b := y], rings[b := r])
  {
    var mboxes', rings' := mboxes[b := y], rings[b := r];
    forall i {:trigger i in rings'} | i in mboxes'
      ensures i in rings' && RingHolds(rings'[i], mboxes'[i].cap, mboxes'[i].ring)
    {
      if i != b { BoxHolds(mboxes, rings, i); }
    }
  }

  lemma BoxesStay(mboxes: map<nat, Mbox>, rings: map<nat, MsgRing>, b: nat, y: Mbox)
    requires BoxesHold(mboxes, rings) && b in mboxes && y.cap == mboxes[b].cap && y.ring == mboxes[b].ring
    ensures BoxesHold(mboxes[b := y], rings)
  {
    BoxHolds(mboxes, rings, b);
    BoxesKeep(mboxes, rings, b, y, rings[b]);
    assert rings[b := rings[b]] == rings;
  }

  /** One thread, which is linked to itself in its run queue. */
  lemma FirstThread(k: Core, next: seq<Link>, first: map<ListId, Link>, prio: nat)
    requires |k.ts| == 1 && k.ts[0].loc == Some(Rq(prio)) && k.lists == map[Rq(prio) := [0]] && prio < LEVELS
    requires next == [To(0)] && first == map[Rq(prio) := To(0)]
    ensures Rep(next, first, k, {}) && Apart(k) && NonEmpty(k) == {prio}
  {
    assert [0][1..] == [];
    forall l ensures L(k, l) == (if l == Rq(prio) then [0] else []) &&
        Represents(next, Head(first, l), l, L(k, l), Nil(l, {})) { }
  }
}
