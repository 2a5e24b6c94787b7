/** The merge sort of circular lists: it works on the links alone, bottom up, merging runs of
    neighbours until one run is left. */
module ClistSort {

  // ---------------------------------------------------------------- the order that the sort establishes

  /** What clist_sort asks of its comparator, on the members of the list. */
  ghost predicate Preorder<T>(cmp: (T, T) -> int, s: seq<T>) {
    && (forall x, y {:trigger cmp(x, y)} :: x in s && y in s ==> cmp(x, y) <= 0 || cmp(y, x) <= 0)
    && (forall x, y, z {:trigger cmp(x, y), cmp(y, z)} ::
       x in s && y in s && z in s && cmp(x, y) <= 0 && cmp(y, z) <= 0 ==> cmp(x, z) <= 0)
  }

  /** The position of x. */
  function Rank<T(==)>(s: seq<T>, x: T): nat {
    if s == [] || s[0] == x then 0 else 1 + Rank(s[1..], x)
  }

  /** x has to come before y, if `input` is to be sorted by a stable sort. */
  ghost predicate Ahead<T>(cmp: (T, T) -> int, input: seq<T>, x: T, y: T) {
    cmp(x, y) <= 0 && (cmp(y, x) <= 0 ==> Rank(input, x) < Rank(input, y))
  }

  ghost predicate Ordered<T>(cmp: (T, T) -> int, input: seq<T>, s: seq<T>) {
    forall i, j :: 0 <= i < j < |s| ==> Ahead(cmp, input, s[i], s[j])
  }

  ghost predicate NoDup<T>(s: seq<T>) {
    forall i, j :: 0 <= i < j < |s| ==> s[i] != s[j]
  }

  lemma {:induction false} RankIsPosition<T>(s: seq<T>, i: nat)
    requires NoDup(s) && i < |s|
    ensures Rank(s, s[i]) == i
  {
    if i > 0 {
      assert s[1..][i - 1] == s[i] && s[0] != s[i];
      assert NoDup(s[1..]) by { assert forall j :: 0 <= j < |s[1..]| ==> s[1..][j] == s[j + 1]; }
      RankIsPosition(s[1..], i - 1);
    }
  }

  // ---------------------------------------------------------------- merging

  /** The merge of two runs: on a tie the member of the first one comes first. */
  function Merge<T>(cmp: (T, T) -> int, a: seq<T>, b: seq<T>): seq<T>
    decreases |a| + |b|
  {
    if a == [] then b
    else if b == [] then a
    else if cmp(a[0], b[0]) <= 0 then [a[0]] + Merge(cmp, a[1..], b)
    else [b[0]] + Merge(cmp, a, b[1..])
  }

  lemma {:induction false} MergeSameMembers<T>(cmp: (T, T) -> int, a: seq<T>, b: seq<T>)
    ensures multiset(Merge(cmp, a, b)) == multiset(a) + multiset(b) && |Merge(cmp, a, b)| == |a| + |b|
    decreases |a| + |b|
  {
    if a != [] && b != [] {
      if cmp(a[0], b[0]) <= 0 {
        MergeSameMembers(cmp, a[1..], b);
        assert a == [a[0]] + a[1..];
      } else {
        MergeSameMembers(cmp, a, b[1..]);
        assert b == [b[0]] + b[1..];
      }
    }
  }

  lemma MergeMembers<T>(cmp: (T, T) -> int, a: seq<T>, b: seq<T>, x: T)
    ensures x in Merge(cmp, a, b) <==> x in a || x in b
  {
    MergeSameMembers(cmp, a, b);
    assert x in Merge(cmp, a, b) <==> x in multiset(Merge(cmp, a, b));
    assert x in a <==> x in multiset(a);
    assert x in b <==> x in multiset(b);
  }

  /** All of a stood before all of b. */
  ghost predicate Earlier<T>(input: seq<T>, a: seq<T>, b: seq<T>) {
    forall x, y :: x in a && y in b ==> Rank(input, x) < Rank(input, y)
  }

  lemma OrderedCons<T>(cmp: (T, T) -> int, input: seq<T>, x: T, s: seq<T>)
    requires Ordered(cmp, input, s) && forall y :: y in s ==> Ahead(cmp, input, x, y)
    ensures Ordered(cmp, input, [x] + s)
  {
  }

  lemma OrderedTail<T>(cmp: (T, T) -> int, input: seq<T>, s: seq<T>)
    requires s != [] && Ordered(cmp, input, s)
    ensures Ordered(cmp, input, s[1..]) && forall y :: y in s[1..] ==> Ahead(cmp, input, s[0], y) && y in s
  {
    assert forall i :: 0 <= i < |s[1..]| ==> s[1..][i] == s[i + 1];
  }

  lemma {:induction false} MergeOrders<T>(cmp: (T, T) -> int, input: seq<T>, a: seq<T>, b: seq<T>)
    requires Preorder(cmp, input) && Ordered(cmp, input, a) && Ordered(cmp, input, b) && Earlier(input, a, b)
    requires (forall x :: x in a ==> x in input) && (forall x :: x in b ==> x in input)
    ensures Ordered(cmp, input, Merge(cmp, a, b))
    decreases |a| + |b|
  {
    if a != [] && b != [] {
      OrderedTail(cmp, input, a);
      OrderedTail(cmp, input, b);
      if cmp(a[0], b[0]) <= 0 {
        MergeOrders(cmp, input, a[1..], b);
        forall y | y in Merge(cmp, a[1..], b) ensures Ahead(cmp, input, a[0], y) {
          MergeMembers(cmp, a[1..], b, y);
          if y in b { LeftIsAhead(cmp, input, a, b, y); }
        }
        OrderedCons(cmp, input, a[0], Merge(cmp, a[1..], b));
      } else {
        MergeOrders(cmp, input, a, b[1..]);
        forall y | y in Merge(cmp, a, b[1..]) ensures Ahead(cmp, input, b[0], y) {
          MergeMembers(cmp, a, b[1..], y);
          if y in a { RightIsAhead(cmp, input, a, b, y); }
        }
        OrderedCons(cmp, input, b[0], Merge(cmp, a, b[1..]));
      }
    }
  }

  lemma LeftIsAhead<T>(cmp: (T, T) -> int, input: seq<T>, a: seq<T>, b: seq<T>, y: T)
    requires Preorder(cmp, input) && Ordered(cmp, input, b) && Earlier(input, a, b)
    requires (forall x :: x in a ==> x in input) && (forall x :: x in b ==> x in input)
    requires a != [] && y in b && cmp(a[0], b[0]) <= 0
    ensures Ahead(cmp, input, a[0], y)
  {
    assert a[0] in a;
    var i :| 0 <= i < |b| && b[i] == y;
    if i > 0 { assert Ahead(cmp, input, b[0], b[i]) && b[0] in b; }
  }

  lemma RightIsAhead<T>(cmp: (T, T) -> int, input: seq<T>, a: seq<T>, b: seq<T>, y: T)
    requires Preorder(cmp, input) && Ordered(cmp, input, a)
    requires (forall x :: x in a ==> x in input) && (forall x :: x in b ==> x in input)
    requires b != [] && y in a && cmp(a[0], b[0]) > 0
    ensures Ahead(cmp, input, b[0], y)
  {
    assert b[0] in b && a[0] in a;
    var i :| 0 <= i < |a| && a[i] == y;
    if i > 0 { assert Ahead(cmp, input, a[0], a[i]); }
  }

  // ---------------------------------------------------------------- runs

  function Flat<T>(runs: seq<seq<T>>): seq<T> {
    if runs == [] then [] else runs[0] + Flat(runs[1..])
  }

  /** One pass: each run is merged with its neighbour. */
  function Pass<T>(cmp: (T, T) -> int, runs: seq<seq<T>>): seq<seq<T>> {
    if |runs| <= 1 then runs
    else [Merge(cmp, runs[0], runs[1])] + Pass(cmp, runs[2..])
  }

  /** Runs of n members, but for the last one, which may be shorter. */
  ghost predicate Sized<T>(runs: seq<seq<T>>, n: nat) {
    forall i :: 0 <= i < |runs| ==> 0 < |runs[i]| <= n && (i + 1 < |runs| ==> |runs[i]| == n)
  }

  /** Ordered runs, which follow one another as in the input. */
  ghost predicate Sorted<T>(cmp: (T, T) -> int, input: seq<T>, runs: seq<seq<T>>) {
    && (forall i :: 0 <= i < |runs| ==> Ordered(cmp, input, runs[i]) && forall x :: x in runs[i] ==> x in input)
    && (forall i, j :: 0 <= i < j < |runs| ==> Earlier(input, runs[i], runs[j]))
  }

  ghost predicate AllLater<T>(input: seq<T>, a: seq<T>, runs: seq<seq<T>>) {
    forall i :: 0 <= i < |runs| ==> Earlier(input, a, runs[i])
  }

  lemma {:induction false} FlatAppend<T>(a: seq<seq<T>>, b: seq<seq<T>>)
    ensures Flat(a + b) == Flat(a) + Flat(b)
  {
    if a == [] {
      assert a + b == b;
    } else {
      assert (a + b)[0] == a[0] && (a + b)[1..] == a[1..] + b;
      FlatAppend(a[1..], b);
    }
  }

  lemma FlatOne<T>(run: seq<T>)
    ensures Flat([run]) == run
  {
    assert [run][1..] == [];
  }

  lemma {:induction false} PassSameMembers<T>(cmp: (T, T) -> int, runs: seq<seq<T>>)
    ensures multiset(Flat(Pass(cmp, runs))) == multiset(Flat(runs)) && |Flat(Pass(cmp, runs))| == |Flat(runs)|
    decreases |runs|
  {
    if |runs| > 1 {
      PassSameMembers(cmp, runs[2..]);
      MergeSameMembers(cmp, runs[0], runs[1]);
      assert runs[1..][1..] == runs[2..];
      var m := Merge(cmp, runs[0], runs[1]);
      assert Pass(cmp, runs)[1..] == Pass(cmp, runs[2..]);
      assert Flat(Pass(cmp, runs)) == m + Flat(Pass(cmp, runs[2..]));
      assert Flat(runs) == runs[0] + (runs[1] + Flat(runs[2..]));
    }
  }

  /** A pass doubles the length of the runs and halves their number. */
  lemma {:induction false} PassSizes<T>(cmp: (T, T) -> int, runs: seq<seq<T>>, n: nat)
    requires Sized(runs, n)
    ensures Sized(Pass(cmp, runs), 2 * n) && |Pass(cmp, runs)| == (|runs| + 1) / 2
    decreases |runs|
  {
    if |runs| > 1 {
      MergeSameMembers(cmp, runs[0], runs[1]);
      assert forall i :: 0 <= i < |runs[2..]| ==> runs[2..][i] == runs[i + 2];
      PassSizes(cmp, runs[2..], n);
    }
  }

  lemma SortedTail<T>(cmp: (T, T) -> int, input: seq<T>, runs: seq<seq<T>>)
    requires Sorted(cmp, input, runs) && |runs| > 1
    ensures Sorted(cmp, input, runs[2..]) && AllLater(input, runs[0], runs[2..]) && AllLater(input, runs[1], runs[2..])
  {
    assert forall i :: 0 <= i < |runs[2..]| ==> runs[2..][i] == runs[i + 2];
  }

  /** What stands before all of the runs stands before all of the merged ones. */
  lemma {:induction false} PassEarlier<T>(cmp: (T, T) -> int, input: seq<T>, a: seq<T>, runs: seq<seq<T>>)
    requires AllLater(input, a, runs)
    ensures AllLater(input, a, Pass(cmp, runs))
    decreases |runs|
  {
    if |runs| > 1 {
      assert forall i :: 0 <= i < |runs[2..]| ==> runs[2..][i] == runs[i + 2];
      PassEarlier(cmp, input, a, runs[2..]);
      forall x, y | x in a && y in Merge(cmp, runs[0], runs[1]) ensures Rank(input, x) < Rank(input, y) {
        MergeMembers(cmp, runs[0], runs[1], y);
        assert Earlier(input, a, runs[0]) && Earlier(input, a, runs[1]);
      }
    }
  }

  lemma {:induction false} PassSorts<T>(cmp: (T, T) -> int, input: seq<T>, runs: seq<seq<T>>)
    requires Preorder(cmp, input) && Sorted(cmp, input, runs)
    ensures Sorted(cmp, input, Pass(cmp, runs))
    decreases |runs|
  {
    if |runs| > 1 {
      var m := Merge(cmp, runs[0], runs[1]);
      var p := Pass(cmp, runs[2..]);
      SortedTail(cmp, input, runs);
      PassSorts(cmp, input, runs[2..]);
      assert Earlier(input, runs[0], runs[1]);
      MergeOrders(cmp, input, runs[0], runs[1]);
      PassEarlier(cmp, input, runs[0], runs[2..]);
      PassEarlier(cmp, input, runs[1], runs[2..]);
      forall x | x in m ensures x in input { MergeMembers(cmp, runs[0], runs[1], x); }
      MergeIsEarlier(cmp, input, runs[0], runs[1], p);
      SortedCons(cmp, input, m, p);
    }
  }

  lemma MergeIsEarlier<T>(cmp: (T, T) -> int, input: seq<T>, a: seq<T>, b: seq<T>, runs: seq<seq<T>>)
    requires AllLater(input, a, runs) && AllLater(input, b, runs)
    ensures AllLater(input, Merge(cmp, a, b), runs)
  {
    forall i | 0 <= i < |runs| ensures Earlier(input, Merge(cmp, a, b), runs[i]) {
      assert Earlier(input, a, runs[i]) && Earlier(input, b, runs[i]);
      forall x | x in Merge(cmp, a, b) ensures x in a || x in b { MergeMembers(cmp, a, b, x); }
    }
  }

  lemma SortedCons<T>(cmp: (T, T) -> int, input: seq<T>, run: seq<T>, runs: seq<seq<T>>)
    requires Sorted(cmp, input, runs) && AllLater(input, run, runs)
    requires Ordered(cmp, input, run) && forall x :: x in run ==> x in input
    ensures Sorted(cmp, input, [run] + runs)
  {
    var all := [run] + runs;
    forall i, j | 0 <= i < j < |all| ensures Earlier(input, all[i], all[j]) {
      assert all[j] == runs[j - 1];
      if i > 0 { assert all[i] == runs[i - 1]; }
    }
  }

  /** At first every member is a run. */
  function Singles<T>(s: seq<T>): (runs: seq<seq<T>>)
    ensures |runs| == |s| && forall i :: 0 <= i < |s| ==> runs[i] == [s[i]]
  {
    if s == [] then [] else [[s[0]]] + Singles(s[1..])
  }

  lemma {:induction false} SinglesFlat<T>(s: seq<T>)
    ensures Flat(Singles(s)) == s
  {
    if s != [] {
      SinglesFlat(s[1..]);
      assert Singles(s)[1..] == Singles(s[1..]);
    }
  }

  lemma SinglesSorted<T>(cmp: (T, T) -> int, s: seq<T>)
    requires NoDup(s)
    ensures Sorted(cmp, s, Singles(s)) && Sized(Singles(s), 1)
  {
    var runs := Singles(s);
    forall i, j | 0 <= i < j < |runs| ensures Earlier(s, runs[i], runs[j]) {
      RankIsPosition(s, i);
      RankIsPosition(s, j);
    }
  }

  // ---------------------------------------------------------------- what a stable sort is

  lemma SameFirst<T>(cmp: (T, T) -> int, input: seq<T>, a: seq<T>, b: seq<T>)
    requires Ordered(cmp, input, a) && Ordered(cmp, input, b) && a != [] && b != [] && a[0] in b && b[0] in a
    ensures a[0] == b[0]
  {
    var i :| 0 <= i < |a| && a[i] == b[0];
    var j :| 0 <= j < |b| && b[j] == a[0];
    assert i == 0 || Ahead(cmp, input, a[0], b[0]);
    assert j == 0 || Ahead(cmp, input, b[0], a[0]);
  }

  /** Only one arrangement of the members of a list is sorted and keeps the order of ties. */
  lemma {:induction false} StableSortIsUnique<T>(cmp: (T, T) -> int, input: seq<T>, a: seq<T>, b: seq<T>)
    requires Ordered(cmp, input, a) && Ordered(cmp, input, b) && multiset(a) == multiset(b)
    ensures a == b
    decreases |a|
  {
    assert |a| == |multiset(a)| == |multiset(b)| == |b|;
    if a != [] {
      assert b[0] in multiset(a) && a[0] in multiset(b);
      SameFirst(cmp, input, a, b);
      OrderedTail(cmp, input, a);
      OrderedTail(cmp, input, b);
      assert a == [a[0]] + a[1..] && b == [b[0]] + b[1..];
      assert multiset(a[1..]) == multiset(a) - multiset{a[0]};
      assert multiset(b[1..]) == multiset(b) - multiset{b[0]};
      StableSortIsUnique(cmp, input, a[1..], b[1..]);
    }
  }

  // ---------------------------------------------------------------- links

  /** list_node_t */
  class Node {
    var next: Node?

    constructor () { next := null; }
  }

  /** What follows position i, if `end` follows the last one. */
  function Next(s: seq<Node>, i: nat, end: Node?): Node? {
    if i + 1 < |s| then s[i + 1] else end
  }

  /** The links lead through s and then to `end`. */
  ghost predicate Chain(s: seq<Node>, end: Node?)
    reads s
  {
    forall i :: 0 <= i < |s| ==> s[i].next == Next(s, i, end)
  }

  /** The links lead through s; where the last one leads is open. */
  ghost predicate Linked(s: seq<Node>)
    reads s
  {
    forall i :: 0 <= i < |s| - 1 ==> s[i].next == Next(s, i, null)
  }

  /** A circular list, held by its head. */
  ghost predicate Circle(s: seq<Node>, head: Node?)
    reads s
  {
    s != [] && NoDup(s) && head == s[0] && Chain(s, s[0])
  }

  function First(s: seq<Node>): Node? {
    if s == [] then null else s[0]
  }

  function Final(s: seq<Node>): Node? {
    if s == [] then null else s[|s| - 1]
  }

  ghost predicate Disjoint(a: seq<Node>, b: seq<Node>) {
    forall x :: x in a ==> x !in b
  }

  /** A list under construction, from `list` to `tail`. */
  ghost predicate Built(s: seq<Node>, list: Node?, tail: Node?)
    reads s
  {
    NoDup(s) && Linked(s) && list == First(s) && tail == Final(s)
  }

  // ---------------------------------------------------------------- the sort

  /** The loop that steps `insize` places along: the run at p, and what follows it. */
  method StepAlong(p: Node, oldhead: Node, insize: nat, ghost run: seq<Node>, ghost rest: seq<Node>)
    returns (q: Node?, psize: nat)
    requires run != [] && p == run[0] && |run| <= insize && (rest != [] ==> |run| == insize)
    requires Chain(run + rest, oldhead) && oldhead !in (run + rest)[1..]
    ensures psize == |run| && q == First(rest)
  {
    ghost var s := run + rest;
    q := p;
    psize := 0;
    while psize < insize && q != null
      invariant 0 <= psize <= |run| && q == First(s[psize..])
      decreases |run| - psize
    {
      NextInChain(s, oldhead, psize);
      psize := psize + 1;
      q := if q.next == oldhead then null else q.next;
    }
    assert s[|run|..] == rest;
  }

  lemma NextInChain(s: seq<Node>, oldhead: Node, i: nat)
    requires i < |s| && Chain(s, oldhead) && oldhead !in s[1..]
    ensures s[i].next == oldhead || s[i].next == First(s[i + 1..])
    ensures s[i].next == oldhead <==> First(s[i + 1..]) == null
  {
    if i + 1 < |s| { assert s[i + 1] == s[1..][i]; }
  }

  lemma ChainDrop(s: seq<Node>, end: Node?, n: nat)
    requires Chain(s, end) && n <= |s|
    ensures Chain(s[n..], end)
  {
    forall i | 0 <= i < |s[n..]| ensures s[n..][i].next == Next(s[n..], i, end) {
      assert s[n..][i] == s[n + i];
    }
  }

  /** The node that is taken off the front of a run, and the one that then follows. */
  method Take(p: Node, oldhead: Node, ghost s: seq<Node>) returns (after: Node?)
    requires s != [] && p == s[0] && Chain(s, oldhead) && oldhead !in s[1..]
    ensures after == First(s[1..]) && Chain(s[1..], oldhead)
  {
    NextInChain(s, oldhead, 0);
    ChainDrop(s, oldhead, 1);
    after := if p.next == oldhead then null else p.next;
  }

  /** The next element goes to the end of the merged list. */
  method Append(list0: Node?, tail0: Node?, e: Node, ghost s: seq<Node>, ghost l: seq<Node>,
      ghost behind: seq<Node>, ghost oldhead: Node)
    returns (list: Node, tail: Node)
    requires Built(s, list0, tail0) && e !in s
    requires Linked(l) && Chain(behind, oldhead) && Disjoint(s, l) && Disjoint(s, behind)
    modifies if s == [] then {} else {s[|s| - 1]}
    ensures Built(s + [e], list, tail) && Linked(l) && Chain(behind, oldhead)
  {
    list := e;
    if tail0 != null {
      assert tail0 in s && tail0 !in l && tail0 !in behind;
      tail0.next := e;
      list := list0;
    }
    tail := e;
  }

  /** In the middle of a merge: `out` is merged, l is left of the first run, and `behind` is what is
      left of the second one and the rest of the list. */
  ghost predicate Split(out: seq<Node>, l: seq<Node>, behind: seq<Node>, oldhead: Node)
    reads l, behind
  {
    && Linked(l) && Chain(behind, oldhead) && NoDup(l) && NoDup(behind)
    && Disjoint(out, l) && Disjoint(out, behind) && Disjoint(l, behind)
    && (forall i :: 0 < i < |l| ==> l[i] != oldhead) && oldhead !in behind
  }

  lemma NoDupSuffix<T>(s: seq<T>, n: nat)
    requires NoDup(s) && n <= |s|
    ensures NoDup(s[n..])
  {
    assert forall i :: 0 <= i < |s[n..]| ==> s[n..][i] == s[n + i];
  }

  /** The next element of the merge comes from the first run. */
  method FromLeft(list0: Node?, tail0: Node?, p: Node, oldhead: Node, ghost out: seq<Node>, ghost l: seq<Node>,
      ghost behind: seq<Node>)
    returns (list: Node, tail: Node, p': Node?)
    requires Built(out, list0, tail0) && Split(out, l, behind, oldhead) && l != [] && p == l[0]
    modifies if out == [] then {} else {out[|out| - 1]}
    ensures Built(out + [p], list, tail) && Split(out + [p], l[1..], behind, oldhead) && (|l| > 1 ==> p' == l[1])
  {
    p' := if p.next == oldhead then null else p.next;
    NoDupSuffix(l, 1);
    LinkedDrop(l, 1);
    DropDisjoint(out, l, behind);
    list, tail := Append(list0, tail0, p, out, l[1..], behind, oldhead);
  }

  /** The first member of l goes to the end of out. */
  lemma DropDisjoint(out: seq<Node>, l: seq<Node>, behind: seq<Node>)
    requires Disjoint(out, l) && Disjoint(out, behind) && Disjoint(l, behind) && l != [] && NoDup(l)
    ensures Disjoint(out, l[1..]) && Disjoint(out + [l[0]], l[1..]) && Disjoint(out + [l[0]], behind) &&
        Disjoint(l[1..], behind) && l[0] !in out
  {
    assert forall i :: 0 <= i < |l[1..]| ==> l[1..][i] == l[i + 1];
    assert l[0] in l;
  }

  lemma LinkedDrop(s: seq<Node>, n: nat)
    requires Linked(s) && n <= |s|
    ensures Linked(s[n..])
  {
    forall i | 0 <= i < |s[n..]| - 1 ensures s[n..][i].next == Next(s[n..], i, null) {
      assert s[n..][i] == s[n + i];
    }
  }

  /** It comes from the second one. */
  method FromRight(list0: Node?, tail0: Node?, q: Node, oldhead: Node, ghost out: seq<Node>, ghost l: seq<Node>,
      ghost behind: seq<Node>)
    returns (list: Node, tail: Node, q': Node?)
    requires Built(out, list0, tail0) && Split(out, l, behind, oldhead) && behind != [] && q == behind[0]
    modifies if out == [] then {} else {out[|out| - 1]}
    ensures Built(out + [q], list, tail) && Split(out + [q], l, behind[1..], oldhead) && q' == First(behind[1..])
  {
    q' := Take(q, oldhead, behind);
    NoDupSuffix(behind, 1);
    DisjointSwap(l, behind);
    DropDisjoint(out, behind, l);
    DisjointSwap(behind[1..], l);
    list, tail := Append(list0, tail0, q, out, l, behind[1..], oldhead);
  }

  lemma DisjointSwap(a: seq<Node>, b: seq<Node>)
    requires Disjoint(a, b)
    ensures Disjoint(b, a)
  {
  }

  /** How much of the merge of two runs is done. */
  ghost predicate Merging(cmp: (Node, Node) -> int, out: seq<Node>, l: seq<Node>, r: seq<Node>, after: seq<Node>,
      qsize: nat, whole: seq<Node>) {
    out + Merge(cmp, l, r) == whole && |r| <= qsize && (|r| < qsize ==> after == [])
  }

  lemma MergeLeft(cmp: (Node, Node) -> int, out: seq<Node>, l: seq<Node>, r: seq<Node>, after: seq<Node>,
      qsize: nat, whole: seq<Node>)
    requires Merging(cmp, out, l, r, after, qsize, whole) && l != [] && (r == [] || cmp(l[0], r[0]) <= 0)
    ensures Merging(cmp, out + [l[0]], l[1..], r, after, qsize, whole)
  {
    assert l == [l[0]] + l[1..];
    assert out + Merge(cmp, l, r) == (out + [l[0]]) + Merge(cmp, l[1..], r);
  }

  lemma MergeRight(cmp: (Node, Node) -> int, out: seq<Node>, l: seq<Node>, r: seq<Node>, after: seq<Node>,
      qsize: nat, whole: seq<Node>)
    requires Merging(cmp, out, l, r, after, qsize, whole) && r != [] && (l == [] || cmp(l[0], r[0]) > 0)
    ensures Merging(cmp, out + [r[0]], l, r[1..], after, qsize - 1, whole) && (r + after)[1..] == r[1..] + after
  {
    assert r == [r[0]] + r[1..];
    assert out + Merge(cmp, l, r) == (out + [r[0]]) + Merge(cmp, l, r[1..]);
  }

  /** The state of the loop that merges two runs. */
  ghost predicate Midway(cmp: (Node, Node) -> int, out: seq<Node>, l: seq<Node>, r: seq<Node>, after: seq<Node>,
      whole: seq<Node>, oldhead: Node, list: Node?, tail: Node?, p: Node?, q: Node?, psize: nat, qsize: nat)
    reads out, l, r, after
  {
    && Built(out, list, tail) && Split(out, l, r + after, oldhead) && Merging(cmp, out, l, r, after, qsize, whole)
    && psize == |l| && (l != [] ==> p == l[0]) && q == First(r + after)
  }

  method MergeOne(cmp: (Node, Node) -> int, ghost out: seq<Node>, ghost l: seq<Node>, ghost r: seq<Node>,
      ghost after: seq<Node>, ghost whole: seq<Node>, oldhead: Node, list: Node?, tail: Node?, p: Node?, q: Node?,
      psize: nat, qsize: nat)
    returns (ghost out': seq<Node>, ghost l': seq<Node>, ghost r': seq<Node>, list': Node?, tail': Node?, p': Node?,
      q': Node?, psize': nat, qsize': nat)
    requires Midway(cmp, out, l, r, after, whole, oldhead, list, tail, p, q, psize, qsize) &&
        (psize > 0 || (qsize > 0 && q != null))
    modifies if out == [] then {} else {out[|out| - 1]}
    ensures Midway(cmp, out', l', r', after, whole, oldhead, list', tail', p', q', psize', qsize')
    ensures |l'| + |r'| < |l| + |r| && forall x :: x in out' || x in l' || x in r' ==> x in out || x in l || x in r
  {
    out', l', r', list', tail', p', q', psize', qsize' := out, l, r, list, tail, p, q, psize, qsize;
    var fromP := if psize == 0 then false else if qsize == 0 || q == null then true else cmp(p, q) <= 0;
    if fromP {
      MergeLeft(cmp, out, l, r, after, qsize, whole);
      list', tail', p' := FromLeft(list, tail, p, oldhead, out, l, r + after);
      psize' := psize - 1;
      out', l' := out + [l[0]], l[1..];
    } else {
      MergeRight(cmp, out, l, r, after, qsize, whole);
      list', tail', q' := FromRight(list, tail, q, oldhead, out, l, r + after);
      qsize' := qsize - 1;
      out', r' := out + [r[0]], r[1..];
    }
  }

  /** The loop that merges the run at p, of psize members, with the run at q, of at most insize. */
  method MergeRuns(cmp: (Node, Node) -> int, list0: Node?, tail0: Node?, oldhead: Node, p0: Node, q0: Node?,
      psize0: nat, insize: nat, ghost out0: seq<Node>, ghost left: seq<Node>, ghost right: seq<Node>,
      ghost after: seq<Node>, ghost nodes: set<Node>)
    returns (list: Node?, tail: Node?, q: Node?)
    requires Built(out0, list0, tail0) && Split(out0, left, right + after, oldhead)
    requires left != [] && p0 == left[0] && psize0 == |left| && q0 == First(right + after)
    requires |right| <= insize && (|right| < insize ==> after == [])
    requires forall x :: x in out0 || x in left || x in right ==> x in nodes
    modifies nodes
    ensures var out := out0 + Merge(cmp, left, right);
            Built(out, list, tail) && Split(out, [], after, oldhead) && q == First(after)
  {
    ghost var whole := out0 + Merge(cmp, left, right);
    ghost var out, l, r := out0, left, right;
    var p: Node? := p0;
    var psize, qsize := psize0, insize;
    list, tail, q := list0, tail0, q0;
    while psize > 0 || (qsize > 0 && q != null)
      invariant Midway(cmp, out, l, r, after, whole, oldhead, list, tail, p, q, psize, qsize)
      invariant forall x :: x in out || x in l || x in r ==> x in nodes
      decreases |l| + |r|
    {
      out, l, r, list, tail, p, q, psize, qsize :=
        MergeOne(cmp, out, l, r, after, whole, oldhead, list, tail, p, q, psize, qsize);
    }
    assert l == [] && r == [];
    assert out == whole && r + after == after;
  }

  /** Between two merges of a pass: `done` is merged, and the links still lead through `todo`. */
  ghost predicate Passing(done: seq<Node>, todo: seq<Node>, oldhead: Node, list: Node?, tail: Node?, p: Node?,
      nodes: set<Node>)
    reads nodes
  {
    && (forall x :: x in done ==> x in nodes) && (forall x :: x in todo ==> x in nodes)
    && Built(done, list, tail) && Chain(todo, oldhead) && NoDup(todo) && Disjoint(done, todo)
    && (forall i :: 0 < i < |todo| ==> todo[i] != oldhead) && p == First(todo)
  }

  lemma SplitOff(done: seq<Node>, todo: seq<Node>, left: seq<Node>, behind: seq<Node>, oldhead: Node, list: Node?,
      tail: Node?, p: Node?, nodes: set<Node>)
    requires Passing(done, todo, oldhead, list, tail, p, nodes) && todo == left + behind && left != []
    ensures Split(done, left, behind, oldhead)
  {
    assert left == todo[..|left|] && behind == todo[|left|..];
    ChainDrop(todo, oldhead, |left|);
    NoDupSuffix(todo, |left|);
    forall i | 0 <= i < |left| - 1 ensures left[i].next == Next(left, i, null) { assert left[i] == todo[i]; }
  }

  /** The members of the first run of a pass, of the second one, and of the others. */
  function Second<T>(runs: seq<seq<T>>): seq<T> {
    if |runs| > 1 then runs[1] else []
  }

  function Others<T>(runs: seq<seq<T>>): seq<seq<T>> {
    if |runs| > 1 then runs[2..] else []
  }

  lemma PassUnfolds<T>(cmp: (T, T) -> int, runs: seq<seq<T>>, n: nat)
    requires runs != [] && Sized(runs, n)
    ensures Pass(cmp, runs) == [Merge(cmp, runs[0], Second(runs))] + Pass(cmp, Others(runs))
    ensures Flat(runs) == runs[0] + (Second(runs) + Flat(Others(runs))) && Sized(Others(runs), n)
    ensures Second(runs) + Flat(Others(runs)) != [] ==> |runs[0]| == n
    ensures |Second(runs)| <= n && (|Second(runs)| < n ==> Flat(Others(runs)) == [])
  {
    if |runs| > 1 {
      assert runs[1..][1..] == runs[2..];
      assert forall i :: 0 <= i < |runs[2..]| ==> runs[2..][i] == runs[i + 2];
    } else {
      assert runs[1..] == [];
    }
  }

  lemma FlatSnoc<T>(done: seq<seq<T>>, run: seq<T>)
    ensures Flat(done + [run]) == Flat(done) + run
  {
    FlatAppend(done, [run]);
    FlatOne(run);
  }

  /** One merge of a pass: the run at p is `left`, and the next one `right`. */
  method MergeNext(cmp: (Node, Node) -> int, list0: Node?, tail0: Node?, oldhead: Node, p0: Node, insize: nat,
      ghost done: seq<Node>, ghost left: seq<Node>, ghost right: seq<Node>, ghost after: seq<Node>,
      ghost nodes: set<Node>)
    returns (list: Node?, tail: Node?, p: Node?)
    requires Passing(done, left + (right + after), oldhead, list0, tail0, p0, nodes)
    requires left != [] && |left| <= insize && (right + after != [] ==> |left| == insize)
    requires |right| <= insize && (|right| < insize ==> after == [])
    modifies nodes
    ensures Passing(done + Merge(cmp, left, right), after, oldhead, list, tail, p, nodes)
  {
    SplitOff(done, left + (right + after), left, right + after, oldhead, list0, tail0, p0, nodes);
    var q, psize := StepAlong(p0, oldhead, insize, left, right + after);
    MergedIn(cmp, done, left, right, after, nodes);
    list, tail, p := MergeRuns(cmp, list0, tail0, oldhead, p0, q, psize, insize, done, left, right, after, nodes);
  }

  lemma MergedIn(cmp: (Node, Node) -> int, done: seq<Node>, left: seq<Node>, right: seq<Node>, after: seq<Node>,
      nodes: set<Node>)
    requires (forall x :: x in done ==> x in nodes) && (forall x :: x in left + (right + after) ==> x in nodes)
    ensures forall x :: x in left || x in right ==> x in nodes
    ensures forall x :: x in after ==> x in nodes
    ensures forall x :: x in done + Merge(cmp, left, right) ==> x in nodes
  {
    forall x | x in left || x in right || x in after ensures x in left + (right + after) { }
    forall x | x in Merge(cmp, left, right) ensures x in left || x in right { MergeMembers(cmp, left, right, x); }
  }

  /** The state of the loop of a pass. */
  ghost predicate InPass(cmp: (Node, Node) -> int, runs: seq<seq<Node>>, done: seq<seq<Node>>, todo: seq<seq<Node>>,
      insize: nat, oldhead: Node, list: Node?, tail: Node?, p: Node?, nodes: set<Node>)
    reads nodes
  {
    Sized(todo, insize) && Passing(Flat(done), Flat(todo), oldhead, list, tail, p, nodes) &&
      done + Pass(cmp, todo) == Pass(cmp, runs)
  }

  lemma PassBegins(cmp: (Node, Node) -> int, runs: seq<seq<Node>>, insize: nat, head: Node, nodes: set<Node>)
    requires Sized(runs, insize) && Circle(Flat(runs), head) && forall x :: x in Flat(runs) ==> x in nodes
    ensures InPass(cmp, runs, [], runs, insize, head, null, null, head, nodes)
  {
  }

  lemma PassEnds(cmp: (Node, Node) -> int, runs: seq<seq<Node>>, done: seq<seq<Node>>, todo: seq<seq<Node>>,
      insize: nat, oldhead: Node, list: Node?, tail: Node?, nodes: set<Node>)
    requires runs != [] && InPass(cmp, runs, done, todo, insize, oldhead, list, tail, null, nodes)
    ensures done == Pass(cmp, runs) && Built(Flat(done), list, tail) && done != []
  {
    FlatEmpty(todo, insize);
  }

  lemma PassOn<T>(cmp: (T, T) -> int, runs: seq<seq<T>>, done: seq<seq<T>>, todo: seq<seq<T>>, n: nat)
    requires todo != [] && Sized(todo, n) && done + Pass(cmp, todo) == Pass(cmp, runs)
    ensures var merged := Merge(cmp, todo[0], Second(todo));
            (done + [merged]) + Pass(cmp, Others(todo)) == Pass(cmp, runs) &&
              Flat(done + [merged]) == Flat(done) + merged
  {
    var merged := Merge(cmp, todo[0], Second(todo));
    PassUnfolds(cmp, todo, n);
    FlatSnoc(done, merged);
    AppendAssoc(done, [merged], Pass(cmp, Others(todo)));
  }

  lemma AppendAssoc<T>(a: seq<T>, b: seq<T>, c: seq<T>)
    ensures (a + b) + c == a + (b + c)
  {
  }

  method PassStep(cmp: (Node, Node) -> int, ghost runs: seq<seq<Node>>, ghost done: seq<seq<Node>>,
      ghost todo: seq<seq<Node>>, insize: nat, oldhead: Node, list0: Node?, tail0: Node?, p0: Node,
      ghost nodes: set<Node>)
    returns (list: Node?, tail: Node?, p: Node?, ghost merged: seq<Node>)
    requires todo != [] && InPass(cmp, runs, done, todo, insize, oldhead, list0, tail0, p0, nodes)
    modifies nodes
    ensures InPass(cmp, runs, done + [merged], Others(todo), insize, oldhead, list, tail, p, nodes)
  {
    PassUnfolds(cmp, todo, insize);
    merged := Merge(cmp, todo[0], Second(todo));
    PassOn(cmp, runs, done, todo, insize);
    list, tail, p := MergeNext(cmp, list0, tail0, oldhead, p0, insize, Flat(done), todo[0], Second(todo),
      Flat(Others(todo)), nodes);
  }

  /** One pass over the list. */
  method MergePass(cmp: (Node, Node) -> int, head: Node, insize: nat, ghost runs: seq<seq<Node>>,
      ghost nodes: set<Node>)
    returns (list: Node?, tail: Node?, nmerges: nat, ghost done: seq<seq<Node>>)
    requires runs != [] && Sized(runs, insize) && Circle(Flat(runs), head) && forall x :: x in Flat(runs) ==> x in nodes
    modifies nodes
    ensures done == Pass(cmp, runs) && Circle(Flat(done), list) && tail == Final(Flat(done)) && nmerges == |done|
  {
    ghost var todo := runs;
    done := [];
    PassBegins(cmp, runs, insize, head, nodes);
    list, tail, nmerges := null, null, 0;
    var p: Node? := head;
    while p != null
      invariant InPass(cmp, runs, done, todo, insize, head, list, tail, p, nodes) && nmerges == |done|
      decreases |todo|
    {
      nmerges := nmerges + 1;
      ghost var merged;
      list, tail, p, merged := PassStep(cmp, runs, done, todo, insize, head, list, tail, p, nodes);
      done, todo := done + [merged], Others(todo);
    }
    PassEnds(cmp, runs, done, todo, insize, head, list, tail, nodes);
    PassSameMembers(cmp, runs);
    Close(list, tail, Flat(done), nodes);
  }

  lemma FlatEmpty<T>(runs: seq<seq<T>>, n: nat)
    requires Sized(runs, n)
    ensures Flat(runs) == [] <==> runs == []
  {
    if runs != [] { assert |Flat(runs)| == |runs[0]| + |Flat(runs[1..])|; }
  }

  method Close(list: Node?, tail: Node?, ghost s: seq<Node>, ghost nodes: set<Node>)
    requires Built(s, list, tail) && s != [] && forall x :: x in s ==> x in nodes
    modifies nodes
    ensures Circle(s, list)
  {
    tail.next := list;
  }

  /** _clist_sort: the list of the node `head` is sorted in place; its last node is returned. */
  method ClistSort(head: Node?, cmp: (Node, Node) -> int, ghost s: seq<Node>)
    returns (tail: Node?, ghost sorted: seq<Node>)
    requires head != null ==> Circle(s, head) && Preorder(cmp, s)
    requires head == null ==> s == []
    modifies s
    ensures head == null <==> tail == null
    ensures multiset(sorted) == multiset(s) && Ordered(cmp, s, sorted)
    ensures tail != null ==> Circle(sorted, tail.next) && tail == Final(sorted)
  {
    sorted := s;
    if head == null {
      return null, [];
    }
    ghost var nodes := set x | x in s;
    var list: Node? := head;
    var insize: nat := 1;
    ghost var runs := Singles(s);
    SinglesFlat(s);
    SinglesSorted(cmp, s);
    while true
      invariant runs != [] && Sorting(cmp, s, runs, insize) && Circle(Flat(runs), list) && insize <= |s|
      decreases |runs|
    {
      var nmerges;
      list, tail, nmerges, runs := SortOnce(cmp, list, insize, s, runs, nodes);
      if nmerges <= 1 {
        OneRunIsSorted(cmp, s, runs, 2 * insize);
        return tail, Flat(runs);
      }
      insize := 2 * insize;
    }
  }

  /** A pass: it doubles the length of the runs, and fewer merges are left for the next one. */
  method SortOnce(cmp: (Node, Node) -> int, head: Node, insize: nat, ghost s: seq<Node>, ghost runs: seq<seq<Node>>,
      ghost nodes: set<Node>)
    returns (list: Node?, tail: Node?, nmerges: nat, ghost runs': seq<seq<Node>>)
    requires runs != [] && Sorting(cmp, s, runs, insize) && Circle(Flat(runs), head) &&
        forall x :: x in s ==> x in nodes
    modifies nodes
    ensures Sorting(cmp, s, runs', 2 * insize) && Circle(Flat(runs'), list) && tail == Final(Flat(runs'))
    ensures nmerges == |runs'| == (|runs| + 1) / 2 && (nmerges > 1 ==> 2 * insize <= |s|)
  {
    SortingOn(cmp, s, runs, insize);
    list, tail, nmerges, runs' := MergePass(cmp, head, insize, runs, nodes);
  }

  lemma ManyRuns<T>(runs: seq<seq<T>>, n: nat)
    requires Sized(runs, n)
    ensures |runs| > 2 ==> 2 * n <= |Flat(runs)|
  {
    if |runs| > 2 { assert Flat(runs) == runs[0] + (runs[1] + Flat(runs[1..][1..])); }
  }

  /** The list in the middle of the sort: sorted runs, which follow one another as in the input. */
  ghost predicate Sorting(cmp: (Node, Node) -> int, s: seq<Node>, runs: seq<seq<Node>>, insize: nat) {
    Preorder(cmp, s) && Sorted(cmp, s, runs) && Sized(runs, insize) && multiset(Flat(runs)) == multiset(s)
  }

  lemma SortingOn(cmp: (Node, Node) -> int, s: seq<Node>, runs: seq<seq<Node>>, insize: nat)
    requires Sorting(cmp, s, runs, insize)
    ensures Sorting(cmp, s, Pass(cmp, runs), 2 * insize)
    ensures |Pass(cmp, runs)| == (|runs| + 1) / 2 && (|Pass(cmp, runs)| > 1 ==> 2 * insize <= |s|)
    ensures forall x :: x in Flat(runs) ==> x in s
  {
    PassSorts(cmp, s, runs);
    PassSizes(cmp, runs, insize);
    PassSameMembers(cmp, runs);
    ManyRuns(runs, insize);
    SameMembers(Flat(runs), s);
  }

  lemma SameMembers<T>(s: seq<T>, t: seq<T>)
    requires multiset(s) == multiset(t)
    ensures |s| == |t| && forall x :: x in s ==> x in t
  {
    assert |s| == |multiset(s)| == |multiset(t)|;
    forall x | x in s ensures x in t { assert x in multiset(s); }
  }

  lemma OneRunIsSorted(cmp: (Node, Node) -> int, s: seq<Node>, runs: seq<seq<Node>>, insize: nat)
    requires Sorting(cmp, s, runs, insize) && |runs| == 1
    ensures Ordered(cmp, s, Flat(runs)) && multiset(Flat(runs)) == multiset(s)
  {
    FlatOne(runs[0]);
    assert runs == [runs[0]];
  }

  /** The result is sorted by the comparator, and two nodes that compare equal stand as before. */
  lemma SortedAndStable(cmp: (Node, Node) -> int, input: seq<Node>, sorted: seq<Node>, i: nat, j: nat, a: nat, b: nat)
    requires NoDup(input) && Ordered(cmp, input, sorted) && i < j < |sorted| && a < |input| && b < |input|
    requires sorted[i] == input[a] && sorted[j] == input[b]
    ensures cmp(input[a], input[b]) <= 0 && (cmp(input[b], input[a]) <= 0 ==> a < b)
  {
    RankIsPosition(input, a);
    RankIsPosition(input, b);
    assert Ahead(cmp, input, sorted[i], sorted[j]);
  }
}
