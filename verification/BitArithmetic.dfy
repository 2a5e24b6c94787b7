/** Words of bits: core/lib/bitarithm.c, the bit cache of the run queues, and the choice of the
    lowest flag.  A word is a natural number; the bitwise operators are defined by their bits. */
module BitArithmetic {

  function Pow2(n: nat): (p: nat)
    ensures p >= 1
  {
    if n == 0 then 1 else 2 * Pow2(n - 1)
  }

  /** v >> n */
  function Shr(v: nat, n: nat): nat
    decreases n
  {
    if n == 0 then v else Shr(v / 2, n - 1)
  }

  predicate Bit(v: nat, i: nat) {
    Shr(v, i) % 2 == 1
  }

  /** a & b */
  function And(a: nat, b: nat): nat {
    if a == 0 || b == 0 then 0
    else 2 * And(a / 2, b / 2) + (if a % 2 == 1 && b % 2 == 1 then 1 else 0)
  }

  /** a | b */
  function Or(a: nat, b: nat): nat {
    if a == 0 then b
    else if b == 0 then a
    else 2 * Or(a / 2, b / 2) + (if a % 2 == 1 || b % 2 == 1 then 1 else 0)
  }

  /** ~a, in a word of n bits */
  function Not(a: nat, n: nat): nat
    decreases n
  {
    if n == 0 then 0 else 2 * Not(a / 2, n - 1) + (1 - a % 2)
  }

  // ---------------------------------------------------------------- what the operators do to bits

  lemma {:induction false} BitOfZero(i: nat)
    ensures !Bit(0, i)
    decreases i
  {
    if i > 0 { BitOfZero(i - 1); }
  }

  lemma {:induction false} BitAnd(a: nat, b: nat, i: nat)
    ensures Bit(And(a, b), i) <==> Bit(a, i) && Bit(b, i)
    decreases i
  {
    BitOfZero(i);
    if a != 0 && b != 0 && i > 0 {
      assert And(a, b) / 2 == And(a / 2, b / 2);
      BitAnd(a / 2, b / 2, i - 1);
    }
  }

  lemma {:induction false} BitOr(a: nat, b: nat, i: nat)
    ensures Bit(Or(a, b), i) <==> Bit(a, i) || Bit(b, i)
    decreases i
  {
    BitOfZero(i);
    if a != 0 && b != 0 && i > 0 {
      assert Or(a, b) / 2 == Or(a / 2, b / 2);
      BitOr(a / 2, b / 2, i - 1);
    }
  }

  lemma {:induction false} BitNot(a: nat, n: nat, i: nat)
    ensures Bit(Not(a, n), i) <==> i < n && !Bit(a, i)
    decreases i
  {
    BitOfZero(i);
    if n > 0 && i > 0 {
      assert Not(a, n) / 2 == Not(a / 2, n - 1);
      BitNot(a / 2, n - 1, i - 1);
    }
  }

  lemma {:induction false} BitPow2(n: nat, i: nat)
    ensures Bit(Pow2(n), i) <==> i == n
    decreases i
  {
    if n == 0 {
      if i > 0 { BitOfZero(i - 1); }
    } else if i > 0 {
      assert Pow2(n) / 2 == Pow2(n - 1);
      BitPow2(n - 1, i - 1);
    }
  }

  /** Words with the same bits are the same. */
  lemma {:induction false} SameBits(a: nat, b: nat)
    requires forall i: nat :: Bit(a, i) <==> Bit(b, i)
    ensures a == b
    decreases a + b
  {
    assert Bit(a, 0) <==> Bit(b, 0);
    if a != 0 || b != 0 {
      forall i: nat ensures Bit(a / 2, i) <==> Bit(b / 2, i) {
        assert Bit(a, i + 1) <==> Bit(b, i + 1);
      }
      SameBits(a / 2, b / 2);
    }
  }

  lemma {:induction false} ShrShr(v: nat, n: nat, m: nat)
    ensures Shr(Shr(v, n), m) == Shr(v, n + m)
    decreases n
  {
    if n > 0 { ShrShr(v / 2, n - 1, m); }
  }

  lemma {:induction false} ShrBounds(v: nat, n: nat, m: nat)
    ensures v < Pow2(n + m) ==> Shr(v, n) < Pow2(m)
    ensures v >= Pow2(n) ==> Shr(v, n) >= 1
    decreases n
  {
    if n > 0 { ShrBounds(v / 2, n - 1, m); }
  }

  lemma {:induction false} NoBitsAbove(v: nat, n: nat, i: nat)
    requires v < Pow2(n) && n <= i
    ensures Shr(v, i) == 0 && !Bit(v, i)
    decreases n
  {
    if n == 0 {
      ShrZero(i);
    } else {
      NoBitsAbove(v / 2, n - 1, i - 1);
    }
  }

  lemma {:induction false} ShrZero(i: nat)
    ensures Shr(0, i) == 0
    decreases i
  {
    if i > 0 { ShrZero(i - 1); }
  }

  // ---------------------------------------------------------------- the highest and the lowest bit

  ghost predicate IsHighest(v: nat, r: nat) {
    Bit(v, r) && forall i: nat :: i > r ==> !Bit(v, i)
  }

  ghost predicate IsLowest(v: nat, r: nat) {
    Bit(v, r) && forall i: nat :: i < r ==> !Bit(v, i)
  }

  /** c << n */
  function Shl(c: nat, n: nat): nat
    decreases n
  {
    if n == 0 then c else 2 * Shl(c, n - 1)
  }

  /** Or adds, where the bits of b are below those of the other operand. */
  lemma {:induction false} OrAdds(c: nat, n: nat, b: nat)
    requires b < Pow2(n)
    ensures Or(Shl(c, n), b) == Shl(c, n) + b
    decreases n
  {
    if n > 0 {
      OrAdds(c, n - 1, b / 2);
      assert Shl(c, n) / 2 == Shl(c, n - 1);
    }
  }

  /** What the search has found after it has moved r bits to the right: w, which fits in n bits. */
  ghost predicate Searching(v: nat, r: nat, w: nat, n: nat) {
    w == Shr(v, r) && (if v == 0 then w == 0 && r == 0 else 1 <= w < Pow2(n))
  }

  /** One step of the search: if w does not fit in n bits, its upper n bits are looked at. */
  lemma Narrow(v: nat, r: nat, w: nat, n: nat, shift: nat)
    requires Searching(v, r, w, n + n) && shift == (if w >= Pow2(n) then n else 0)
    ensures Searching(v, r + shift, Shr(w, shift), n)
  {
    ShrShr(v, r, shift);
    ShrBounds(w, n, n);
    ShrZero(shift);
  }

  lemma HighestIs(v: nat, r: nat)
    requires Shr(v, r) == 1
    ensures IsHighest(v, r)
  {
    forall i: nat | i > r ensures !Bit(v, i) {
      ShrShr(v, r, i - r);
      assert Pow2(1) == 2;
      NoBitsAbove(1, 1, i - r);
    }
  }

  /** bitarith_msb_32bit_no_native_clz */
  method HighestBit(v: nat) returns (r: nat)
    requires v < 0x1_0000_0000
    ensures r < 32
    ensures v == 0 ==> r == 0
    ensures v != 0 ==> IsHighest(v, r)
  {
    r := if v > 0xFFFF then 16 else 0;
    FirstStep(v, r);
    var w := Shr(v, r);
    var shift := if w > 0xFF then 8 else 0;
    NextStep(v, r, w, 8, shift);
    w := Shr(w, shift);
    r := Or(r, shift);
    shift := if w > 0xF then 4 else 0;
    NextStep(v, r, w, 4, shift);
    w := Shr(w, shift);
    r := Or(r, shift);
    shift := if w > 0x3 then 2 else 0;
    NextStep(v, r, w, 2, shift);
    w := Shr(w, shift);
    r := Or(r, shift);
    LastStep(v, r, w);
    r := Or(r, Shr(w, 1));
  }

  lemma FirstStep(v: nat, shift: nat)
    requires v < 0x1_0000_0000 && shift == (if v > 0xFFFF then 16 else 0)
    ensures Searching(v, shift, Shr(v, shift), 16) && Multiple(shift, 16) && shift <= 16
  {
    PowersOfTwo();
    Narrow(v, 0, v, 16, shift);
  }

  /** The multiples of m that the search can have reached. */
  predicate Multiple(r: nat, m: nat) {
    || (m == 16 && r in {0, 16})
    || (m == 8 && r in {0, 8, 16, 24})
    || (m == 4 && r in {0, 4, 8, 12, 16, 20, 24, 28})
    || (m == 2 && r in {0, 2, 4, 6, 8, 10, 12, 14, 16, 18, 20, 22, 24, 26, 28, 30})
  }

  /** The shift counts found so far are multiples of 2 * n. */
  lemma NextStep(v: nat, r: nat, w: nat, n: nat, shift: nat)
    requires n in {2, 4, 8} && Searching(v, r, w, n + n) && Multiple(r, n + n) && r <= 32 - n - n
    requires shift == (if w > (if n == 8 then 0xFF else if n == 4 then 0xF else 0x3) then n else 0)
    ensures Or(r, shift) == r + shift
    ensures Searching(v, Or(r, shift), Shr(w, shift), n) && Multiple(Or(r, shift), n) && Or(r, shift) <= 32 - n
  {
    Threshold(n);
    Narrow(v, r, w, n, shift);
    OrLow(r, n + n, shift);
    MultipleStep(r, n, shift);
  }

  lemma Threshold(n: nat)
    requires n in {2, 4, 8}
    ensures Pow2(n) == (if n == 8 then 0x100 else if n == 4 then 0x10 else 0x4)
  {
    PowersOfTwo();
  }

  lemma MultipleStep(r: nat, n: nat, shift: nat)
    requires n in {2, 4, 8} && Multiple(r, n + n) && shift in {0, n}
    ensures Multiple(r + shift, n)
  {
  }

  lemma OrLow(r: nat, m: nat, b: nat)
    requires Multiple(r, m) && b < m
    ensures Or(r, b) == r + b
  {
    Divides(r, m);
    if m == 2 { OrShl(r / 2, 1, b); }
    else if m == 4 { OrShl(r / 4, 2, b); }
    else if m == 8 { OrShl(r / 8, 3, b); }
    else { OrShl(r / 16, 4, b); }
  }

  lemma Divides(r: nat, m: nat)
    requires Multiple(r, m)
    ensures m == 2 ==> r == 2 * (r / 2)
    ensures m == 4 ==> r == 4 * (r / 4)
    ensures m == 8 ==> r == 8 * (r / 8)
    ensures m == 16 ==> r == 16 * (r / 16)
  {
  }

  lemma OrShl(c: nat, n: nat, b: nat)
    requires 1 <= n <= 4 && b < (if n == 1 then 2 else if n == 2 then 4 else if n == 3 then 8 else 16)
    ensures n == 1 ==> Or(2 * c, b) == 2 * c + b
    ensures n == 2 ==> Or(4 * c, b) == 4 * c + b
    ensures n == 3 ==> Or(8 * c, b) == 8 * c + b
    ensures n == 4 ==> Or(16 * c, b) == 16 * c + b
  {
    assert Pow2(1) == 2 && Pow2(2) == 4;
    assert Pow2(3) == 2 * Pow2(2) && Pow2(4) == 2 * Pow2(3);
    OrAdds(c, n, b);
    assert Shl(c, 1) == 2 * c && Shl(c, 2) == 4 * c;
    assert Shl(c, 3) == 2 * Shl(c, 2) && Shl(c, 4) == 2 * Shl(c, 3);
  }

  lemma LastStep(v: nat, r: nat, w: nat)
    requires Searching(v, r, w, 2) && Multiple(r, 2) && r <= 30
    ensures Or(r, Shr(w, 1)) < 32
    ensures v == 0 ==> Or(r, Shr(w, 1)) == 0
    ensures v != 0 ==> IsHighest(v, Or(r, Shr(w, 1)))
  {
    assert Shr(w, 1) == w / 2 && Pow2(2) == 4;
    OrLow(r, 2, w / 2);
    ShrShr(v, r, w / 2);
    if v != 0 { HighestIs(v, r + w / 2); }
  }

  lemma PowersOfTwo()
    ensures Pow2(1) == 2 && Pow2(2) == 4 && Pow2(4) == 16 && Pow2(8) == 256 && Pow2(16) == 0x1_0000 &&
        Pow2(32) == 0x1_0000_0000
  {
    assert Pow2(4) == 4 * Pow2(2);
    assert Pow2(8) == 16 * Pow2(4) by { assert Pow2(6) == 4 * Pow2(4); }
    assert Pow2(12) == 16 * Pow2(8) by { assert Pow2(10) == 4 * Pow2(8); }
    assert Pow2(16) == 16 * Pow2(12) by { assert Pow2(14) == 4 * Pow2(12); }
    assert Pow2(24) == 256 * Pow2(16) by {
      assert Pow2(18) == 4 * Pow2(16);
      assert Pow2(20) == 4 * Pow2(18);
      assert Pow2(22) == 4 * Pow2(20);
    }
    assert Pow2(32) == 256 * Pow2(24) by {
      assert Pow2(26) == 4 * Pow2(24);
      assert Pow2(28) == 4 * Pow2(26);
      assert Pow2(30) == 4 * Pow2(28);
    }
  }

  /** bitarithm_lsb, without special instructions; a word of zeros makes the original loop forever. */
  method LowestBit(v: nat) returns (r: nat)
    requires v != 0
    ensures IsLowest(v, r)
  {
    r := 0;
    var w := v;
    while w % 2 == 0
      invariant w != 0 && w == Shr(v, r)
      invariant forall i: nat :: i < r ==> !Bit(v, i)
      decreases w
    {
      ShrShr(v, r, 1);
      assert Shr(w, 1) == w / 2;
      w := w / 2;
      r := r + 1;
    }
  }

  // ---------------------------------------------------------------- counting bits

  function Ones(v: nat): nat {
    if v == 0 then 0 else v % 2 + Ones(v / 2)
  }

  /** v & (v - 1) is v without its lowest bit. */
  lemma {:induction false} DropLowest(v: nat)
    requires v != 0
    ensures And(v, v - 1) < v && Ones(And(v, v - 1)) == Ones(v) - 1
  {
    if v % 2 == 1 {
      DropLast(v);
    } else {
      DropLowest(v / 2);
      DropHigher(v);
    }
  }

  lemma DropLast(v: nat)
    requires v % 2 == 1
    ensures And(v, v - 1) < v && Ones(And(v, v - 1)) == Ones(v) - 1
  {
    AndSelf(v / 2);
    if v != 1 { assert And(v, v - 1) == 2 * And(v / 2, v / 2); }
  }

  lemma DropHigher(v: nat)
    requires v != 0 && v % 2 == 0
    requires var u := v / 2; And(u, u - 1) < u && Ones(And(u, u - 1)) == Ones(u) - 1
    ensures And(v, v - 1) < v && Ones(And(v, v - 1)) == Ones(v) - 1
  {
    var u := v / 2;
    assert (v - 1) / 2 == u - 1;
    assert And(v, v - 1) == 2 * And(u, u - 1);
  }

  lemma {:induction false} AndSelf(a: nat)
    ensures And(a, a) == a
  {
    if a != 0 { AndSelf(a / 2); }
  }

  /** bitarithm_bits_set */
  method BitsSet(v: nat) returns (c: nat)
    ensures c == Ones(v)
  {
    c := 0;
    var w := v;
    while w != 0
      invariant c + Ones(w) == Ones(v)
      decreases w
    {
      DropLowest(w);
      w := And(w, w - 1);
      c := c + 1;
    }
  }

  /** The positions of the bits that are 1, below n. */
  function BitSet(v: nat, n: nat): set<nat> {
    set i: nat | i < n && Bit(v, i)
  }

  /** Ones counts them. */
  lemma {:induction false} OnesCounts(v: nat, n: nat)
    requires v < Pow2(n)
    ensures Ones(v) == |BitSet(v, n)|
    decreases n
  {
    if n == 0 {
      assert BitSet(v, n) == {};
    } else {
      OnesCounts(v / 2, n - 1);
      SameSize(BitSet(v / 2, n - 1));
      BitSetMovesUp(v, n);
    }
  }

  lemma BitSetMovesUp(v: nat, n: nat)
    requires n > 0
    ensures BitSet(v, n) == MovedUp(BitSet(v / 2, n - 1)) + (if v % 2 == 1 then {0} else {})
  {
    var lower := BitSet(v / 2, n - 1);
    var upper := MovedUp(lower);
    forall i: nat ensures i in BitSet(v, n) <==> (i == 0 && v % 2 == 1) || i in upper {
      if i > 0 { assert Bit(v, i) == Bit(v / 2, i - 1); assert i - 1 in lower <==> i in upper; }
    }
  }

  function MovedUp(s: set<nat>): set<nat> {
    set i | i in s :: i + 1
  }

  lemma {:induction false} SameSize(s: set<nat>)
    ensures |MovedUp(s)| == |s|
    decreases |s|
  {
    if s == {} {
      assert MovedUp(s) == {};
    } else {
      var x :| x in s;
      var s1 := s - {x};
      SameSize(s1);
      forall y ensures y in MovedUp(s) <==> y in MovedUp(s1) + {x + 1} {
        if y in MovedUp(s) {
          var i :| i in s && i + 1 == y;
          assert i == x || i in s1;
        }
      }
      assert MovedUp(s) == MovedUp(s1) + {x + 1} && x + 1 !in MovedUp(s1);
    }
  }

  // ---------------------------------------------------------------- the lowest bit as a word

  /** -v, in a word of n bits */
  function Negated(v: nat, n: nat): nat {
    (Not(v, n) + 1) % Pow2(n)
  }

  lemma {:induction false} NotIs(v: nat, n: nat)
    requires v < Pow2(n)
    ensures Not(v, n) == Pow2(n) - 1 - v
    decreases n
  {
    if n > 0 { NotIs(v / 2, n - 1); }
  }

  /** v & (~v + 1) leaves exactly the lowest bit of v. */
  lemma {:induction false} LowestRemains(v: nat, n: nat, r: nat)
    requires v < Pow2(n) && IsLowest(v, r)
    ensures And(v, Negated(v, n)) == Pow2(r)
    decreases n
  {
    BitOfZero(r);
    NotIs(v, n);
    ModSmall(Pow2(n) - v, Pow2(n));
    AndWithComplement(v, n, r);
  }

  lemma ModSmall(a: nat, m: nat)
    requires a < m
    ensures a % m == a
  {
  }

  lemma {:induction false} AndWithComplement(v: nat, n: nat, r: nat)
    requires 0 < v < Pow2(n) && IsLowest(v, r)
    ensures And(v, Pow2(n) - v) == Pow2(r)
    decreases n
  {
    assert Bit(v, 0) <==> v % 2 == 1;
    if v % 2 == 1 {
      assert r == 0;
      assert (Pow2(n) - v) / 2 == Pow2(n - 1) - 1 - v / 2;
      NotIs(v / 2, n - 1);
      AndNot(v / 2, n - 1);
    } else {
      assert r > 0;
      assert Bit(v / 2, r - 1);
      forall i: nat | i < r - 1 ensures !Bit(v / 2, i) { assert !Bit(v, i + 1); }
      AndWithComplement(v / 2, n - 1, r - 1);
      assert (Pow2(n) - v) / 2 == Pow2(n - 1) - v / 2;
    }
  }

  lemma {:induction false} AndNot(v: nat, n: nat)
    ensures And(v, Not(v, n)) == 0
    decreases n
  {
    if v != 0 && n > 0 { AndNot(v / 2, n - 1); }
  }

  // ---------------------------------------------------------------- the bit cache of the run queues

  /** With CLZ priority p has bit 31 - p, without it bit p. */
  function Position(clz: bool, p: nat): nat
    requires p < 32
  {
    if clz then 31 - p else p
  }

  /** _set_runqueue_bit */
  function SetRunqueueBit(clz: bool, cache: nat, p: nat): nat
    requires p < 32
  {
    Or(cache, Pow2(Position(clz, p)))
  }

  /** _clear_runqueue_bit */
  function ClearRunqueueBit(clz: bool, cache: nat, p: nat): nat
    requires p < 32
  {
    And(cache, Not(Pow2(Position(clz, p)), 32))
  }

  /** The cache is an index of the set of the priorities whose run queue is not empty. */
  ghost predicate Indexes(clz: bool, cache: nat, queued: set<nat>) {
    && cache < 0x1_0000_0000 && (forall p :: p in queued ==> p < 32)
    && forall p: nat {:trigger p in queued} :: p < 32 ==> (p in queued <==> Bit(cache, Position(clz, p)))
  }

  lemma {:induction false} AndSmall(a: nat, b: nat)
    ensures And(a, b) <= a
  {
    if a != 0 && b != 0 { AndSmall(a / 2, b / 2); }
  }

  lemma {:induction false} OrSmall(a: nat, b: nat, n: nat)
    requires a < Pow2(n) && b < Pow2(n)
    ensures Or(a, b) < Pow2(n)
    decreases n
  {
    if a != 0 && b != 0 { OrSmall(a / 2, b / 2, n - 1); }
  }

  lemma {:induction false} Pow2Grows(n: nat, m: nat)
    requires n < m
    ensures Pow2(n) < Pow2(m)
    decreases m
  {
    if n < m - 1 { Pow2Grows(n, m - 1); }
  }

  lemma SetKeepsIndex(clz: bool, cache: nat, queued: set<nat>, p: nat)
    requires Indexes(clz, cache, queued) && p < 32
    ensures Indexes(clz, SetRunqueueBit(clz, cache, p), queued + {p})
  {
    var at := Position(clz, p);
    PowersOfTwo();
    Pow2Grows(at, 32);
    OrSmall(cache, Pow2(at), 32);
    forall q: nat | q < 32 ensures q in queued + {p} <==> Bit(SetRunqueueBit(clz, cache, p), Position(clz, q)) {
      BitOr(cache, Pow2(at), Position(clz, q));
      BitPow2(at, Position(clz, q));
      assert q in queued <==> Bit(cache, Position(clz, q));
    }
  }

  lemma ClearKeepsIndex(clz: bool, cache: nat, queued: set<nat>, p: nat)
    requires Indexes(clz, cache, queued) && p < 32
    ensures Indexes(clz, ClearRunqueueBit(clz, cache, p), queued - {p})
  {
    var at := Position(clz, p);
    AndSmall(cache, Not(Pow2(at), 32));
    forall q: nat | q < 32 ensures q in queued - {p} <==> Bit(ClearRunqueueBit(clz, cache, p), Position(clz, q)) {
      BitAnd(cache, Not(Pow2(at), 32), Position(clz, q));
      BitNot(Pow2(at), 32, Position(clz, q));
      BitPow2(at, Position(clz, q));
      assert q in queued <==> Bit(cache, Position(clz, q));
    }
  }

  /** The cache is zero exactly if every run queue is empty. */
  lemma NothingIndexed(clz: bool)
    ensures Indexes(clz, 0, {})
  {
    forall p: nat | p < 32 ensures !Bit(0, Position(clz, p)) { BitOfZero(Position(clz, p)); }
  }

  lemma EmptyIndex(clz: bool, cache: nat, queued: set<nat>)
    requires Indexes(clz, cache, queued)
    ensures cache == 0 <==> queued == {}
  {
    if cache == 0 {
      forall p | p in queued ensures false { BitOfZero(Position(clz, p)); }
    } else if queued == {} {
      forall i: nat ensures Bit(cache, i) <==> Bit(0, i) {
        BitOfZero(i);
        if i < 32 {
          assert Position(clz, Position(clz, i)) == i;
          assert Position(clz, i) !in queued;
        } else {
          PowersOfTwo();
          NoBitsAbove(cache, 32, i);
        }
      }
      SameBits(cache, 0);
    }
  }

  /** _get_prio_queue_from_runqueue: in both encodings, the least priority in the set. */
  method LeastPriority(clz: bool, cache: nat, ghost queued: set<nat>) returns (p: nat)
    requires Indexes(clz, cache, queued) && queued != {}
    ensures p in queued && forall q :: q in queued ==> p <= q
  {
    EmptyIndex(clz, cache, queued);
    if clz {
      var r := HighestBit(cache);
      p := 31 - r;
      assert Position(clz, p) == r;
      forall q | q in queued ensures p <= q { assert Bit(cache, Position(clz, q)); }
    } else {
      p := LowestBit(cache);
      PowersOfTwo();
      if p >= 32 { NoBitsAbove(cache, 32, p); }
      forall q | q in queued ensures p <= q { assert Bit(cache, Position(clz, q)); }
    }
  }
}
