/** The circular integer buffer: two counters that wrap at 2^32 and a mask serve as the indices of
    a ring, such as the message queue of a thread. */
module Cib {
  import opened BitArithmetic

  /** UINT_MAX + 1 */
  const UINTS: nat := 0x1_0000_0000

  /** The conversion of an unsigned int to int. */
  function Signed(v: nat): int {
    if v < 0x8000_0000 then v else v - UINTS
  }

  /** write_count - read_count in unsigned arithmetic */
  function Difference(write: nat, read: nat): nat
    requires read < UINTS
  {
    if write >= read then write - read else write + UINTS - read
  }

  /** count++ in unsigned arithmetic: the counter afterwards. */
  function Next(count: nat): nat {
    if count + 1 == UINTS then 0 else count + 1
  }

  // ---------------------------------------------------------------- masks

  /** The n low bits of v. */
  function Low(v: nat, n: nat): (r: nat)
    ensures r < Pow2(n)
  {
    if n == 0 then 0 else v % 2 + 2 * Low(v / 2, n - 1)
  }

  lemma {:induction false} MaskIsLow(v: nat, n: nat)
    ensures And(v, Pow2(n) - 1) == Low(v, n)
  {
    if n > 0 {
      MaskIsLow(v / 2, n - 1);
      assert (Pow2(n) - 1) / 2 == Pow2(n - 1) - 1 && (Pow2(n) - 1) % 2 == 1;
    }
  }

  /** Counters less than a ring apart have different slots. */
  lemma {:induction false} SlotsDiffer(a: nat, b: nat, n: nat)
    requires a < b < a + Pow2(n)
    ensures Low(a, n) != Low(b, n)
  {
    if n > 0 && a % 2 == b % 2 {
      assert b - a == 2 * (b / 2 - a / 2);
      SlotsDiffer(a / 2, b / 2, n - 1);
    }
  }

  /** A ring has the same slot for counters that differ by a multiple of its size. */
  lemma {:induction false} SlotsWrap(v: nat, n: nat, m: nat)
    requires n <= m
    ensures Low(v + Pow2(m), n) == Low(v, n)
  {
    if n > 0 {
      assert (v + Pow2(m)) % 2 == v % 2 && (v + Pow2(m)) / 2 == v / 2 + Pow2(m - 1);
      SlotsWrap(v / 2, n - 1, m - 1);
    }
  }

  lemma LastSlot(n: nat)
    requires n <= 32
    ensures Pow2(n) <= UINTS && (n < 32 ==> Pow2(n) <= 0x8000_0000) && (n < 31 ==> Pow2(n) < 0x8000_0000) &&
        Pow2(31) == 0x8000_0000
  {
    PowersOfTwo();
    assert Pow2(32) == 2 * Pow2(31) && Pow2(31) == 2 * Pow2(30);
    if n < 32 { Pow2Grows(n, 32); }
    if n < 31 { Pow2Grows(n, 31); }
  }

  ghost predicate IsPower(v: nat) {
    exists n: nat :: v == Pow2(n)
  }

  lemma IsPowerHalf(v: nat)
    requires v > 0 && v % 2 == 0
    ensures IsPower(v) <==> IsPower(v / 2)
  {
    if IsPower(v) {
      var n: nat :| v == Pow2(n);
      assert n > 0 && v / 2 == Pow2(n - 1);
    }
    if IsPower(v / 2) {
      var n: nat :| v / 2 == Pow2(n);
      assert v == Pow2(n + 1);
    }
  }

  lemma IsPowerOdd(v: nat)
    requires v % 2 == 1
    ensures IsPower(v) <==> v == 1
  {
    if v == 1 { assert v == Pow2(0); }
    if IsPower(v) {
      var n: nat :| v == Pow2(n);
      assert n > 0 ==> v == 2 * Pow2(n - 1);
    }
  }

  /** What cib_init asserts is that the size is 0 or a power of 2. */
  lemma {:induction false} PowerOfTwoTest(size: nat)
    requires size > 0
    ensures And(size, size - 1) == 0 <==> IsPower(size)
  {
    if size % 2 == 1 {
      AndSelf(size / 2);
      IsPowerOdd(size);
      assert (size - 1) / 2 == size / 2 && (size - 1) % 2 == 0;
    } else {
      PowerOfTwoTest(size / 2);
      IsPowerHalf(size);
      assert (size - 1) / 2 == size / 2 - 1;
    }
  }

  /** The slot of the i-th item from the one that `read` counts. */
  function Slot(read: nat, i: nat, n: nat): nat {
    Low(read + i, n)
  }

  /** Counting on from a counter that may have wrapped. */
  lemma NextSlot(c: nat, i: nat, n: nat)
    requires c < UINTS && n <= 32
    ensures Slot(Next(c), i, n) == Slot(c, i + 1, n)
  {
    PowersOfTwo();
    if c + 1 == UINTS { SlotsWrap(i, n, 32); }
  }

  lemma WriteSlot(write: nat, read: nat, n: nat)
    requires write < UINTS && read < UINTS && n <= 32
    ensures Low(write, n) == Slot(read, Difference(write, read), n)
  {
    PowersOfTwo();
    if write < read { SlotsWrap(write, n, 32); }
  }

  lemma CountOn(write: nat, read: nat, n: nat)
    requires write < UINTS && read < UINTS && n < 32 && Difference(write, read) <= Pow2(n)
    ensures Difference(Next(write), read) == Difference(write, read) + 1 && Next(write) < UINTS
  {
    LastSlot(n);
  }

  /** The slot behind the items of a ring that is not full is not one of theirs. */
  lemma OtherSlots(read: nat, count: nat, n: nat)
    requires count < Pow2(n)
    ensures forall i :: 0 <= i < count ==> Slot(read, i, n) != Slot(read, count, n)
  {
    forall i | 0 <= i < count ensures Slot(read, i, n) != Slot(read, count, n) {
      SlotsDiffer(read + i, read + count, n);
    }
  }

  /** The signed comparison of cib_put finds a full ring, unless its size is 2^31. */
  lemma PutTest(avail: nat, mask: nat, size: nat, n: nat)
    requires n <= 32 && mask == Pow2(n) - 1 && size == (if n == 32 then 0 else Pow2(n)) && avail <= size
    ensures Signed(avail) <= Signed(mask) <==> avail < size || n == 31
    ensures size <= 0x8000_0000
  {
    LastSlot(n);
    PowersOfTwo();
  }

  /** The sizes for which all tests are right: 0, and the powers of 2 below 2^31. */
  ghost predicate IsSize(size: nat) {
    size == 0 || exists n: nat :: n < 31 && size == Pow2(n)
  }

  // ---------------------------------------------------------------- the counters

  /** cib_t */
  datatype Counters = Counters(read: nat, write: nat, mask: nat)

  /** CIB_INIT */
  function Fresh(size: nat): Counters {
    Counters(0, 0, if size == 0 then UINTS - 1 else size - 1)
  }

  /** cib_avail */
  function Avail(c: Counters): nat
    requires c.read < UINTS
  {
    Difference(c.write, c.read)
  }

  /** cib_size */
  function Size(c: Counters): nat {
    if c.mask + 1 == UINTS then 0 else c.mask + 1
  }

  /** cib_full */
  predicate Full(c: Counters)
    requires c.read < UINTS
  {
    Signed(Avail(c)) > Signed(c.mask)
  }

  /** The slot of the oldest item. */
  function ReadSlot(c: Counters): nat {
    And(c.read, c.mask)
  }

  /** The slot for the next item. */
  function FreeSlot(c: Counters): nat {
    And(c.write, c.mask)
  }

  /** cib_get and cib_put, when there is something to get and room to put. */
  function AfterGet(c: Counters): Counters {
    c.(read := Next(c.read))
  }

  function AfterPut(c: Counters): Counters {
    c.(write := Next(c.write))
  }

  /** The ring of size 2 to the power of n, or 0 if n is 32, holds q in these items, oldest first. */
  ghost predicate Holds<T(!new)>(c: Counters, items: seq<T>, q: seq<T>, n: nat) {
    && n <= 32 && c.mask == Pow2(n) - 1 && c.read < UINTS && c.write < UINTS
    && |items| == (if n == 32 then 0 else Pow2(n))
    && |q| == Difference(c.write, c.read) && |q| <= |items|
    && forall i :: 0 <= i < |q| ==> items[Slot(c.read, i, n)] == q[i]
  }

  lemma FreshHolds<T(!new)>(items: seq<T>, n: nat)
    requires if |items| == 0 then n == 32 else n < 32 && |items| == Pow2(n)
    ensures Holds(Fresh(|items|), items, [], n)
  {
    PowersOfTwo();
  }

  /** cib_full finds a full ring, unless its size is 2^31. */
  lemma FullIs<T(!new)>(c: Counters, items: seq<T>, q: seq<T>, n: nat)
    requires Holds(c, items, q, n)
    ensures Full(c) <==> |q| == |items| && n != 31
    ensures Size(c) == |items| && Avail(c) == |q|
  {
    PutTest(|q|, c.mask, |items|, n);
    LastSlot(n);
    PowersOfTwo();
  }

  /** The slot that is read holds the oldest item, */
  lemma ReadsFirst<T(!new)>(c: Counters, items: seq<T>, q: seq<T>, n: nat)
    requires Holds(c, items, q, n) && q != []
    ensures ReadSlot(c) < |items| && items[ReadSlot(c)] == q[0]
  {
    MaskIsLow(c.read, n);
    assert Slot(c.read, 0, n) == Low(c.read, n);
  }

  /** which then leaves the ring. */
  lemma GetHolds<T(!new)>(c: Counters, items: seq<T>, q: seq<T>, n: nat)
    requires Holds(c, items, q, n) && q != []
    ensures Holds(AfterGet(c), items, q[1..], n)
  {
    var c' := AfterGet(c);
    forall i | 0 <= i < |q[1..]| ensures Slot(c'.read, i, n) == Slot(c.read, i + 1, n) { NextSlot(c.read, i, n); }
  }

  lemma FreeSlotIs<T(!new)>(c: Counters, items: seq<T>, q: seq<T>, n: nat)
    requires Holds(c, items, q, n)
    ensures FreeSlot(c) == Slot(c.read, |q|, n)
  {
    MaskIsLow(c.write, n);
    WriteSlot(c.write, c.read, n);
  }

  /** An item that is put in comes behind the others, which keep their slots. */
  lemma PutHolds<T(!new)>(c: Counters, items: seq<T>, q: seq<T>, n: nat, x: T)
    requires Holds(c, items, q, n) && |q| < |items|
    ensures FreeSlot(c) < |items| && Holds(AfterPut(c), items[FreeSlot(c) := x], q + [x], n)
  {
    FreeSlotIs(c, items, q, n);
    OtherSlots(c.read, |q|, n);
    CountOn(c.write, c.read, n);
  }

  /** In a full ring the slot for the next item is that of the oldest. */
  lemma FullSlot<T(!new)>(c: Counters, items: seq<T>, q: seq<T>, n: nat)
    requires Holds(c, items, q, n) && |q| == |items| && n < 32
    ensures FreeSlot(c) == ReadSlot(c) == Low(c.read, n) && Avail(AfterPut(c)) == |items| + 1
  {
    FreeSlotIs(c, items, q, n);
    SlotsWrap(c.read, n, n);
    MaskIsLow(c.read, n);
    CountOn(c.write, c.read, n);
  }

  // ---------------------------------------------------------------- the ring

  /** A cib_t with the array that it indexes. */
  class Ring<T(0, !new)> {
    var cib: Counters
    const items: array<T>
    ghost const bits: nat        // the size is 2 to the power of bits, or 0 if bits is 32
    ghost var contents: seq<T>   // what is in the ring, oldest first

    ghost predicate Valid()
      reads this, items
    {
      Holds(cib, items[..], contents, bits)
    }

    /** cib_init */
    constructor (size: nat, ghost bits0: nat)
      requires if size == 0 then bits0 == 32 else bits0 < 32 && size == Pow2(bits0)
      ensures Valid() && contents == [] && items.Length == size && fresh(items) && bits == bits0
    {
      cib := Fresh(size);
      items := new T[size];
      bits := bits0;
      contents := [];
      new;
      FreshHolds(items[..], bits);
    }

    /** cib_get: the slot of the oldest item, which leaves the ring; -1 if there is none. */
    method Get() returns (slot: int)
      requires Valid()
      modifies this`cib, this`contents
      ensures Valid()
      ensures slot == -1 <==> old(contents) == []
      ensures slot == -1 ==> contents == []
      ensures slot != -1 ==>
          0 <= slot < items.Length && items[slot] == old(contents)[0] && contents == old(contents)[1..]
    {
      if Avail(cib) != 0 {
        ReadsFirst(cib, items[..], contents, bits);
        GetHolds(cib, items[..], contents, bits);
        slot := ReadSlot(cib);
        cib := AfterGet(cib);
        contents := contents[1..];
      } else {
        slot := -1;
      }
    }

    /** cib_peek */
    method Peek() returns (slot: int)
      requires Valid()
      ensures slot == -1 <==> contents == []
      ensures slot != -1 ==> 0 <= slot < items.Length && items[slot] == contents[0]
    {
      if Avail(cib) != 0 {
        ReadsFirst(cib, items[..], contents, bits);
        slot := ReadSlot(cib);
      } else {
        slot := -1;
      }
    }

    /** cib_put, and the store into the slot it yields.  The slot is -1 exactly if the ring is full,
        unless its size is 2^31: then the signed comparison lets the oldest item be overwritten. */
    method Put(x: T) returns (slot: int)
      requires Valid()
      modifies this`cib, this`contents, items
      ensures slot == -1 <==> |old(contents)| == items.Length && bits != 31
      ensures slot == -1 ==> Valid() && contents == old(contents) && items[..] == old(items[..])
      ensures |old(contents)| < items.Length ==> Valid() && 0 <= slot < items.Length && contents == old(contents) + [x]
      ensures |old(contents)| == items.Length && bits == 31 ==>
                slot == Low(old(cib).read, bits) && items[..] == old(items[..])[slot := x] && cib == AfterPut(old(cib))
    {
      FullIs(cib, items[..], contents, bits);
      if Full(cib) {
        slot := -1;
      } else {
        if |contents| < items.Length {
          PutHolds(cib, items[..], contents, bits, x);
        } else {
          FullSlot(cib, items[..], contents, bits);
          ReadsFirst(cib, items[..], contents, bits);
        }
        slot := FreeSlot(cib);
        contents := if |contents| < items.Length then contents + [x] else contents;
        items[slot] := x;
        cib := AfterPut(cib);
      }
    }
  }
}
