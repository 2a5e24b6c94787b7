/** The byte ring buffer: a bounded queue of bytes in an array that wraps around. */
module RingBuffer {

  type Byte = b: nat | b < 256

  /** UINT_MAX + 1 */
  const UINTS: nat := 0x1_0000_0000

  function Min(a: nat, b: nat): nat {
    if a < b then a else b
  }

  /** The n elements of s from position i on, where position 0 follows the last one. */
  function Window<T>(s: seq<T>, i: nat, n: nat): (w: seq<T>)
    requires i <= |s| && n <= |s|
    ensures |w| == n
  {
    if i + n <= |s| then s[i..i + n] else s[i..] + s[..i + n - |s|]
  }

  /** Dropping the first m elements moves the start on, around the end. */
  lemma WindowDrop<T>(s: seq<T>, i: nat, n: nat, m: nat)
    requires i <= |s| && m <= n <= |s|
    ensures i + m <= |s| ==> Window(s, i, n)[m..] == Window(s, i + m, n - m)
    ensures i + m >= |s| ==> Window(s, i, n)[m..] == Window(s, i + m - |s|, n - m)
  {
    if i + m < |s| < i + n {
      assert Window(s, i, n)[m..] == s[i + m..] + s[..i + n - |s|];
    }
  }

  lemma WindowTake<T>(s: seq<T>, i: nat, n: nat, m: nat)
    requires i <= |s| && m <= n <= |s|
    ensures Window(s, i, n)[..m] == Window(s, i, m)
  {
  }

  /** What one call of ringbuffer_get takes off a queue, by repeated ringbuffer_get_one. */
  function Gets<T>(q: seq<T>, n: nat): (seq<T>, seq<T>) {
    if n == 0 || q == [] then ([], q)
    else var (got, rest) := Gets(q[1..], n - 1); ([q[0]] + got, rest)
  }

  /** Taking elements one by one yields the same elements, and leaves the same, as at once. */
  lemma {:induction false} BulkIsRepeated<T>(q: seq<T>, n: nat)
    ensures Gets(q, n) == (q[..Min(n, |q|)], q[Min(n, |q|)..])
  {
    if n != 0 && q != [] {
      BulkIsRepeated(q[1..], n - 1);
      var m := Min(n - 1, |q| - 1);
      assert [q[0]] + q[1..][..m] == q[..m + 1] && q[1..][m..] == q[m + 1..];
    }
  }

  /** memcpy(dst + d, src + s, n) */
  method Copy(dst: array<Byte>, d: nat, src: array<Byte>, s: nat, n: nat)
    requires dst != src && d + n <= dst.Length && s + n <= src.Length
    modifies dst
    ensures dst[..] == old(dst[..d]) + src[s..s + n] + old(dst[d + n..])
  {
    var i := 0;
    while i < n
      invariant 0 <= i <= n
      invariant forall k :: 0 <= k < dst.Length ==> dst[k] == if d <= k < d + i then src[s + (k - d)] else old(dst[k])
    {
      dst[d + i] := src[s + i];
      i := i + 1;
    }
  }

  /** ringbuffer_t */
  class Buffer {
    const buf: array<Byte>
    var start: nat
    var avail: nat

    /** No sum of two indices of a buffer of up to 2^31 bytes overflows. */
    ghost predicate Valid()
      reads this
    {
      1 <= buf.Length && 2 * buf.Length <= UINTS && start < buf.Length && avail <= buf.Length
    }

    /** The bytes in the buffer, oldest first. */
    ghost function Contents(): (q: seq<Byte>)
      requires Valid()
      reads this, buf
      ensures |q| == avail
    {
      Window(buf[..], start, avail)
    }

    /** ringbuffer_init */
    constructor (buffer: array<Byte>)
      requires 1 <= buffer.Length && 2 * buffer.Length <= UINTS
      ensures Valid() && buf == buffer && Contents() == []
    {
      buf, start, avail := buffer, 0, 0;
    }

    constructor CopyOf(rb: Buffer)
      requires rb.Valid()
      ensures Valid() && buf == rb.buf && start == rb.start && avail == rb.avail
    {
      buf, start, avail := rb.buf, rb.start, rb.avail;
    }

    /** ringbuffer_empty */
    predicate Empty()
      reads this
    {
      avail == 0
    }

    /** ringbuffer_full */
    predicate Full()
      reads this
    {
      avail == buf.Length
    }

    /** ringbuffer_get_free */
    function GetFree(): (r: nat)
      requires Valid()
      reads this, buf
      ensures r + |Contents()| == buf.Length
    {
      buf.Length - avail
    }

    /** add_tail */
    method AddTail(c: Byte)
      requires Valid() && avail < buf.Length
      modifies this`avail, buf
      ensures Valid() && Contents() == old(Contents()) + [c]
    {
      assert start + avail < UINTS;
      var pos := start + avail;
      avail := avail + 1;
      if pos >= buf.Length { pos := pos - buf.Length; }
      buf[pos] := c;
    }

    /** get_head */
    method GetHead() returns (c: Byte)
      requires Valid() && avail > 0
      modifies this`start, this`avail
      ensures Valid() && c == old(Contents())[0] && Contents() == old(Contents())[1..]
    {
      WindowDrop(buf[..], start, avail, 1);
      c := buf[start];
      avail := avail - 1;
      if avail == 0 {
        start := 0;
      } else {
        start := start + 1;
        if start == buf.Length { start := 0; }
      }
    }

    /** ringbuffer_add */
    method Add(src: array<Byte>, n: nat) returns (i: nat)
      requires Valid() && n <= src.Length && n < UINTS && src != buf
      modifies this`avail, buf
      ensures Valid() && i == Min(n, buf.Length - |old(Contents())|) && Contents() == old(Contents()) + src[..i]
    {
      i := 0;
      assert src[..0] == [];
      while i < n
        invariant Valid() && 0 <= i <= n && src[..] == old(src[..])
        invariant Contents() == old(Contents()) + src[..i]
      {
        if Full() { break; }
        AddTail(src[i]);
        assert src[..i + 1] == src[..i] + [src[i]];
        i := i + 1;
      }
    }

    /** ringbuffer_add_one: a full buffer loses its oldest byte, which is returned. */
    method AddOne(c: Byte) returns (result: int)
      requires Valid()
      modifies this`start, this`avail, buf
      ensures Valid()
      ensures |old(Contents())| == buf.Length ==>
          result == old(Contents())[0] && Contents() == old(Contents())[1..] + [c]
      ensures |old(Contents())| < buf.Length ==> result == -1 && Contents() == old(Contents()) + [c]
    {
      result := -1;
      if Full() { result := GetHead(); }
      AddTail(c);
    }

    /** ringbuffer_get_one */
    method GetOne() returns (result: int)
      requires Valid()
      modifies this`start, this`avail
      ensures Valid()
      ensures old(Contents()) == [] ==> result == -1 && Contents() == []
      ensures old(Contents()) != [] ==> result == old(Contents())[0] && Contents() == old(Contents())[1..]
    {
      if !Empty() {
        result := GetHead();
      } else {
        result := -1;
      }
    }

    /** The copy of ringbuffer_get, in two parts if the bytes wrap around, and the new start. */
    method CopyOut(dst: array<Byte>, n: nat)
      requires Valid() && 0 < n <= avail && n <= dst.Length && dst != buf
      modifies this`start, dst
      ensures start == (if old(start) + n < buf.Length then old(start) + n else old(start) + n - buf.Length)
      ensures dst[..] == Window(buf[..], old(start), n) + old(dst[n..])
    {
      var tillEnd := buf.Length - start;
      if tillEnd >= n {
        Copy(dst, 0, buf, start, n);
        assert buf[..][start..start + n] == buf[start..start + n];
        start := if tillEnd == n then 0 else start + n;
      } else {
        CopyInTwo(dst, start, n);
        start := n - tillEnd;
      }
    }

    method CopyInTwo(dst: array<Byte>, from: nat, n: nat)
      requires from < buf.Length < from + n && n <= buf.Length && n <= dst.Length && dst != buf
      modifies dst
      ensures dst[..] == Window(buf[..], from, n) + old(dst[n..])
    {
      var tillEnd := buf.Length - from;
      Copy(dst, 0, buf, from, tillEnd);
      assert dst[..tillEnd] == buf[from..] && dst[n..] == old(dst[n..]) by {
        assert dst[..] == buf[from..] + old(dst[tillEnd..]);
      }
      Copy(dst, tillEnd, buf, 0, n - tillEnd);
    }

    method TakeOut(dst: array<Byte>, n: nat)
      requires Valid() && 0 < n <= avail && n <= dst.Length && dst != buf
      modifies this`start, this`avail, dst
      ensures Valid() && Contents() == old(Contents())[n..] && dst[..] == old(Contents())[..n] + old(dst[n..])
    {
      WindowDrop(buf[..], start, avail, n);
      WindowTake(buf[..], start, avail, n);
      CopyOut(dst, n);
      avail := avail - n;
    }

    /** ringbuffer_get: the same as getting the bytes one by one. */
    method Get(dst: array<Byte>, n0: nat) returns (n: nat)
      requires Valid() && n0 <= dst.Length && dst != buf
      modifies this`start, this`avail, dst
      ensures Valid() && n == Min(n0, |old(Contents())|)
      ensures Contents() == old(Contents())[n..] && dst[..] == old(Contents())[..n] + old(dst[n..])
      ensures (dst[..n], Contents()) == Gets(old(Contents()), n0)
    {
      BulkIsRepeated(Contents(), n0);
      n := if n0 > avail then avail else n0;
      if n > 0 { TakeOut(dst, n); }
    }

    /** ringbuffer_remove: like ringbuffer_get, without the data. */
    method Remove(n0: nat) returns (n: nat)
      requires Valid()
      modifies this`start, this`avail
      ensures Valid() && n == Min(n0, |old(Contents())|) && Contents() == old(Contents())[n..]
    {
      n := n0;
      if n0 > avail {
        n := avail;
        start, avail := 0, 0;
      } else {
        WindowDrop(buf[..], start, avail, n);
        assert start + n < UINTS;
        start := start + n;
        avail := avail - n;
        if start >= buf.Length { start := start - buf.Length; }
      }
    }

    /** ringbuffer_peek_one */
    method PeekOne() returns (result: int)
      requires Valid()
      ensures result == if Contents() == [] then -1 else Contents()[0]
    {
      var rb := new Buffer.CopyOf(this);
      result := rb.GetOne();
    }

    /** ringbuffer_peek */
    method Peek(dst: array<Byte>, n0: nat) returns (n: nat)
      requires Valid() && n0 <= dst.Length && dst != buf
      modifies dst
      ensures n == Min(n0, |Contents()|) && dst[..] == Contents()[..n] + old(dst[n..])
    {
      var rb := new Buffer.CopyOf(this);
      n := rb.Get(dst, n0);
    }
  }
}
