/**
 The mirrored ring buffer: capacity bytes of memory mapped twice in a row, so that any run
 of up to capacity bytes starting below capacity can be read or written without a seam.
 */
module RingBuffer {
  import opened ModArith

  newtype Byte = x: int | 0 <= x < 256

  /** The byte that address a is mapped to. */
  function Slot(a: nat, m: nat): (r: nat)
    requires m > 0
    ensures r < m
  {
    a % m
  }

  lemma SlotAdd(a: nat, k: nat, m: nat)
    requires m > 0
    ensures Slot(Slot(a, m) + k, m) == Slot(a + k, m)
  {
    ModAdd(a, k, m);
  }

  lemma SlotSmall(a: nat, m: nat)
    requires a < m
    ensures Slot(a, m) == a
  {
    ModSmall(a, m);
  }

  /** Two addresses less than a capacity apart are different bytes. */
  lemma SlotsDiffer(a: nat, b: nat, m: nat)
    requires m > 0 && a < b < a + m
    ensures Slot(a, m) != Slot(b, m)
  {
    ModSub(b, a, m);
    ModSmall(b - a, m);
    ModSmall(0, m);
  }

  /** n bytes from address a on, through the mapping. */
  ghost function Bytes(mem: seq<Byte>, a: nat, n: nat): (r: seq<Byte>)
    requires |mem| > 0
    ensures |r| == n && forall i: nat | i < n :: r[i] == mem[Slot(a + i, |mem|)]
  {
    seq(n, i requires 0 <= i < n => mem[Slot(a + i, |mem|)])
  }

  lemma BytesSplit(mem: seq<Byte>, a: nat, n: nat, k: nat)
    requires |mem| > 0 && k <= n
    ensures Bytes(mem, a, n) == Bytes(mem, a, k) + Bytes(mem, Slot(a + k, |mem|), n - k)
  {
    hide Slot;
    var r := Bytes(mem, a, k) + Bytes(mem, Slot(a + k, |mem|), n - k);
    forall i: nat | i < n
      ensures Bytes(mem, a, n)[i] == r[i]
    {
      if i >= k { SlotAdd(a + k, i - k, |mem|); }
    }
  }

  /** Memory that differs at most in the k bytes from address w on. */
  ghost predicate Elsewhere(mem: seq<Byte>, mem': seq<Byte>, w: nat, k: nat) {
    && 0 < |mem| == |mem'|
    && forall j: nat | j < |mem| && mem'[j] != mem[j] :: exists i: nat :: i < k && Hits(w, i, |mem|, j)
  }

  ghost predicate Hits(w: nat, i: nat, m: nat, j: nat) { m > 0 && Slot(w + i, m) == j }

  /** Writing behind the data leaves the data alone. */
  lemma BytesSame(mem: seq<Byte>, mem': seq<Byte>, a: nat, n: nat, w: nat, k: nat)
    requires Elsewhere(mem, mem', w, k) && n + k <= |mem| && w == Slot(a + n, |mem|)
    ensures Bytes(mem', a, n) == Bytes(mem, a, n)
  {
    hide Slot;
    forall i: nat | i < n
      ensures Bytes(mem', a, n)[i] == Bytes(mem, a, n)[i]
    {
      var j := Slot(a + i, |mem|);
      if mem'[j] != mem[j] {
        var l: nat :| l < k && Hits(w, l, |mem|, j);
        SlotAdd(a + n, l, |mem|);
        SlotsDiffer(a + i, a + n + l, |mem|);
      }
    }
  }

  /** One more byte written. */
  lemma Writes(mem: seq<Byte>, mem': seq<Byte>, w: nat, data: seq<Byte>, i: nat)
    requires Elsewhere(mem, mem', w, i) && i < |data| <= |mem| && Bytes(mem', w, i) == data[..i]
    ensures var mem'' := mem'[Slot(w + i, |mem|) := data[i]];
            Elsewhere(mem, mem'', w, i + 1) && Bytes(mem'', w, i + 1) == data[..i + 1]
  {
    hide Slot;
    var mem'' := mem'[Slot(w + i, |mem|) := data[i]];
    forall j: nat | j < |mem| && mem''[j] != mem[j]
      ensures exists l: nat :: l < i + 1 && Hits(w, l, |mem|, j)
    {
      if j == Slot(w + i, |mem|) {
        assert Hits(w, i, |mem|, j);
      } else {
        var l: nat :| l < i && Hits(w, l, |mem|, j);
      }
    }
    forall l: nat | l < i + 1
      ensures Bytes(mem'', w, i + 1)[l] == data[l]
    {
      if l < i {
        SlotsDiffer(w + l, w + i, |mem|);
        assert Bytes(mem', w, i)[l] == data[..i][l];
      }
    }
  }

  class Buffer {
    const mem: array<Byte>
    var head: nat
    var tail: nat
    var size: nat

    ghost predicate Valid()
      reads this
    {
      head < mem.Length && size <= mem.Length && tail == Slot(head + size, mem.Length)
    }

    /** The bytes committed and not yet consumed: the `size` bytes from the read head on. */
    ghost function Contents(): (r: seq<Byte>)
      requires Valid()
      reads this, mem
      ensures |r| == size
    {
      Bytes(mem[..], head, size)
    }

    constructor (capacity: nat)
      requires capacity > 0
      ensures Valid() && Contents() == [] && mem.Length == capacity && fresh(mem)
    {
      mem := new Byte[capacity](_ => 0);
      head, tail, size := 0, 0, 0;
      new;
      SlotSmall(0, capacity);
    }

    /** The user's own writing at the write head, within the free size. */
    method Write(data: seq<Byte>)
      requires Valid() && |data| <= mem.Length - size
      modifies mem
      ensures Valid() && Contents() == old(Contents()) && Bytes(mem[..], tail, |data|) == data
    {
      hide Slot;
      var i := 0;
      ghost var before := mem[..];
      while i < |data|
        invariant i <= |data| && Elsewhere(before, mem[..], tail, i) && Bytes(mem[..], tail, i) == data[..i]
      {
        Writes(before, mem[..], tail, data, i);
        mem[Slot(tail + i, mem.Length)] := data[i];
        i := i + 1;
      }
      BytesSame(before, mem[..], head, size, tail, |data|);
    }

    /** Makes the n bytes at the write head part of the contents. */
    method Commit(n: nat)
      requires Valid() && n <= mem.Length - size
      modifies `tail, `size
      ensures Valid() && Contents() == old(Contents()) + Bytes(mem[..], old(tail), n)
    {
      hide Slot;
      BytesSplit(mem[..], head, size + n, size);
      SlotAdd(head + size, n, mem.Length);
      tail := Slot(tail + n, mem.Length);
      size := size + n;
    }

    method Consume(n: nat)
      requires Valid() && n <= size
      modifies `head, `size
      ensures Valid() && Contents() == old(Contents())[n..]
    {
      hide Slot;
      BytesSplit(mem[..], head, size, n);
      SlotAdd(head + n, size - n, mem.Length);
      head := Slot(head + n, mem.Length);
      size := size - n;
    }

    method Clear()
      requires Valid()
      modifies `head, `tail, `size
      ensures Valid() && Contents() == []
    {
      SlotSmall(0, mem.Length);
      tail, head, size := 0, 0, 0;
    }

    /** Copies len bytes from the read head on, which lie in one piece in the doubled mapping, and consumes them. */
    method PopBytes(len: nat) returns (out: seq<Byte>)
      requires Valid() && len <= size
      modifies `head, `size
      ensures Valid() && size == old(size) - len
      ensures out == old(Contents())[..len] && Contents() == old(Contents())[len..]
    {
      hide Slot;
      out := [];
      var i := 0;
      while i < len
        invariant i <= len && out == Bytes(mem[..], head, size)[..i]
      {
        out := out + [mem[Slot(head + i, mem.Length)]];
        i := i + 1;
      }
      Consume(len);
    }

    /** A two-byte number, low byte first. */
    method PopUint16() returns (v: nat)
      requires Valid() && 2 <= size
      modifies `head, `size
      ensures Valid() && size == old(size) - 2 && Contents() == old(Contents())[2..]
      ensures v == old(Contents())[0] as nat + 256 * old(Contents())[1] as nat
    {
      var b := PopBytes(2);
      v := b[0] as nat + 256 * b[1] as nat;
    }

    /** A two-byte length and that many bytes; the string gets a zero at its end. */
    method PopString() returns (s: seq<Byte>)
      requires Valid() && 2 <= size && 2 + (Contents()[0] as nat + 256 * Contents()[1] as nat) <= size
      modifies `head, `size
      ensures var l := old(Contents())[0] as nat + 256 * old(Contents())[1] as nat;
              Valid() && s == old(Contents())[2..2 + l] + [0] && Contents() == old(Contents())[2 + l..]
    {
      var l := PopUint16();
      s := PopBytes(l);
      s := s + [0];
    }
  }
}
