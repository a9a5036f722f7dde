/**
 The two-level bitmap: array2 holds the bits in 64-bit slabs, eight to a cache line, and
 array1 holds one bit per cache line.  Scanning resumes where the last scan stopped.
 */
module Bitmap {
  import opened PowerOfTwo
  import ModArith

  /** A 64-bit slab, as the set of its one bits. */
  type Word = w: set<nat> | forall b | b in w :: b < 64 witness {}

  function Slab(a2: seq<Word>, i: int): Word { if 0 <= i < |a2| then a2[i] else {} }

  ghost predicate LineFull(a2: seq<Word>, l: int) { exists i | 8 * l <= i < 8 * l + 8 :: Slab(a2, i) != {} }

  /** A bit of array1 is set exactly when its cache line is not all zeros. */
  ghost predicate Summary(a1: seq<Word>, a2: seq<Word>) {
    forall s, o | 0 <= s < |a1| && 0 <= o < 64 :: o in a1[s] <==> LineFull(a2, 64 * s + o)
  }

  /** mask1: the bits above o. */
  function Above(w: Word, o: nat): Word { set b | b in w && b > o }

  /** The lowest one bit, if any. */
  method FirstBit(w: Word) returns (found: bool, pos: nat)
    ensures found <==> w != {}
    ensures found ==> pos in w && forall b | b in w :: pos <= b
  {
    pos := 0;
    while pos < 64
      invariant pos <= 64 && forall b | b in w :: pos <= b
    {
      if pos in w { return true, pos; }
      pos := pos + 1;
    }
    found := false;
    assert forall b :: b !in w;
  }

  // ---------------------------------------------------------------- cyclic order

  /** Slab p is the first one that is not empty, going round from slab c. */
  ghost predicate NextFull(a2: seq<Word>, total: nat, c: nat, p: nat) {
    && p < total && Slab(a2, p) != {}
    && (c <= p ==> forall q | c <= q < p :: Slab(a2, q) == {})
    && (p < c ==> (forall q | c <= q < total :: Slab(a2, q) == {}) && (forall q | 0 <= q < p :: Slab(a2, q) == {}))
  }

  ghost predicate Blank(a2: seq<Word>) { forall i | 0 <= i < |a2| :: a2[i] == {} }

  /** The non-empty slabs among the next n, going round from slab c. */
  ghost function Sweep(a2: seq<Word>, total: nat, c: nat, n: nat): seq<nat>
    requires c < total
    decreases n
  {
    if n == 0 then []
    else
      var rest := Sweep(a2, total, (c + 1) % total, n - 1);
      if Slab(a2, c) != {} then [c] + rest else rest
  }

  /** Cache lines for n bits, in 32-bit arithmetic. */
  function LineCount(n: nat): nat { (n + 511) % WORD32 / 512 }

  /** The lines cover the bits exactly when the rounding up does not overflow. */
  lemma LinesCover(n: nat)
    requires 0 < n < WORD32
    ensures 512 * LineCount(n) >= n <==> n <= WORD32 - 512
    ensures n <= WORD32 - 512 ==> 512 * LineCount(n) < n + 512
  {
  }

  /** Bit p is set. */
  predicate Has(a2: seq<Word>, p: nat) { p % 64 in Slab(a2, p / 64) }

  lemma LineOf(pos: nat)
    ensures 64 * (pos / 32768) + (pos / 512) % 64 == pos / 512 == pos / 64 / 8
    ensures 8 * (pos / 512) <= pos / 64 < 8 * (pos / 512) + 8
  {
  }

  lemma LineChange(a2: seq<Word>, i: nat, w: Word, l: int)
    requires i < |a2| && !(8 * l <= i < 8 * l + 8)
    ensures LineFull(a2[i := w], l) == LineFull(a2, l)
  {
    var a2' := a2[i := w];
    if LineFull(a2, l) {
      var k :| 8 * l <= k < 8 * l + 8 && Slab(a2, k) != {};
      assert Slab(a2', k) != {};
    }
    if LineFull(a2', l) {
      var k :| 8 * l <= k < 8 * l + 8 && Slab(a2', k) != {};
      assert Slab(a2, k) != {};
    }
  }

  /** The summary after slab i of line 64 * s + o changed to w and the line's bit to `full`. */
  lemma SummaryChange(a1: seq<Word>, a2: seq<Word>, s: nat, o: nat, i: nat, w: Word, v: Word)
    requires Summary(a1, a2) && s < |a1| && o < 64 && i < |a2| && 8 * (64 * s + o) <= i < 8 * (64 * s + o) + 8
    requires v - {o} == a1[s] - {o}
    ensures Summary(a1[s := v], a2[i := w]) <==> (o in v <==> LineFull(a2[i := w], 64 * s + o))
  {
    var a1', a2' := a1[s := v], a2[i := w];
    forall r, b | 0 <= r < |a1| && 0 <= b < 64 && !(r == s && b == o)
      ensures b in a1'[r] <==> LineFull(a2', 64 * r + b)
    {
      LineChange(a2, i, w, 64 * r + b);
      assert b in a1'[r] <==> b in a1[r] by {
        if r == s { assert b in v - {o} <==> b in a1[s] - {o}; }
      }
    }
    if Summary(a1', a2') { assert o in a1'[s] <==> LineFull(a2', 64 * s + o); }
  }

  class Map {
    const lines: array<Word>            // array1
    const slabs: array<Word>            // array2
    var index1: nat
    var offset1: nat
    var index2: nat
    var go2: nat

    ghost predicate Shape()
      reads this
    {
      && lines != slabs && IsPow2(lines.Length) && lines.Length >= 1 && slabs.Length % 8 == 0 &&
        slabs.Length <= 512 * lines.Length
      && index1 < lines.Length && offset1 < 64
      && (go2 != 0 ==> index2 / 8 == 64 * index1 + offset1 && index2 % 8 == go2 && index2 < slabs.Length)
    }

    ghost predicate Valid()
      reads this, lines, slabs
    {
      Shape() && Summary(lines[..], slabs[..])
    }

    ghost function Total(): nat
      reads this
    {
      512 * lines.Length
    }

    /** Where the next scan starts to look. */
    ghost function Cursor(): nat
      reads this
    {
      if go2 != 0 then index2
      else
        var c := 8 * (64 * index1 + offset1 + 1);
        if c < Total() then c else 0
    }

    /** A bitmap for n bits, all clear; the scan starts at slab 0. */
    constructor (n: nat)
      requires 0 < n <= WORD32 - 512
      ensures Valid() && Blank(slabs[..]) && n <= 64 * slabs.Length < n + 512 && Cursor() == 0
      ensures fresh(lines) && fresh(slabs)
    {
      var count := LineCount(n);
      var size := Align32((count + 63) / 64);
      lines := new Word[size](_ => {});
      slabs := new Word[8 * count](_ => {});
      index1, offset1 := size - 1, 63;
      index2, go2 := (64 * (size - 1) + 63) * 8 + 8, 0;
    }

    method Set(pos: nat)
      requires Valid() && pos < 64 * slabs.Length
      modifies lines, slabs
      ensures Valid() && forall p: nat :: Has(slabs[..], p) == (Has(old(slabs[..]), p) || p == pos)
    {
      ghost var a1, a2 := lines[..], slabs[..];
      var i2, o2, i1, o1 := pos / 64, pos % 64, pos / 32768, (pos / 512) % 64;
      LineOf(pos);
      slabs[i2] := slabs[i2] + {o2};
      lines[i1] := lines[i1] + {o1};
      assert lines[..] == a1[i1 := lines[i1]] && slabs[..] == a2[i2 := slabs[i2]];
      SummaryChange(a1, a2, i1, o1, i2, slabs[i2], lines[i1]);
      assert Slab(slabs[..], i2) != {};
    }

    /** Valid only if the slab is not zero, or its line was not all zeros before. */
    method SetSlab(pos: nat, slab: Word)
      requires Valid() && pos < 64 * slabs.Length
      modifies lines, slabs
      ensures slabs[..] == old(slabs[..])[pos / 64 := old(slabs[pos / 64]) + slab]
      ensures Valid() <==> slab != {} || LineFull(old(slabs[..]), pos / 512)
    {
      ghost var a1, a2 := lines[..], slabs[..];
      var i2, i1, o1 := pos / 64, pos / 32768, (pos / 512) % 64;
      LineOf(pos);
      slabs[i2] := slabs[i2] + slab;
      lines[i1] := lines[i1] + {o1};
      assert lines[..] == a1[i1 := lines[i1]] && slabs[..] == a2[i2 := slabs[i2]];
      SummaryChange(a1, a2, i1, o1, i2, slabs[i2], lines[i1]);
      LineGains(a2, i2, slab, pos / 512);
    }

    /** Clears the bit, and the line's bit when the whole line has become zero. */
    method Clear(pos: nat)
      requires Valid() && pos < 64 * slabs.Length
      modifies lines, slabs
      ensures Valid() && forall p: nat :: Has(slabs[..], p) == (Has(old(slabs[..]), p) && p != pos)
    {
      ghost var a1, a2 := lines[..], slabs[..];
      var i2, o2, i1, o1 := pos / 64, pos % 64, pos / 32768, (pos / 512) % 64;
      LineOf(pos);
      slabs[i2] := slabs[i2] - {o2};
      assert slabs[..] == a2[i2 := slabs[i2]] && lines[..] == a1 == a1[i1 := a1[i1]];
      SummaryChange(a1, a2, i1, o1, i2, slabs[i2], a1[i1]);
      LineWas(a1, a2, i1, o1, i2, o2);
      if slabs[i2] != {} {
        assert Slab(slabs[..], i2) != {};
        return;
      }
      var full := LineNotEmpty(i2 / 8 * 8);
      if full { return; }
      lines[i1] := lines[i1] - {o1};
      assert lines[..] == a1[i1 := lines[i1]];
      SummaryChange(a1, a2, i1, o1, i2, slabs[i2], lines[i1]);
    }

    method LineNotEmpty(i: nat) returns (full: bool)
      requires i % 8 == 0 && i < slabs.Length && slabs.Length % 8 == 0
      ensures full == LineFull(slabs[..], i / 8)
    {
      var v1, v2 := slabs[i] + slabs[i + 1], slabs[i + 2] + slabs[i + 3];
      var v3, v4 := slabs[i + 4] + slabs[i + 5], slabs[i + 6] + slabs[i + 7];
      v1 := v1 + v2;
      v3 := v3 + v4;
      full := v1 + v3 != {};
      LineIs(slabs[..], i / 8);
    }

    /** Reads on in the current line, as long as go2 says. */
    method ScanRead() returns (found: bool, pos: nat, slab: Word)
      requires Shape() || (go2 == 1 && index2 % 8 == 0)
      requires slabs.Length % 8 == 0 && (go2 != 0 ==> index2 < slabs.Length)
      modifies `index2, `go2
      ensures found ==>
        old(go2) != 0 && index2 > old(index2) && index2 <= 8 * (old(index2) / 8) + 8 && go2 == index2 % 8
      ensures found ==> pos == 64 * (index2 - 1) && slab == slabs[index2 - 1] != {}
      ensures found ==> forall i | old(index2) <= i < index2 - 1 :: Slab(slabs[..], i) == {}
      ensures !found ==> go2 == 0
      ensures !found && old(go2) != 0 ==>
        forall i | old(index2) <= i < 8 * (old(index2) / 8) + 8 :: Slab(slabs[..], i) == {}
    {
      found, pos, slab := false, 0, {};
      while go2 != 0
        invariant old(index2) <= index2 <= 8 * (old(index2) / 8) + 8
        invariant go2 != 0 ==> old(go2) != 0 && index2 < slabs.Length && index2 < 8 * (old(index2) / 8) + 8
        invariant go2 == 0 && old(go2) != 0 ==> index2 == 8 * (old(index2) / 8) + 8
        invariant old(go2) != 0 ==> forall i | old(index2) <= i < index2 :: Slab(slabs[..], i) == {}
        decreases if go2 != 0 then 8 * (old(index2) / 8) + 8 - index2 else 0
      {
        if slabs[index2] != {} {
          pos, slab := index2 * 64, slabs[index2];
          index2 := index2 + 1;
          go2 := index2 % 8;
          return true, pos, slab;
        }
        index2 := index2 + 1;
        go2 := index2 % 8;
      }
    }

    /** Looks for the next line with a bit in array1, the current one last. */
    method ScanSearch() returns (found: bool)
      requires Valid() && go2 == 0
      modifies `index1, `offset1
      ensures index1 < lines.Length && offset1 < 64
      ensures found ==> NextLine(lines[..], old(index1), old(offset1), index1, offset1)
      ensures !found ==> forall i | 0 <= i < lines.Length :: lines[i] == {}
    {
      hide Summary, NextLine;
      ghost var s, a1 := index1, lines[..];
      var value, pos := Above(lines[index1], offset1), 0;
      found, pos := FirstBit(value);
      if found {
        NothingAbove(a1, s, offset1, pos);
        offset1 := pos;
        return;
      }
      Nothing(a1, s, offset1);
      index1 := Wrap(index1 + 1, lines.Length);
      offset1 := 0;
      var i := 0;
      while i < lines.Length
        invariant i <= |a1| && index1 < |a1| && (i < |a1| ==> Distance(s, index1, |a1|) == i + 1)
        invariant Seen(a1, s, i) && offset1 == 0
      {
        found, pos := FirstBit(lines[index1]);
        if found {
          FoundLine(a1, s, old(offset1), i, index1, pos);
          offset1 := pos;
          return;
        }
        i := i + 1;
        index1 := Wrap(index1 + 1, lines.Length);
      }
    }

    /** Starts on a new line and reads its first slab that is not empty. */
    method ReadLine() returns (pos: nat, slab: Word)
      requires offset1 < 64 && slabs.Length % 8 == 0 && 8 * (64 * index1 + offset1) + 8 <= slabs.Length
      requires LineFull(slabs[..], 64 * index1 + offset1)
      modifies `index2, `go2
      ensures var l := 64 * index1 + offset1; 8 * l < index2 <= 8 * l + 8 && go2 == index2 % 8
      ensures pos == 64 * (index2 - 1) && slab == slabs[index2 - 1] != {}
      ensures forall i | 8 * (64 * index1 + offset1) <= i < index2 - 1 :: Slab(slabs[..], i) == {}
    {
      index2 := (index1 * 64 + offset1) * 8;
      go2 := 1;
      var found;
      found, pos, slab := ScanRead();
      ghost var l := 64 * index1 + offset1;
      ghost var i :| 8 * l <= i < 8 * l + 8 && Slab(slabs[..], i) != {};
    }

    /** c is the cursor of a scan that found nothing more in the current line. */
    ghost predicate Behind(c: nat)
      reads this, slabs
    {
      var e := 8 * (64 * index1 + offset1) + 8;
      || c == (if e < Total() then e else 0)
      || (e - 8 <= c < e && forall i | c <= i < e :: Slab(slabs[..], i) == {})
    }

    /** The second part of scan: on to another line. */
    method ScanOn(ghost c: nat) returns (ok: bool, pos: nat, slab: Word)
      requires Valid() && go2 == 0 && Behind(c)
      modifies `index1, `offset1, `index2, `go2
      ensures Valid()
      ensures ok ==> pos % 64 == 0 && NextFull(slabs[..], Total(), c, pos / 64) && slab == Slab(slabs[..], pos / 64)
      ensures ok ==> Cursor() == Wrap(pos / 64 + 1, Total())
      ensures !ok ==> Blank(slabs[..])
    {
      hide Summary, NextLine, NextFull, Blank, LineFull;
      ghost var a1, a2, s, o := lines[..], slabs[..], index1, offset1;
      ok := ScanSearch();
      pos, slab := 0, {};
      if !ok {
        NoLines(a1, a2);
        return;
      }
      KnowLine(a1, a2, s, o, index1, offset1);
      pos, slab := ReadLine();
      assert slabs[..] == a2;
      FromLine(a1, a2, s, o, index1, offset1, c, index2 - 1);
    }

    /**
     Returns the first slab that is not empty, going round from the cursor, and moves the
     cursor just behind it; fails only on an empty bitmap.
     */
    method Scan() returns (ok: bool, pos: nat, slab: Word)
      requires Valid()
      modifies `index1, `offset1, `index2, `go2
      ensures Valid()
      ensures ok ==>
        pos % 64 == 0 && NextFull(slabs[..], Total(), old(Cursor()), pos / 64) && slab == Slab(slabs[..], pos / 64)
      ensures ok ==> Cursor() == Wrap(pos / 64 + 1, Total())
      ensures !ok ==> Blank(slabs[..])
    {
      hide Summary;
      ghost var c := Cursor();
      ok, pos, slab := ScanRead();
      if !ok { ok, pos, slab := ScanOn(c); }
    }

    /**
     k scans of an unchanged bitmap with at least k slabs that are not empty return the first
     k of those, in cyclic order from the cursor.
     */
    method ScanMany(k: nat) returns (found: seq<nat>)
      requires Valid() && k <= |Sweep(slabs[..], Total(), Cursor(), Total())|
      modifies `index1, `offset1, `index2, `go2
      ensures Valid() && found == Sweep(slabs[..], Total(), old(Cursor()), Total())[..k]
    {
      hide Summary, Sweep, NextFull;
      ghost var a2, t, c := slabs[..], Total(), Cursor();
      ghost var all, n := Sweep(a2, t, c, t), t;
      found := [];
      while |found| < k
        invariant Valid() && slabs[..] == a2 && Cursor() < t && 0 <= n <= t && |found| <= k
        invariant found + Sweep(a2, t, Cursor(), n) == all
        decreases k - |found|
      {
        ghost var d := Cursor();
        SweepFull(a2, t, d, n);
        var ok, pos, slab := Scan();
        SweepNext(a2, t, d, n, pos / 64);
        n := n - 1 - Gap(t, d, pos / 64);
        found := found + [pos / 64];
      }
    }
  }

  // ---------------------------------------------------------------- fairness

  /** Slab x is among the next n, going round from slab c. */
  predicate Within(total: nat, c: nat, n: nat, x: nat) { x < total && Gap(total, c, x) < n }

  function Gap(total: int, c: int, x: int): int { if x >= c then x - c else x - c + total }

  /** A sweep visits every slab at most once, and lists exactly the ones that are not empty. */
  lemma {:induction false} SweepLists(a2: seq<Word>, total: nat, c: nat, n: nat)
    requires c < total && n <= total
    ensures var r := Sweep(a2, total, c, n);
            && (forall i, j | 0 <= i < j < |r| :: r[i] != r[j])
            && (forall x: nat :: x in r <==> Within(total, c, n, x) && Slab(a2, x) != {})
    decreases n
  {
    if n > 0 {
      var d := Wrap(c + 1, total);
      WrapMod(c + 1, total);
      SweepLists(a2, total, d, n - 1);
      var rest := Sweep(a2, total, d, n - 1);
      forall x: nat
        ensures Within(total, c, n, x) <==> x == c || Within(total, d, n - 1, x)
        ensures x == c ==> !Within(total, d, n - 1, x)
      {
      }
      assert c !in rest;
    }
  }

  lemma SweepFull(a2: seq<Word>, total: nat, c: nat, n: nat)
    requires c < total && n <= total && Sweep(a2, total, c, n) != []
    ensures !Blank(a2)
  {
    SweepLists(a2, total, c, n);
    var r := Sweep(a2, total, c, n);
    assert r[0] in r;
  }

  lemma WrapMod(x: nat, n: nat)
    requires n > 0 && x <= n
    ensures Wrap(x, n) == x % n
  {
    if x < n { ModArith.ModSmall(x, n); } else { ModArith.ModIs(x, n, 1); }
  }

  /** The next slab that is not empty is the first of the sweep, and the sweep goes on behind it. */
  lemma {:induction false} SweepNext(a2: seq<Word>, total: nat, c: nat, n: nat, p: nat)
    requires c < total && n <= total && NextFull(a2, total, c, p) && Sweep(a2, total, c, n) != []
    ensures Within(total, c, n, p)
    ensures var m := n - 1 - Gap(total, c, p);
            Sweep(a2, total, c, n) == [p] + Sweep(a2, total, Wrap(p + 1, total), m)
    decreases n
  {
    WrapMod(c + 1, total);
    WrapMod(p + 1, total);
    if c != p {
      assert Slab(a2, c) == {};
      var d := Wrap(c + 1, total);
      assert NextFull(a2, total, d, p);
      SweepNext(a2, total, d, n - 1, p);
    }
  }

  lemma NoLines(a1: seq<Word>, a2: seq<Word>)
    requires Summary(a1, a2) && |a2| <= 512 * |a1| && forall i | 0 <= i < |a1| :: a1[i] == {}
    ensures Blank(a2)
  {
    forall i | 0 <= i < |a2|
      ensures a2[i] == {}
    {
      LineEmpty(a1, a2, i);
    }
  }

  /** A slab in a line whose bit is clear is empty. */
  lemma LineEmpty(a1: seq<Word>, a2: seq<Word>, i: nat)
    requires Summary(a1, a2) && i < 512 * |a1|
    ensures i / 8 / 64 < |a1| && (i / 8 % 64 !in a1[i / 8 / 64] ==> Slab(a2, i) == {})
  {
    var s, o := i / 8 / 64, i / 8 % 64;
    assert 64 * s + o == i / 8 && 8 * (i / 8) <= i < 8 * (i / 8) + 8;
    assert o in a1[s] <==> LineFull(a2, 64 * s + o);
  }

  /** The line found has something in it, and lies inside array2. */
  lemma KnowLine(a1: seq<Word>, a2: seq<Word>, s: nat, o: nat, r: nat, b: nat)
    requires Summary(a1, a2) && NextLine(a1, s, o, r, b) && |a2| % 8 == 0
    ensures b < 64 && 8 * (64 * r + b) + 8 <= |a2| && LineFull(a2, 64 * r + b)
  {
    assert LineFull(a2, 64 * r + b);
    var i :| 8 * (64 * r + b) <= i < 8 * (64 * r + b) + 8 && Slab(a2, i) != {};
  }

  /** Lines passed over on the way from (s, o) to (r, b) have their bits clear. */
  ghost predicate Passed(a1: seq<Word>, l: int) { 0 <= l && l / 64 < |a1| && l % 64 !in a1[l / 64] }

  lemma PassedOver(a1: seq<Word>, s: nat, o: nat, r: nat, b: nat, l: nat)
    requires NextLine(a1, s, o, r, b) && o < 64 && l < 64 * |a1|
    requires if 64 * r + b > 64 * s + o then 64 * s + o < l < 64 * r + b else l > 64 * s + o || l < 64 * r + b
    ensures Passed(a1, l)
  {
    assert b < 64;
    var i, c := l / 64, l % 64;
    assert l == 64 * i + c;
  }

  lemma FromLine(a1: seq<Word>, a2: seq<Word>, s: nat, o: nat, r: nat, b: nat, c: nat, p: nat)
    requires Summary(a1, a2) && NextLine(a1, s, o, r, b) && o < 64 && s < |a1| && |a2| <= 512 * |a1|
    requires 8 * (64 * r + b) <= p < 8 * (64 * r + b) + 8 && Slab(a2, p) != {}
    requires forall i | 8 * (64 * r + b) <= i < p :: Slab(a2, i) == {}
    requires
      var e := 8 * (64 * s + o) + 8;
      || c == (if e < 512 * |a1| then e else 0)
      || (e - 8 <= c < e && forall i | c <= i < e :: Slab(a2, i) == {})
    ensures NextFull(a2, 512 * |a1|, c, p)
  {
    var l, m, t := 64 * s + o, 64 * r + b, 512 * |a1|;
    assert b < 64;
    forall q: nat | q < t && q / 8 != m && (if m > l then l < q / 8 < m else q / 8 > l || q / 8 < m)
      ensures Slab(a2, q) == {}
    {
      hide NextLine;
      PassedOver(a1, s, o, r, b, q / 8);
      LineEmpty(a1, a2, q);
    }
    hide NextLine, Summary;
  }

  /** How many increments lead from slab s to slab k; n to itself. */
  function Distance(s: int, k: int, n: int): int { if k > s then k - s else k - s + n }

  ghost predicate Seen(a1: seq<Word>, s: nat, i: nat) {
    forall k | 0 <= k < |a1| && Distance(s, k, |a1|) <= i :: a1[k] == {}
  }

  lemma Nothing(a1: seq<Word>, s: nat, o: nat)
    requires s < |a1| && Above(a1[s], o) == {}
    ensures forall c | o < c < 64 :: c !in a1[s]
  {
    forall c | o < c < 64
      ensures c !in a1[s]
    {
      assert c !in Above(a1[s], o);
    }
  }

  lemma FoundLine(a1: seq<Word>, s: nat, o: nat, i: nat, r: nat, b: nat)
    requires s < |a1| && r < |a1| && i < |a1| && Seen(a1, s, i) && Distance(s, r, |a1|) == i + 1
    requires forall c | o < c < 64 :: c !in a1[s]
    requires b in a1[r] && forall c | c in a1[r] :: b <= c
    ensures NextLine(a1, s, o, r, b)
  {
  }

  lemma NothingAbove(a1: seq<Word>, s: nat, o: nat, pos: nat)
    requires s < |a1| && pos in Above(a1[s], o) && forall b | b in Above(a1[s], o) :: pos <= b
    ensures NextLine(a1, s, o, s, pos)
  {
    forall c | o < c < pos
      ensures c !in a1[s]
    {
      assert c !in Above(a1[s], o);
    }
  }

  /** index1 after an increment: `& (array1_size - 1)`. */
  function Wrap(x: int, n: nat): int { if x < n then x else x - n }

  /** Line (r, b) is the first with its bit set, going round from the one behind (s, o). */
  ghost predicate NextLine(a1: seq<Word>, s: nat, o: nat, r: nat, b: nat) {
    && s < |a1| && r < |a1| && b in a1[r]
    && (r == s && b > o ==> forall c | o < c < b :: c !in a1[s])
    && (!(r == s && b > o) ==>
          && (forall c | o < c < 64 :: c !in a1[s])
          && (forall c | 0 <= c < b :: c !in a1[r])
          && (r > s ==> forall i | s < i < r :: a1[i] == {})
          && (r <= s ==> (forall i | s < i < |a1| :: a1[i] == {}) && (forall i | 0 <= i < r :: a1[i] == {})))
  }

  lemma LineIs(a2: seq<Word>, l: nat)
    requires 8 * l + 8 <= |a2|
    ensures LineFull(a2, l) <==>
      a2[8 * l] + a2[8 * l + 1] + (a2[8 * l + 2] + a2[8 * l + 3]) +
        (a2[8 * l + 4] + a2[8 * l + 5] + (a2[8 * l + 6] + a2[8 * l + 7])) != {}
  {
    var all := a2[8 * l] + a2[8 * l + 1] + (a2[8 * l + 2] + a2[8 * l + 3]) +
      (a2[8 * l + 4] + a2[8 * l + 5] + (a2[8 * l + 6] + a2[8 * l + 7]));
    if LineFull(a2, l) {
      var i :| 8 * l <= i < 8 * l + 8 && Slab(a2, i) != {};
      var b :| b in Slab(a2, i);
      assert b in all;
    }
    if all != {} {
      var b :| b in all;
      var j :| 0 <= j < 8 && b in a2[8 * l + j];
      assert Slab(a2, 8 * l + j) != {};
    }
  }

  lemma LineGains(a2: seq<Word>, i: nat, slab: Word, l: nat)
    requires i < |a2| && 8 * l <= i < 8 * l + 8
    ensures LineFull(a2[i := a2[i] + slab], l) <==> slab != {} || LineFull(a2, l)
  {
    var a2' := a2[i := a2[i] + slab];
    if LineFull(a2, l) {
      var k :| 8 * l <= k < 8 * l + 8 && Slab(a2, k) != {};
      assert Slab(a2', k) != {};
    }
    if slab != {} { assert Slab(a2', i) != {}; }
    if LineFull(a2', l) && slab == {} {
      var k :| 8 * l <= k < 8 * l + 8 && Slab(a2', k) != {};
      assert Slab(a2, k) != {};
    }
  }

  /** Clearing a bit that was not set leaves the line, and the summary, as they were. */
  lemma LineWas(a1: seq<Word>, a2: seq<Word>, s: nat, o: nat, i: nat, b: nat)
    requires Summary(a1, a2) && s < |a1| && o < 64 && i < |a2| && 8 * (64 * s + o) <= i < 8 * (64 * s + o) + 8
    ensures LineFull(a2[i := a2[i] - {b}], 64 * s + o) ==> o in a1[s]
  {
    var a2' := a2[i := a2[i] - {b}];
    if LineFull(a2', 64 * s + o) {
      var k :| 8 * (64 * s + o) <= k < 8 * (64 * s + o) + 8 && Slab(a2', k) != {};
      assert Slab(a2, k) != {};
    }
  }
}
