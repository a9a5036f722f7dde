/** Rounding a 64-bit size up to a power of two by smearing its highest bit downwards. */
module PowerOfTwo {
  import ModArith

  const WORD: nat := 0x1_0000_0000_0000_0000

  function Exp2(n: nat): (r: nat)
    ensures r >= 1
  {
    if n == 0 then 1 else 2 * Exp2(n - 1)
  }

  ghost predicate IsPow2(x: nat) { exists n: nat :: x == Exp2(n) }

  /** Bitwise or of two naturals. */
  function Or(x: nat, y: nat): nat
    decreases x + y
  {
    if x == 0 && y == 0 then 0
    else 2 * Or(x / 2, y / 2) + (if x % 2 == 1 || y % 2 == 1 then 1 else 0)
  }

  function Shr(x: nat, k: nat): nat { if k == 0 then x else Shr(x / 2, k - 1) }

  predicate Bit(x: nat, i: nat) { Shr(x, i) % 2 == 1 }

  lemma {:induction false} ShrZero(k: nat)
    ensures Shr(0, k) == 0
  {
    if k > 0 { ShrZero(k - 1); }
  }

  lemma {:induction false} ShrShr(x: nat, k: nat, i: nat)
    ensures Shr(Shr(x, k), i) == Shr(x, k + i)
  {
    if k > 0 { ShrShr(x / 2, k - 1, i); }
  }

  lemma OrStep(x: nat, y: nat)
    ensures Or(x, y) / 2 == Or(x / 2, y / 2)
    ensures Or(x, y) % 2 == 1 <==> x % 2 == 1 || y % 2 == 1
  {
  }

  lemma ShrStep(x: nat, i: nat)
    ensures Shr(x, i) == if i == 0 then x else Shr(x / 2, i - 1)
  {
  }

  lemma {:induction false} OrBit(x: nat, y: nat, i: nat)
    ensures Bit(Or(x, y), i) == (Bit(x, i) || Bit(y, i))
    decreases i
  {
    hide Or, Shr;
    OrStep(x, y);
    ShrStep(x, i);
    ShrStep(y, i);
    ShrStep(Or(x, y), i);
    if i > 0 { OrBit(x / 2, y / 2, i - 1); }
  }

  /** Bitwise and of two naturals. */
  function And(x: nat, y: nat): nat
    decreases x
  {
    if x == 0 || y == 0 then 0
    else 2 * And(x / 2, y / 2) + (if x % 2 == 1 && y % 2 == 1 then 1 else 0)
  }

  lemma Halves(x: nat, m: nat)
    requires m > 0
    ensures x % (2 * m) == 2 * (x / 2 % m) + x % 2
  {
    var h := x / 2;
    assert h == m * (h / m) + h % m;
    assert x == (h / m) * (2 * m) + (2 * (h % m) + x % 2);
    ModArith.ModIs(x, 2 * m, h / m);
  }

  /** Masking with a power of two less one is taking the remainder. */
  lemma {:induction false} MaskIsRemainder(x: nat, n: nat)
    ensures And(x, Exp2(n) - 1) == x % Exp2(n)
  {
    if n > 0 {
      var m := Exp2(n - 1);
      MaskIsRemainder(x / 2, n - 1);
      Halves(x, m);
      assert (2 * m - 1) / 2 == m - 1 && (2 * m - 1) % 2 == 1;
      if x == 0 { ModArith.ModSmall(0, 2 * m); }
    }
  }

  lemma Pow2Doubles(x: nat)
    requires IsPow2(x)
    ensures IsPow2(2 * x)
  {
    var n: nat :| x == Exp2(n);
    assert 2 * x == Exp2(n + 1);
  }

  /** Bits [top - run, top) are ones and every higher bit is zero. */
  ghost predicate Smeared(x: nat, top: nat, run: nat) {
    forall i: nat :: (top <= i ==> !Bit(x, i)) && (i < top <= i + run ==> Bit(x, i))
  }

  lemma SmearDoubles(x: nat, top: nat, run: nat)
    requires Smeared(x, top, run)
    ensures Smeared(Or(x, Shr(x, run)), top, 2 * run)
  {
    forall i: nat
      ensures top <= i ==> !Bit(Or(x, Shr(x, run)), i)
      ensures i < top <= i + 2 * run ==> Bit(Or(x, Shr(x, run)), i)
    {
      OrBit(x, Shr(x, run), i);
      ShrShr(x, run, i);
      assert Bit(Shr(x, run), i) == Bit(x, i + run);
    }
  }

  /** A number between two consecutive powers of two starts with a single one. */
  lemma {:induction false} TopBit(x: nat, top: nat)
    requires x < Exp2(top) && (top == 0 || x >= Exp2(top - 1))
    ensures Smeared(x, top, 1)
  {
    forall i: nat | i >= top
      ensures !Bit(x, i)
    {
      HighZero(x, top, i);
    }
    if top > 0 { HighOne(x, top - 1); }
  }

  lemma {:induction false} HighZero(x: nat, top: nat, i: nat)
    requires x < Exp2(top) && i >= top
    ensures !Bit(x, i)
    decreases i
  {
    if top == 0 { ShrZero(i); } else { HighZero(x / 2, top - 1, i - 1); }
  }

  lemma {:induction false} HighOne(x: nat, i: nat)
    requires Exp2(i) <= x < 2 * Exp2(i)
    ensures Bit(x, i)
  {
    if i > 0 { HighOne(x / 2, i - 1); }
  }

  lemma {:induction false} AllOnes(x: nat, top: nat)
    requires forall i: nat :: Bit(x, i) == (i < top)
    ensures x == Exp2(top) - 1
    decreases top
  {
    if top == 0 {
      NoBits(x);
    } else {
      assert Bit(x, 0);
      forall i: nat
        ensures Bit(x / 2, i) == (i < top - 1)
      {
        assert Bit(x, i + 1) == Bit(x / 2, i);
      }
      AllOnes(x / 2, top - 1);
    }
  }

  lemma {:induction false} NoBits(x: nat)
    requires forall i: nat :: !Bit(x, i)
    ensures x == 0
    decreases x
  {
    if x > 0 {
      assert !Bit(x, 0);
      forall i: nat
        ensures !Bit(x / 2, i)
      {
        assert Bit(x, i + 1) == Bit(x / 2, i);
      }
      NoBits(x / 2);
    }
  }

  lemma {:induction false} Exp2Mono(a: nat, b: nat)
    requires a <= b
    ensures Exp2(a) <= Exp2(b)
  {
    if a < b { Exp2Mono(a, b - 1); }
  }

  lemma {:induction false} TopExists(x: nat, limit: nat) returns (top: nat)
    requires x < Exp2(limit)
    ensures top <= limit && x < Exp2(top) && (top == 0 || x >= Exp2(top - 1))
  {
    if limit > 0 && x < Exp2(limit - 1) { top := TopExists(x, limit - 1); } else { top := limit; }
  }

  lemma WordIsExp2()
    ensures Exp2(64) == WORD && Exp2(63) == WORD / 2
  {
    assert Exp2(8) == 0x100;
    assert Exp2(16) == 0x1_0000;
    assert Exp2(24) == 0x100_0000;
    assert Exp2(32) == 0x1_0000_0000;
    assert Exp2(40) == 0x100_0000_0000;
    assert Exp2(48) == 0x1_0000_0000_0000;
    assert Exp2(56) == 0x100_0000_0000_0000;
  }

  /** The least power of two that is at least x. */
  ghost predicate IsCeil(x: nat, r: nat) { IsPow2(r) && x <= r && (r == 1 || r < 2 * x) }

  /** The smeared number, plus one, in a word with the given half range. */
  lemma SmearedCeil(width: nat, x0: nat, y: nat, top: nat)
    requires y == if x0 == 0 then Exp2(width + 1) - 1 else x0 - 1
    requires top <= width + 1 && y < Exp2(top) && (top == 0 || y >= Exp2(top - 1))
    ensures 1 <= x0 <= Exp2(width) ==> Exp2(top) <= Exp2(width) && IsCeil(x0, Exp2(top))
    ensures x0 == 0 || x0 > Exp2(width) ==> Exp2(top) == Exp2(width + 1)
  {
    if top <= width {
      Exp2Mono(top, width);
    }
  }

  /** size_t arithmetic throughout: 0 - 1 wraps to the largest word, and one more wraps back to 0. */
  method CeilToPow2(x0: nat) returns (x: nat)
    requires x0 < WORD
    ensures 1 <= x0 <= WORD / 2 ==> IsCeil(x0, x)
    ensures x0 == 0 || x0 > WORD / 2 ==> x == 0
  {
    hide Or, Shr, Bit, Smeared, Exp2, IsCeil;
    WordIsExp2();
    x := (x0 - 1) % WORD;
    ghost var y := x;
    ghost var top := TopExists(x, 64);
    TopBit(x, top);
    SmearDoubles(x, top, 1);
    x := Or(x, Shr(x, 1));
    SmearDoubles(x, top, 2);
    x := Or(x, Shr(x, 2));
    SmearDoubles(x, top, 4);
    x := Or(x, Shr(x, 4));
    var i := 1;
    while i < 8
      invariant i in {1, 2, 4, 8} && Smeared(x, top, 8 * i)
    {
      SmearDoubles(x, top, 8 * i);
      x := Or(x, Shr(x, 8 * i));
      i := i * 2;
    }
    SmearedEnough(x, top, 64);
    SmearedCeil(63, x0, y, top);
    x := (x + 1) % WORD;
  }

  const WORD32: nat := 0x1_0000_0000

  lemma Word32IsExp2()
    ensures Exp2(32) == WORD32 && Exp2(31) == WORD32 / 2
  {
    assert Exp2(8) == 0x100;
    assert Exp2(16) == 0x1_0000;
    assert Exp2(24) == 0x100_0000;
  }

  /** The 32-bit variant, without the loop. */
  method Align32(x0: nat) returns (x: nat)
    requires x0 < WORD32
    ensures 1 <= x0 <= WORD32 / 2 ==> IsCeil(x0, x)
    ensures x0 == 0 || x0 > WORD32 / 2 ==> x == 0
  {
    hide Or, Shr, Bit, Smeared, Exp2, IsCeil;
    Word32IsExp2();
    x := (x0 - 1) % WORD32;
    ghost var y := x;
    ghost var top := TopExists(x, 32);
    TopBit(x, top);
    SmearDoubles(x, top, 1);
    x := Or(x, Shr(x, 1));
    SmearDoubles(x, top, 2);
    x := Or(x, Shr(x, 2));
    SmearDoubles(x, top, 4);
    x := Or(x, Shr(x, 4));
    SmearDoubles(x, top, 8);
    x := Or(x, Shr(x, 8));
    SmearDoubles(x, top, 16);
    x := Or(x, Shr(x, 16));
    SmearedEnough(x, top, 32);
    SmearedCeil(31, x0, y, top);
    x := (x + 1) % WORD32;
  }

  lemma SmearedEnough(x: nat, top: nat, run: nat)
    requires Smeared(x, top, run) && top <= run
    ensures x == Exp2(top) - 1
  {
    forall j: nat
      ensures Bit(x, j) == (j < top)
    {
      assert (top <= j ==> !Bit(x, j)) && (j < top <= j + run ==> Bit(x, j));
    }
    AllOnes(x, top);
  }
}
