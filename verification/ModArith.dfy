/** Remainders by a variable modulus. */
module ModArith {
  lemma MulAtLeast(a: int, m: nat)
    requires a >= 1
    ensures a * m >= m
  {
    assert a * m == (a - 1) * m + m;
    assert (a - 1) * m >= 0;
  }

  lemma MulMono(a: nat, b: nat, m: nat)
    requires a <= b
    ensures a * m <= b * m
  {
    assert b * m == a * m + (b - a) * m;
    assert (b - a) * m >= 0;
  }

  /** The remainder is the one value congruent to x in [0, m). */
  lemma ModIs(x: int, m: nat, k: int)
    requires m > 0 && 0 <= x - k * m < m
    ensures x % m == x - k * m
  {
    var q, r := x / m, x % m;
    assert x == m * q + r && 0 <= r < m;
    assert (q - k) * m == x - k * m - r;
    if q - k >= 1 { MulAtLeast(q - k, m); }
    if q - k <= -1 { MulAtLeast(k - q, m); }
  }

  lemma DivIs(x: int, m: nat, k: int)
    requires m > 0 && 0 <= x - k * m < m
    ensures x / m == k
  {
    ModIs(x, m, k);
    var q := x / m;
    assert x == m * q + x % m;
    assert (q - k) * m == 0;
    if q - k >= 1 { MulAtLeast(q - k, m); }
    if q - k <= -1 { MulAtLeast(k - q, m); }
  }

  lemma ModSmall(x: int, m: nat)
    requires 0 <= x < m
    ensures x % m == x
  {
    ModIs(x, m, 0);
  }

  lemma ModPlus(x: int, m: nat, k: int)
    requires m > 0
    ensures (x + k * m) % m == x % m
  {
    var q := x / m;
    assert x == m * q + x % m;
    assert (x + k * m) - (q + k) * m == x % m;
    ModIs(x + k * m, m, q + k);
  }

  /** A remainder taken on the way does not change the final one. */
  lemma ModSub(x: int, y: int, m: nat)
    requires m > 0
    ensures (x % m - y % m) % m == (x - y) % m
  {
    var p, q := x / m, y / m;
    assert x == m * p + x % m && y == m * q + y % m;
    assert (x - y) + (q - p) * m == x % m - y % m;
    ModPlus(x - y, m, q - p);
  }

  lemma ModAdd(x: int, y: int, m: nat)
    requires m > 0
    ensures (x % m + y) % m == (x + y) % m
  {
    var p := x / m;
    assert x == m * p + x % m;
    assert (x + y) + (-p) * m == x % m + y;
    ModPlus(x + y, m, -p);
  }
}
