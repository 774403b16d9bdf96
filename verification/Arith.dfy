/** Facts about quotients and remainders that flat addresses need. */
module Arith {

  lemma Multiple(x: int, d: int)
    requires d > 0
    ensures x >= 1 ==> x * d >= d
    ensures x <= -1 ==> x * d <= -d
  {
    if x >= 1 { assert (x - 1) * d >= 0; assert x * d == (x - 1) * d + d; }
    if x <= -1 { assert (-x - 1) * d >= 0; assert x * d == -((-x - 1) * d) - d; }
  }

  /** Quotient and remainder are unique. */
  lemma DivMod(q: int, r: int, d: int)
    requires 0 <= r < d
    ensures (q * d + r) / d == q && (q * d + r) % d == r
  {
    var n := q * d + r;
    Multiple(n / d - q, d);
    assert (n / d - q) * d == (n / d) * d - q * d;
    assert n == (n / d) * d + n % d;
  }

  lemma MulMonotone(a: int, b: int, d: int)
    requires a <= b && d >= 0
    ensures a * d <= b * d
  {
    assert (b - a) * d >= 0;
    assert (b - a) * d == b * d - a * d;
  }

  /** A pair (q, r) of mixed-radix digits stays below the product of the radices. */
  lemma DigitsBelow(q: int, n: int, r: int, d: int)
    requires 0 <= q < n && 0 <= r < d
    ensures 0 <= q * d + r < n * d
  {
    MulMonotone(q + 1, n, d);
    MulMonotone(0, q, d);
    assert (q + 1) * d == q * d + d;
  }

  lemma DivBelow(x: int, n: int, d: int)
    requires 0 <= x < n * d && d > 0
    ensures 0 <= x / d < n && 0 <= x % d < d && x == (x / d) * d + x % d
  {
    Multiple(x / d - n + 1, d);
    assert (x / d - n + 1) * d == (x / d) * d - n * d + d;
    Multiple(x / d, d);
  }
}
