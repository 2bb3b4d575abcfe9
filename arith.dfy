/** Integer facts about Euclidean division used by the counter and
    exponent arithmetic. */
module Arith {
  lemma {:induction false} MulSign(d: int, n: int)
    requires n > 0
    ensures d >= 1 ==> d * n >= n
    ensures d <= -1 ==> d * n <= -n
    decreases if d < 0 then -d else d
  {
    if d > 1 {
      MulSign(d - 1, n);
      assert d * n == (d - 1) * n + n;
    } else if d < -1 {
      MulSign(d + 1, n);
      assert d * n == (d + 1) * n - n;
    }
  }

  /** Quotient and remainder are unique. */
  lemma ModUnique(x: int, q: int, r: int, n: int)
    requires n > 0 && 0 <= r < n && x == q * n + r
    ensures x % n == r && x / n == q
  {
    var q', r' := x / n, x % n;
    assert x == q' * n + r';
    assert (q - q') * n == r' - r;
    MulSign(q - q', n);
  }

  /** Adding a multiple of the modulus does not change the remainder. */
  lemma ModAddMultiple(a: int, y: int, n: int)
    requires n > 0
    ensures (a * n + y) % n == y % n
  {
    var q, r := y / n, y % n;
    assert y == q * n + r;
    assert a * n + y == (a + q) * n + r;
    ModUnique(a * n + y, a + q, r, n);
  }
}
