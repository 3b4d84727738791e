/** The few facts about products and remainders that have to be spelled out. */
module Arithmetic {

  lemma {:induction false} MulOrder(n: nat, a: int, b: int)
    requires a <= b
    ensures n * a <= n * b
  {
  }

  lemma {:induction false} LessByFactor(n: nat, a: int, b: int)
    requires n * a < n * b
    ensures a < b
  {
    if b <= a {
      MulOrder(n, b, a);
    }
  }

  /** Wrapping an index that overshoots by at most one lap. */
  lemma {:induction false} WrapOnce(a: int, n: nat)
    requires n > 0 && 0 <= a <= 2 * n
    ensures a % n == if a < n then a else if a < 2 * n then a - n else 0
  {
    var q := a / n;
    assert a == n * q + a % n;
    if q >= 3 {
      MulOrder(n, 3, q);
    } else if q <= -1 {
      MulOrder(n, q, -1);
    }
    assert 0 <= q <= 2;
  }
}
