/** Small facts of non-linear integer arithmetic used by the proofs. */
module Arithmetic {

  lemma MulMonotone(a: int, b: int, c: nat)
    requires a <= b
    ensures a * c <= b * c
  {
  }

  lemma MulCancel(a: int, b: int, c: nat)
    requires a * c < b * c
    ensures a < b
  {
    if a >= b {
      MulMonotone(b, a, c);
    }
  }

  /** The remainder is determined by any quotient-remainder decomposition. */
  lemma ModUnique(a: int, m: nat, q: int, t: int)
    requires m > 0 && a == q * m + t && 0 <= t < m
    ensures a % m == t && a / m == q
  {
    var d := q - a / m;
    assert d * m == a % m - t;
    if d > 0 {
      MulMonotone(1, d, m);
    } else if d < 0 {
      MulMonotone(1, -d, m);
    }
  }

  lemma ModSucc(x: nat, m: nat)
    requires m > 0
    ensures (x % m + 1) % m == (x + 1) % m
  {
    var q, t := x / m, x % m;
    assert x == q * m + t;
    if t + 1 == m {
      assert (q + 1) * m == q * m + m;
      ModUnique(x + 1, m, q + 1, 0);
      ModUnique(t + 1, m, 1, 0);
    } else {
      ModUnique(x + 1, m, q, t + 1);
      ModUnique(t + 1, m, 0, t + 1);
    }
  }
}
