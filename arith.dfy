/** Facts about Euclidean division shared by the calendar and the key rotation. */
module Arith {
  /** Euclidean division has one quotient and one remainder. */
  lemma DivUnique(a: int, n: int, q: int, r: int)
    requires n > 0 && 0 <= r < n && a == q * n + r
    ensures a / n == q && a % n == r
  {
    var q2, r2 := a / n, a % n;
    assert (q2 - q) * n == r - r2;
    MulNotBetween(q2 - q, n);
  }

  lemma MulNotBetween(k: int, n: int)
    requires n > 0 && -n < k * n < n
    ensures k == 0
  {
  }

  /** Going from `a - 1` to `a`, the quotient by `n` grows by one exactly when `n` divides `a`. */
  lemma DivStep(a: int, n: int)
    requires n > 0
    ensures a / n == (a - 1) / n + (if a % n == 0 then 1 else 0)
  {
    var q, r := (a - 1) / n, (a - 1) % n;
    if r == n - 1 {
      assert a == (q + 1) * n + 0;
      DivUnique(a, n, q + 1, 0);
    } else {
      assert a == q * n + (r + 1);
      DivUnique(a, n, q, r + 1);
    }
  }

  /** A multiple of `m * n` is a multiple of `n`. */
  lemma MultipleOfFactor(a: int, m: int, n: int)
    requires m > 0 && n > 0 && a % (m * n) == 0
    ensures a % n == 0
  {
    var q := a / (m * n);
    assert a == q * (m * n);
    assert a == (q * m) * n + 0;
    DivUnique(a, n, q * m, 0);
  }
}
