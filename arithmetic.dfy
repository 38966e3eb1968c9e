/** Facts about multiplication and division of naturals that the solver does not find alone. */
module Arithmetic {
  lemma MulSucc(i: nat, k: nat)
    ensures (i + 1) * k == i * k + k
  {
  }

  lemma MulAddDistrib(a: nat, b: nat, d: nat)
    ensures (a + b) * d == a * d + b * d
  {
  }

  lemma MulMonotone(x: nat, y: nat, d: nat)
    requires x <= y
    ensures x * d <= y * d
  {
  }

  /** `MulMonotone` without the precondition, for use where the order is what is being decided. */
  lemma MulMonotoneIf(x: nat, y: nat, d: nat)
    ensures x <= y ==> x * d <= y * d
  {
    if x <= y {
      MulMonotone(x, y, d);
    }
  }

  lemma MulLe(a: nat, b: nat, x: nat, y: nat)
    requires a <= x && b <= y
    ensures a * b <= x * y
  {
    assert a * b <= x * b;
    assert x * b <= x * y;
  }

  /** The quotient is the only `q` with `n == q * d + r` and `r < d`. */
  lemma DivUnique(n: nat, d: nat, q: nat, r: nat)
    requires d > 0 && r < d && n == q * d + r
    ensures n / d == q
  {
    var q0, r0 := n / d, n % d;
    assert n == q0 * d + r0;
    MulSucc(q0, d);
    MulSucc(q, d);
    MulMonotoneIf(q0 + 1, q, d);
    MulMonotoneIf(q + 1, q0, d);
  }

  /** Row-major position `i * n + j` of a row of width `n` decomposes back into `i` and `j`. */
  lemma RowMajor(i: nat, j: nat, n: nat)
    requires j < n
    ensures (i * n + j) / n == i && (i * n + j) % n == j
  {
    DivUnique(i * n + j, n, i, j);
  }

  lemma DivMono(a: nat, b: nat, d: nat)
    requires a <= b && d > 0
    ensures a / d <= b / d
  {
    var qa, qb := a / d, b / d;
    assert qa * d <= a && b < qb * d + d;
    MulSucc(qb, d);
    MulMonotoneIf(qb + 1, qa, d);
  }

  /** The quotient brackets the dividend, and meets it exactly when the division leaves nothing over. */
  lemma DivBounds(n: nat, d: nat)
    requires d > 0
    ensures (n / d) * d <= n < (n / d + 1) * d
    ensures n % d == 0 ==> (n / d) * d == n
    ensures n / d == 0 <==> n < d
  {
    var q := n / d;
    assert n == q * d + n % d;
    MulSucc(q, d);
    if q > 0 {
      MulMonotone(1, q, d);
    }
  }
}
