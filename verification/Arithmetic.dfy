/** The facts about products and quotients that the solver does not find by itself. */
module Arithmetic {
  lemma MulMonotone(a: int, b: int, m: nat)
    requires a <= b
    ensures a * m <= b * m
  {}

  lemma QuotientAtLeast(a: nat, n: nat, k: nat)
    requires n > 0
    ensures a / n >= k <==> a >= k * n
  {
    assert a == a / n * n + a % n;
    if a / n >= k {
      MulMonotone(k, a / n, n);
    } else {
      MulMonotone(a / n + 1, k, n);
    }
  }

  /** One more `b` is one more in the quotient. */
  lemma QuotientNext(a: nat, b: nat)
    requires b > 0
    ensures (a + b) / b == 1 + a / b
  {
    var q := a / b;
    QuotientAtLeast(a, b, q);
    QuotientAtLeast(a, b, q + 1);
    assert (q + 1) * b == q * b + b && (q + 2) * b == q * b + b + b;
    QuotientAtLeast(a + b, b, q + 1);
    QuotientAtLeast(a + b, b, q + 2);
  }
}
