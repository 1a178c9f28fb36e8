/** Products and floor divisions of whole numbers, one small step at a time. */
module Arithmetic {
  lemma MulLe(a: int, b: int, n: nat)
    requires a <= b
    ensures a * n <= b * n
  {
  }

  /** Floor division is the largest factor that fits. */
  lemma LeDiv(q: int, a: nat, n: nat)
    requires n > 0
    ensures q <= a / n <==> q * n <= a
  {
    var d := a / n;
    assert d * n <= a < d * n + n;
    if q <= d {
      MulLe(q, d, n);
    } else {
      MulLe(d + 1, q, n);
      assert (d + 1) * n == d * n + n;
    }
  }

  lemma DivAtMost(a: nat, n: nat, k: nat)
    requires n > 0 && a <= k * n
    ensures a / n <= k
  {
    LeDiv(k + 1, a, n);
    assert (k + 1) * n == k * n + n;
  }

  lemma DivMono(a: nat, b: nat, n: nat)
    requires a <= b && n > 0
    ensures a / n <= b / n
  {
    LeDiv(a / n, a, n);
    LeDiv(a / n, b, n);
  }

  /** Floor division keeps the order of fractions. */
  lemma CrossDiv(a: nat, m: nat, b: nat, n: nat)
    requires m > 0 && n > 0 && a * n <= b * m
    ensures a / m <= b / n
  {
    var q := a / m;
    LeDiv(q, a, m);
    MulLe(q * m, a, n);
    MulSwap(q, m, n);
    LeDiv(q * n, b * m, m);
    LeDiv(b + 1, b * m, m);
    assert (b + 1) * m == b * m + m;
    LeDiv(q, b, n);
  }

  lemma MulSwap(q: nat, m: nat, n: nat)
    ensures q * m * n == q * n * m
  {
  }
}
