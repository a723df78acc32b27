/** The few facts about products and quotients of integers that the money arithmetic rests on. */
module Arithmetic {

  lemma MulMono(x: int, y: int, n: int)
    requires x <= y && n >= 0
    ensures x * n <= y * n
  {
    assert (y - x) * n >= 0;
  }

  lemma MulOrder(x: int, y: int, n: int)
    requires x * n < y * n && n > 0
    ensures x < y
  {
    if y <= x {
      MulMono(y, x, n);
    }
  }

  /** A quotient is pinned by its two neighbouring multiples. */
  lemma DivBetween(a: int, n: int)
    requires n > 0
    ensures a / n * n <= a < a / n * n + n
  {
  }

  lemma DivIs(a: int, n: int, q: int)
    requires n > 0 && q * n <= a < q * n + n
    ensures a / n == q
  {
    DivBetween(a, n);
    MulOrder(q, a / n + 1, n);
    MulOrder(a / n, q + 1, n);
  }

  lemma DivMono(a: int, b: int, n: int)
    requires n > 0 && a <= b
    ensures a / n <= b / n
  {
    DivBetween(a, n);
    DivBetween(b, n);
    MulOrder(a / n, b / n + 1, n);
  }
}
