/** Integer functions, and facts about integers the solver does not find by itself. */
module Arith {
  function Min(a: int, b: int): int { if a < b then a else b }

  function Max(a: int, b: int): int { if a >= b then a else b }

  function Pow2(n: nat): (r: nat)
    ensures r > 0
  {
    if n == 0 then 1 else 2 * Pow2(n - 1)
  }

  lemma MulLe(a: int, b: int, k: int)
    requires a <= b && 0 <= k
    ensures a * k <= b * k && k * a <= k * b
  {}

  lemma Distribute(a: int, b: int, c: int)
    ensures a * (b + c) == a * b + a * c && (b + c) * a == b * a + c * a
  {}

  /** Dividing both sides of a strict bound by a positive factor. */
  lemma CancelLt(d: int, a: int, b: int)
    requires 0 < d && d * a < d * b
    ensures a < b
  {}

  lemma CancelLe(d: int, a: int, b: int)
    requires 0 < d && d * a <= d * b
    ensures a <= b
  {}

  lemma DivBounds(a: int, d: int)
    requires 0 < d
    ensures d * (a / d) <= a < d * (a / d + 1)
    ensures 0 <= a ==> 0 <= a / d
  {
    Distribute(d, a / d, 1);
  }

  lemma DivIs(a: int, d: int, q: int)
    requires 0 < d && d * q <= a < d * (q + 1)
    ensures a / d == q
  {
    DivBounds(a, d);
    CancelLt(d, q, a / d + 1);
    CancelLt(d, a / d, q + 1);
  }

  lemma DivMonotone(a: int, b: int, d: int)
    requires a <= b && 0 < d
    ensures a / d <= b / d
  {
    DivBounds(a, d);
    DivBounds(b, d);
    CancelLt(d, a / d, b / d + 1);
  }

  lemma DivAntitone(a: int, d: int, e: int)
    requires 0 <= a && 0 < d <= e
    ensures a / e <= a / d
  {
    DivBounds(a, d);
    DivBounds(a, e);
    MulLe(d, e, a / e);
    CancelLt(d, a / e, a / d + 1);
  }

  lemma DivAdd(a: int, k: int, n: int)
    requires 0 < n
    ensures (a + n * k) / n == a / n + k
  {
    DivBounds(a, n);
    DivBounds(a + n * k, n);
    Distribute(n, a / n, k);
    Distribute(n, a / n + 1, k);
    CancelLt(n, a / n + k, (a + n * k) / n + 1);
    CancelLt(n, (a + n * k) / n, a / n + 1 + k);
  }
}
