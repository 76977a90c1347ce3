/** Small facts about products and quotients that the solver does not find inside larger proofs. */
module Arithmetic {

  function Max(a: int, b: int): int {
    if a >= b then a else b
  }

  function Min(a: int, b: int): int {
    if a <= b then a else b
  }

  lemma DivMod(x: int, W: int)
    requires W > 0
    ensures x == W * (x / W) + x % W && 0 <= x % W < W
  {
  }

  lemma Distribute(k: int, x: int, y: int)
    ensures k * (x + y) == k * x + k * y
    ensures k * (x - y) == k * x - k * y
  {
  }

  lemma Scale(k: int, x: int, y: int)
    requires k > 0
    ensures x >= y ==> k * x >= k * y
    ensures x > y ==> k * x > k * y
  {
  }

  lemma Above(W: int, k: int)
    requires W > 0 && W * k > -W
    ensures k >= 0
  {
    if k + 1 <= 0 {
      Scale(W, 0, k + 1);
    }
  }

  lemma QuotientOrder(a: int, b: int, r: int, s: int, W: int)
    requires 0 <= r < W && 0 <= s < W && W * a + r >= W * b + s
    ensures a >= b
    ensures a == b ==> r - s == (W * a + r) - (W * b + s)
  {
    Distribute(W, a, b);
    Above(W, a - b);
  }

  lemma Quotient(left: int, W: int, count: int)
    requires W > 0 && 0 <= left * W < W * count
    ensures 0 <= left < count
  {
  }
}
