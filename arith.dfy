/** Facts about integer division used by the decoders and the boost
    formulas. */
module Arith {
  lemma {:induction false} MulAtLeast(k: int, d: int)
    requires k >= 1 && d > 0
    ensures k * d >= d
  {
    if k > 1 { MulAtLeast(k - 1, d); }
  }

  lemma ZeroFactor(k: int, d: int)
    requires d > 0 && -d < k * d < d
    ensures k == 0
  {
    if k >= 1 { MulAtLeast(k, d); }
    else if k <= -1 { MulAtLeast(-k, d); }
  }

  /** Floor division is determined by a quotient and a remainder in range. */
  lemma DivUnique(n: int, d: int, q: int, r: int)
    requires d > 0 && n == q * d + r && 0 <= r < d
    ensures n / d == q && n % d == r
  {
    assert (n / d - q) * d == r - n % d;
    ZeroFactor(n / d - q, d);
  }
}
