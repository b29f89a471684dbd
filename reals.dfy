/** Small facts about reals: `min`/`max`, and sign facts about products,
    stated on separate factors so that callers can name the product. */
module Reals {
  /** `Math.min` on reals. */
  function Min(a: real, b: real): real {
    if a <= b then a else b
  }

  /** `Math.max` on reals. */
  function Max(a: real, b: real): real {
    if a >= b then a else b
  }

  lemma MulPos(x: real, y: real)
    requires x > 0.0 && y > 0.0
    ensures x * y > 0.0
  {
  }

  lemma MulNonNeg(x: real, y: real)
    requires x >= 0.0 && y >= 0.0
    ensures x * y >= 0.0
  {
  }

  /** `p = r * w` lies in [0, w) for `r` in [0, 1) and `w > 0`. */
  lemma Fraction(r: real, w: real, p: real)
    requires 0.0 <= r < 1.0 && w > 0.0 && p == r * w
    ensures 0.0 <= p < w
  {
    MulNonNeg(r, w);
    MulPos(1.0 - r, w);
    assert (1.0 - r) * w == w - r * w;
  }

  lemma SquareNonNeg(x: real)
    ensures x * x >= 0.0
  {
    if x < 0.0 {
      MulNonNeg(-x, -x);
    } else {
      MulNonNeg(x, x);
    }
  }
}
