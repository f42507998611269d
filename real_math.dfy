/** Real-arithmetic facts shared by the spotlight and the card effects:
    the defining property of `Math.hypot`, `Math.max`/`Math.min`/`Math.abs`,
    and small lemmas about signs, ratios and squares. */
module RealMath {
  /** `h` is the value `Math.hypot(dx, dy)` returns. */
  predicate IsHypot(h: real, dx: real, dy: real) {
    h >= 0.0 && h * h == dx * dx + dy * dy
  }

  function Max(a: real, b: real): real { if a >= b then a else b }
  function Min(a: real, b: real): real { if a <= b then a else b }
  function Abs(a: real): real { if a >= 0.0 then a else -a }

  lemma ProductPositive(x: real, y: real)
    requires x > 0.0 && y > 0.0
    ensures x * y > 0.0
  {
  }

  /** A product with a positive factor keeps the sign of the other factor. */
  lemma NonNegativeFactor(x: real, w: real)
    requires w > 0.0 && x * w >= 0.0
    ensures x >= 0.0
  {
    assert x == (x * w) / w;
  }

  /** Scaling by a positive factor commutes with the absolute value. */
  lemma AbsScale(x: real, w: real)
    requires w > 0.0
    ensures Abs(x) * w == Abs(x * w)
  {
    if x < 0.0 {
      ProductPositive(-x, w);
    } else if x > 0.0 {
      ProductPositive(x, w);
    }
  }

  /** Squares preserve order on non-negative reals. */
  lemma SquareMonotone(a: real, c: real)
    requires a >= 0.0 && c >= 0.0
    ensures a <= c <==> a * a <= c * c
  {
    assert a * a - c * c == (a - c) * (a + c);
    if a > c {
      ProductPositive(a - c, a + c);
    } else if a < c {
      ProductPositive(c - a, a + c);
      assert (c - a) * (a + c) == -((a - c) * (a + c));
    }
  }

  /** A ratio of a part to a positive whole lies in [0,1]. */
  lemma RatioInUnit(part: real, whole: real)
    requires 0.0 <= part <= whole && whole > 0.0
    ensures 0.0 <= part / whole <= 1.0
  {
    assert (part / whole) * whole == part;
  }
}
