/** `Math.random()` supplied as data: every draw lies in the half-open unit
    interval [0, 1). */
module Randomness {

  predicate InUnitInterval(r: real) {
    0.0 <= r < 1.0
  }

  /** A draw scaled by a positive factor stays in [0, scale). */
  lemma ScaledDraw(r: real, scale: real)
    requires InUnitInterval(r) && scale > 0.0
    ensures 0.0 <= r * scale < scale
  {
    assert scale - r * scale == (1.0 - r) * scale;
    assert (1.0 - r) * scale > 0.0;
  }
}
