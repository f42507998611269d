/** The pointer geometry of a bento card (MagicBento.tsx): the tilt angles
    and magnetism offset computed on pointer move, the ripple spawned on
    click, and the viewport test that disables animations on mobile.
    Coordinates are relative to the card's top-left corner. */
module CardEffects {
  import opened RealMath

  /** Inside the card the offset from the centre, relative to the half
      side, lies in [-1, 1]. */
  lemma UnitOffset(p: real, center: real)
    requires center > 0.0
    ensures 0.0 <= p <= 2.0 * center ==> -1.0 <= (p - center) / center <= 1.0
  {
    if 0.0 <= p <= 2.0 * center {
      var q := (p - center) / center;
      assert q * center == p - center;
      assert (q + 1.0) * center == p;
      assert (1.0 - q) * center == 2.0 * center - p;
      NonNegativeFactor(q + 1.0, center);
      NonNegativeFactor(1.0 - q, center);
    }
  }

  /** `rotateX` in degrees for a pointer at height `y`; `centerY` is half the
      card's height. */
  function RotateX(y: real, centerY: real): (r: real)
    requires centerY > 0.0
    ensures y == centerY ==> r == 0.0
    ensures 0.0 <= y <= 2.0 * centerY ==> -10.0 <= r <= 10.0
    ensures r > 0.0 <==> y < centerY
  {
    var r := ((y - centerY) / centerY) * -10.0;
    assert 0.0 <= y <= 2.0 * centerY ==> -10.0 <= r <= 10.0 by {
      UnitOffset(y, centerY);
    }
    r
  }

  /** `rotateY` in degrees for a pointer at abscissa `x`; `centerX` is half
      the card's width. */
  function RotateY(x: real, centerX: real): (r: real)
    requires centerX > 0.0
    ensures x == centerX ==> r == 0.0
    ensures 0.0 <= x <= 2.0 * centerX ==> -10.0 <= r <= 10.0
    ensures r > 0.0 <==> x > centerX
  {
    var r := ((x - centerX) / centerX) * 10.0;
    assert 0.0 <= x <= 2.0 * centerX ==> -10.0 <= r <= 10.0 by {
      UnitOffset(x, centerX);
    }
    r
  }

  /** Mirroring the pointer through the card's centre negates both tilt
      angles. */
  lemma TiltIsOdd(centerX: real, centerY: real, dx: real, dy: real)
    requires centerX > 0.0 && centerY > 0.0
    ensures RotateX(centerY + dy, centerY) == -RotateX(centerY - dy, centerY)
    ensures RotateY(centerX + dx, centerX) == -RotateY(centerX - dx, centerX)
  {
    assert (centerY + dy - centerY) / centerY == -((centerY - dy - centerY) / centerY);
    assert (centerX + dx - centerX) / centerX == -((centerX - dx - centerX) / centerX);
  }

  /** The magnetism translation along one axis: 5% of the pointer's offset
      from the centre. */
  function MagnetOffset(p: real, center: real): (r: real)
    ensures p == center ==> r == 0.0
    ensures 0.0 <= p <= 2.0 * center ==> Abs(r) * 20.0 <= center
    ensures r * 20.0 == p - center
  {
    (p - center) * 0.05
  }

  /** Mirroring the pointer through the centre negates the magnetism
      offset. */
  lemma MagnetIsOdd(center: real, d: real)
    ensures MagnetOffset(center + d, center) == -MagnetOffset(center - d, center)
  {
  }

  /** The ripple square: left, top and side length, relative to the card. */
  datatype Ripple = Ripple(left: real, top: real, size: real)

  /** `maxDistance`: the largest of the four corner distances. */
  function MaxDistance(d1: real, d2: real, d3: real, d4: real): (m: real)
    ensures m >= d1 && m >= d2 && m >= d3 && m >= d4
    ensures m == d1 || m == d2 || m == d3 || m == d4
  {
    Max(Max(d1, d2), Max(d3, d4))
  }

  /** The ripple of a click at (x, y): a square of side 2 * maxDistance
      centred on the click. */
  function RippleAt(x: real, y: real, maxDistance: real): (r: Ripple)
    ensures r.left + r.size / 2.0 == x && r.top + r.size / 2.0 == y
    ensures r.size == 2.0 * maxDistance
  {
    Ripple(x - maxDistance, y - maxDistance, maxDistance * 2.0)
  }

  /** The four `Math.hypot` values of the click handler: the click's
      distance to each corner of a `width` by `height` card. */
  predicate CornerDistances(x: real, y: real, width: real, height: real,
                            d1: real, d2: real, d3: real, d4: real) {
    && IsHypot(d1, x, y)
    && IsHypot(d2, x - width, y)
    && IsHypot(d3, x, y - height)
    && IsHypot(d4, x - width, y - height)
  }

  /** A coordinate's square is at most its distance's square. */
  lemma LegBelowHypotenuse(h: real, dx: real, dy: real)
    requires IsHypot(h, dx, dy)
    ensures Abs(dx) <= h && Abs(dy) <= h
  {
    SquareMonotone(Abs(dx), h);
    SquareMonotone(Abs(dy), h);
  }

  /** Along one axis, a point between c and an edge at offset e from c is
      no farther from c than that edge. */
  lemma OffsetBelowEdge(p: real, c: real, e: real)
    requires c <= p <= c + e || c + e <= p <= c
    ensures (p - c) * (p - c) <= e * e
  {
    if c <= p <= c + e {
      SquareMonotone(p - c, e);
    } else {
      SquareMonotone(c - p, -e);
      assert (c - p) * (c - p) == (p - c) * (p - c);
      assert (-e) * (-e) == e * e;
    }
  }

  /** A point lying between the click and a corner is within that corner's
      distance of the click. */
  lemma WithinCorner(x: real, y: real, px: real, py: real, ex: real, ey: real, d: real)
    requires x <= px <= x + ex || x + ex <= px <= x
    requires y <= py <= y + ey || y + ey <= py <= y
    requires IsHypot(d, ex, ey)
    ensures (px - x) * (px - x) + (py - y) * (py - y) <= d * d
  {
    OffsetBelowEdge(px, x, ex);
    OffsetBelowEdge(py, y, ey);
  }

  /** The corner of the card on the point's side of the click in both axes,
      as an offset from the click, with its distance. */
  lemma CornerOfQuadrant(x: real, y: real, width: real, height: real,
                         d1: real, d2: real, d3: real, d4: real, px: real, py: real)
    returns (ex: real, ey: real, d: real)
    requires CornerDistances(x, y, width, height, d1, d2, d3, d4)
    requires 0.0 <= px <= width && 0.0 <= py <= height
    ensures x <= px <= x + ex || x + ex <= px <= x
    ensures y <= py <= y + ey || y + ey <= py <= y
    ensures IsHypot(d, ex, ey)
    ensures d == d1 || d == d2 || d == d3 || d == d4
  {
    ex := if px >= x then width - x else -x;
    ey := if py >= y then height - y else -y;
    d := if px >= x then (if py >= y then d4 else d2) else (if py >= y then d3 else d1);
    assert (width - x) * (width - x) == (x - width) * (x - width);
    assert (height - y) * (height - y) == (y - height) * (y - height);
    assert (-x) * (-x) == x * x && (-y) * (-y) == y * y;
  }

  /** The ripple's circle, of radius maxDistance around the click,
      contains every point of the card. */
  lemma RippleCircleCoversCard(x: real, y: real, width: real, height: real,
                               d1: real, d2: real, d3: real, d4: real, px: real, py: real)
    requires CornerDistances(x, y, width, height, d1, d2, d3, d4)
    requires 0.0 <= px <= width && 0.0 <= py <= height
    ensures var m := MaxDistance(d1, d2, d3, d4);
            (px - x) * (px - x) + (py - y) * (py - y) <= m * m
  {
    var ex, ey, d := CornerOfQuadrant(x, y, width, height, d1, d2, d3, d4, px, py);
    WithinCorner(x, y, px, py, ex, ey, d);
    var m := MaxDistance(d1, d2, d3, d4);
    assert 0.0 <= d <= m;
    SquareMonotone(d, m);
  }

  /** The ripple square, of side 2 * maxDistance centred on the click,
      contains every point of the card. */
  lemma RippleSquareCoversCard(x: real, y: real, width: real, height: real,
                               d1: real, d2: real, d3: real, d4: real, px: real, py: real)
    requires CornerDistances(x, y, width, height, d1, d2, d3, d4)
    requires 0.0 <= px <= width && 0.0 <= py <= height
    ensures var r := RippleAt(x, y, MaxDistance(d1, d2, d3, d4));
            r.left <= px <= r.left + r.size && r.top <= py <= r.top + r.size
  {
    LegBelowHypotenuse(d1, x, y);
    LegBelowHypotenuse(d4, x - width, y - height);
  }

  /** `MOBILE_BREAKPOINT`: viewports this wide or narrower count as mobile. */
  const MobileBreakpoint: int := 768

  /** `useMobileDetection`'s test on `window.innerWidth`. */
  function IsMobile(innerWidth: int): bool {
    innerWidth <= MobileBreakpoint
  }

  /** The test is inclusive at 768 pixels and downward closed. */
  lemma MobileThreshold(w1: int, w2: int)
    requires w1 <= w2
    ensures IsMobile(w2) ==> IsMobile(w1)
    ensures IsMobile(768) && !IsMobile(769)
  {
  }
}
