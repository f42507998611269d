/** The spotlight of the bento grid (MagicBento.tsx): the distance falloff
    that drives every card's `--glow-intensity`, the opacity of the single
    global glow element, and the pointer-move / pointer-leave handlers of
    `GlobalSpotlight` that write those values. Arithmetic is over `real`;
    `Math.hypot` is replaced by its defining property on squares. */
module Spotlight {
  import opened Wrappers
  import opened RealMath

  /** A rectangle as `getBoundingClientRect` reports it. */
  datatype Rect = Rect(left: real, top: real, width: real, height: real) {
    function Right(): real { left + width }
    function Bottom(): real { top + height }
    function CenterX(): real { left + width / 2.0 }
    function CenterY(): real { top + height / 2.0 }
    /** A laid-out element: both sides strictly positive. */
    predicate Proper() { width > 0.0 && height > 0.0 }
    /** The section test of the pointer-move handler, bounds inclusive. */
    predicate Contains(x: real, y: real) {
      left <= x <= Right() && top <= y <= Bottom()
    }
  }

  /** The two breakpoints of the falloff. */
  datatype Breakpoints = Breakpoints(proximity: real, fadeDistance: real)

  /** `calculateSpotlightValues`: full glow up to half the radius, fading
      out linearly until three quarters of it. */
  function SpotlightValues(radius: real): (b: Breakpoints)
    ensures radius > 0.0 ==> 0.0 < b.proximity < b.fadeDistance
    ensures b.fadeDistance - b.proximity == radius / 4.0
    ensures b.proximity == radius / 2.0
  {
    Breakpoints(radius * 0.5, radius * 0.75)
  }

  /** Distance from the pointer to the circle of diameter max(width, height)
      around a card's centre, never below zero; `dist` is the pointer's
      distance to the centre. The ensures say that subtracting the larger
      half-side gives the smaller of the two clamped differences. */
  function EffectiveDistance(dist: real, width: real, height: real): (r: real)
    ensures r >= 0.0
    ensures r <= Max(0.0, dist - width / 2.0) && r <= Max(0.0, dist - height / 2.0)
    ensures r == Max(0.0, dist - width / 2.0) || r == Max(0.0, dist - height / 2.0)
  {
    Max(0.0, dist - Max(width, height) / 2.0)
  }

  /** The effective distance is zero exactly when the pointer lies within
      the circle of diameter max(width, height) around the card's centre,
      stated on squared offsets. */
  lemma EffectiveDistanceZeroIff(dist: real, dx: real, dy: real, width: real, height: real)
    requires IsHypot(dist, dx, dy)
    requires width > 0.0 && height > 0.0
    ensures EffectiveDistance(dist, width, height) == 0.0
            <==> 4.0 * (dx * dx + dy * dy) <= width * width
                 || 4.0 * (dx * dx + dy * dy) <= height * height
  {
    SquareMonotone(dist, width / 2.0);
    SquareMonotone(dist, height / 2.0);
    assert (width / 2.0) * (width / 2.0) * 4.0 == width * width;
    assert (height / 2.0) * (height / 2.0) * 4.0 == height * height;
  }

  /** Per-card glow intensity: 1 up to the proximity breakpoint, linear down
      to 0 at the fade breakpoint, 0 beyond. */
  function Intensity(d: real, b: Breakpoints): (r: real)
    ensures 0.0 <= r <= 1.0
    ensures d <= b.proximity ==> r == 1.0
    ensures d > b.proximity && d > b.fadeDistance ==> r == 0.0
  {
    if d <= b.proximity then 1.0
    else if d <= b.fadeDistance then
      RatioInUnit(b.fadeDistance - d, b.fadeDistance - b.proximity);
      (b.fadeDistance - d) / (b.fadeDistance - b.proximity)
    else 0.0
  }

  /** Between the breakpoints the intensity is the linear ramp that is 1 at
      the proximity breakpoint and 0 at the fade breakpoint. */
  lemma IntensityIsLinearRamp(d: real, b: Breakpoints)
    requires b.proximity < d <= b.fadeDistance
    ensures Intensity(d, b) * (b.fadeDistance - b.proximity) == b.fadeDistance - d
    ensures d == b.fadeDistance ==> Intensity(d, b) == 0.0
  {
  }

  /** Scaled by the width of the ramp, the intensity is the distance left
      to the fade breakpoint, clamped to [0, fadeDistance - proximity]. */
  lemma ScaledIntensity(d: real, b: Breakpoints)
    requires b.proximity < b.fadeDistance
    ensures Intensity(d, b) * (b.fadeDistance - b.proximity)
            == Min(b.fadeDistance - b.proximity, Max(0.0, b.fadeDistance - d))
  {
    if b.proximity < d <= b.fadeDistance {
      IntensityIsLinearRamp(d, b);
    }
  }

  /** Moving away from a card never brightens it. */
  lemma IntensityNonIncreasing(d1: real, d2: real, b: Breakpoints)
    requires d1 <= d2
    ensures Intensity(d2, b) <= Intensity(d1, b)
  {
    if b.proximity < d1 && d2 <= b.fadeDistance {
      var w := b.fadeDistance - b.proximity;
      ScaledIntensity(d1, b);
      ScaledIntensity(d2, b);
      var x := Intensity(d1, b) - Intensity(d2, b);
      assert x * w == Intensity(d1, b) * w - Intensity(d2, b) * w;
      NonNegativeFactor(x, w);
    }
  }

  /** The intensity is Lipschitz continuous with constant
      1 / (fadeDistance - proximity); in particular it has no jump at either
      breakpoint. */
  lemma IntensityContinuous(d1: real, d2: real, b: Breakpoints)
    requires b.proximity < b.fadeDistance
    ensures Abs(Intensity(d1, b) - Intensity(d2, b)) * (b.fadeDistance - b.proximity) <= Abs(d1 - d2)
  {
    var w := b.fadeDistance - b.proximity;
    var i1, i2 := Intensity(d1, b), Intensity(d2, b);
    ScaledIntensity(d1, b);
    ScaledIntensity(d2, b);
    AbsScale(i1 - i2, w);
    assert (i1 - i2) * w == i1 * w - i2 * w;
    ClampIsContraction(b.fadeDistance - d1, b.fadeDistance - d2, w);
  }

  /** Clamping to [0, w] never increases distances. */
  lemma ClampIsContraction(a1: real, a2: real, w: real)
    requires w > 0.0
    ensures Abs(Min(w, Max(0.0, a1)) - Min(w, Max(0.0, a2))) <= Abs(a1 - a2)
  {
  }

  /** The target opacity of the global glow, written as the handler's
      chain of conditionals on the minimum effective distance; `None` is the
      `Infinity` the minimum starts from when there is no card. */
  function TargetOpacity(minDistance: Option<real>, b: Breakpoints): (r: real)
    ensures 0.0 <= r <= 0.8
    ensures minDistance.None? ==> r == 0.0
    ensures minDistance.Some? ==> r == 0.8 * Intensity(minDistance.value, b)
  {
    match minDistance
    case None => 0.0
    case Some(m) =>
      if m <= b.proximity then 0.8
      else if m <= b.fadeDistance then
        RatioInUnit(b.fadeDistance - m, b.fadeDistance - b.proximity);
        ((b.fadeDistance - m) / (b.fadeDistance - b.proximity)) * 0.8
      else 0.0
  }

  /** The running `Math.min` over the cards' effective distances, from
      `Infinity` (here `None`). */
  function MinDistance(ds: seq<real>): (m: Option<real>)
    ensures m.None? <==> |ds| == 0
  {
    if |ds| == 0 then None
    else
      match MinDistance(ds[..|ds| - 1])
      case None => Some(ds[|ds| - 1])
      case Some(p) => Some(Min(p, ds[|ds| - 1]))
  }

  /** The running minimum is the least element of a non-empty sequence. */
  lemma {:induction false} MinDistanceIsMinimum(ds: seq<real>)
    requires |ds| > 0
    ensures MinDistance(ds).Some?
    ensures forall i :: 0 <= i < |ds| ==> MinDistance(ds).value <= ds[i]
    ensures exists i :: 0 <= i < |ds| && MinDistance(ds).value == ds[i]
  {
    var n := |ds|;
    if n == 1 {
      assert MinDistance(ds).value == ds[0];
    } else {
      var prefix := ds[..n - 1];
      MinDistanceIsMinimum(prefix);
      var p := MinDistance(prefix).value;
      var j :| 0 <= j < n - 1 && p == prefix[j];
      assert forall i :: 0 <= i < n - 1 ==> ds[i] == prefix[i];
      if p <= ds[n - 1] {
        assert MinDistance(ds).value == ds[j];
      } else {
        assert MinDistance(ds).value == ds[n - 1];
      }
    }
  }

  /** The global glow is exactly as bright as the brightest card, scaled by
      0.8: no card's intensity exceeds opacity / 0.8, and some card reaches
      it. */
  lemma OpacityTracksBrightestCard(ds: seq<real>, b: Breakpoints)
    ensures forall i :: 0 <= i < |ds| ==> 0.8 * Intensity(ds[i], b) <= TargetOpacity(MinDistance(ds), b)
    ensures |ds| > 0 ==> exists i :: 0 <= i < |ds| && TargetOpacity(MinDistance(ds), b) == 0.8 * Intensity(ds[i], b)
  {
    if |ds| > 0 {
      MinDistanceIsMinimum(ds);
      var m := MinDistance(ds).value;
      forall i | 0 <= i < |ds|
        ensures 0.8 * Intensity(ds[i], b) <= TargetOpacity(MinDistance(ds), b)
      {
        IntensityNonIncreasing(m, ds[i], b);
      }
    }
  }

  /** `updateCardGlowProperties`'s coordinate: the pointer's position inside
      a card along one axis, in percent of the card's size. */
  function GlowPercent(pointer: real, start: real, size: real): (r: real)
    requires size > 0.0
    ensures pointer == start ==> r == 0.0
    ensures pointer == start + size ==> r == 100.0
    ensures start <= pointer <= start + size ==> 0.0 <= r <= 100.0
    ensures r * size == (pointer - start) * 100.0
  {
    ((pointer - start) / size) * 100.0
  }

  /** The four custom properties the spotlight writes on a card. */
  datatype CardStyle = CardStyle(glowX: real, glowY: real, intensity: real, radius: real)

  /** The values a card is rendered with before the pointer first moves. */
  const InitialCardStyle := CardStyle(50.0, 50.0, 0.0, 200.0)

  /** `updateCardGlowProperties`. */
  function CardGlow(px: real, py: real, card: Rect, glow: real, radius: real): (s: CardStyle)
    requires card.Proper()
    ensures card.Contains(px, py) ==> 0.0 <= s.glowX <= 100.0 && 0.0 <= s.glowY <= 100.0
    ensures s.intensity == glow && s.radius == radius
  {
    CardStyle(GlowPercent(px, card.left, card.width), GlowPercent(py, card.top, card.height), glow, radius)
  }

  /** Precondition shared by the pointer-move handler and its specification:
      one laid-out rectangle and one measured centre distance per card. */
  predicate Measured(px: real, py: real, rects: seq<Rect>, hyps: seq<real>) {
    && |hyps| == |rects|
    && forall i :: 0 <= i < |rects| ==>
         rects[i].Proper() && IsHypot(hyps[i], px - rects[i].CenterX(), py - rects[i].CenterY())
  }

  /** The effective distance of every card. */
  function EffectiveDistances(rects: seq<Rect>, hyps: seq<real>): (ds: seq<real>)
    requires |hyps| == |rects|
    ensures |ds| == |rects|
    ensures forall i :: 0 <= i < |ds| ==> ds[i] >= 0.0
  {
    seq(|rects|, i requires 0 <= i < |rects| => EffectiveDistance(hyps[i], rects[i].width, rects[i].height))
  }

  /** What a pointer move inside the section writes on every card. */
  function Glows(px: real, py: real, rects: seq<Rect>, hyps: seq<real>, radius: real): (gs: seq<CardStyle>)
    requires Measured(px, py, rects, hyps)
    ensures |gs| == |rects|
    ensures forall i :: 0 <= i < |gs| ==> 0.0 <= gs[i].intensity <= 1.0 && gs[i].radius == radius
  {
    var ds := EffectiveDistances(rects, hyps);
    seq(|rects|, i requires 0 <= i < |rects| => CardGlow(px, py, rects[i], Intensity(ds[i], SpotlightValues(radius)), radius))
  }

  /** What leaving the section writes: intensity 0 on every card, nothing
      else touched. */
  function Darkened(cards: seq<CardStyle>): (r: seq<CardStyle>)
    ensures |r| == |cards|
    ensures forall i :: 0 <= i < |r| ==> r[i].intensity == 0.0
    ensures forall i :: 0 <= i < |r| ==>
              r[i].glowX == cards[i].glowX && r[i].glowY == cards[i].glowY && r[i].radius == cards[i].radius
  {
    seq(|cards|, i requires 0 <= i < |cards| => cards[i].(intensity := 0.0))
  }

  /** The pointer test of the pointer-move handler; a missing section
      counts as outside. */
  predicate PointerInside(section: Option<Rect>, px: real, py: real) {
    section.Some? && section.value.Contains(px, py)
  }

  /** A card the pointer is close to glows at full strength and lights the
      global glow at its maximum: stated on the spotlight's specification
      for a card whose effective distance is within the proximity breakpoint. */
  lemma CloseCardLightsSpotlight(px: real, py: real, rects: seq<Rect>, hyps: seq<real>, radius: real, k: nat)
    requires Measured(px, py, rects, hyps)
    requires k < |rects|
    requires EffectiveDistances(rects, hyps)[k] <= SpotlightValues(radius).proximity
    ensures Glows(px, py, rects, hyps, radius)[k].intensity == 1.0
    ensures TargetOpacity(MinDistance(EffectiveDistances(rects, hyps)), SpotlightValues(radius)) == 0.8
  {
    var ds := EffectiveDistances(rects, hyps);
    OpacityTracksBrightestCard(ds, SpotlightValues(radius));
    assert 0.8 * Intensity(ds[k], SpotlightValues(radius)) == 0.8;
  }

  /** The `GlobalSpotlight` component: the single glow element that follows
      the pointer and the glow properties it writes on the section's cards.
      `attached` says whether the effect created the glow element and
      registered the document listeners (spotlight enabled, animations not
      disabled, grid mounted); when it did not, the handlers never run. */
  class GlobalSpotlight {
    const radius: real
    /** The `enabled` prop. */
    const enabled: bool
    var attached: bool
    /** The glow properties of every card, in document order. */
    var cards: seq<CardStyle>
    /** `isInsideSection`. */
    var insideSection: bool
    /** Target opacity of the glow element (the value its tween aims at). */
    var opacity: real
    /** Target position of the glow element. */
    var spotX: real
    var spotY: real

    constructor (radius: real, enabled: bool, disableAnimations: bool, cardCount: nat)
      ensures this.radius == radius && this.enabled == enabled
      ensures attached == (enabled && !disableAnimations)
      ensures cards == seq(cardCount, _ => InitialCardStyle)
      ensures !insideSection && opacity == 0.0
    {
      this.radius := radius;
      this.enabled := enabled;
      attached := enabled && !disableAnimations;
      cards := seq(cardCount, _ => InitialCardStyle);
      insideSection := false;
      opacity := 0.0;
      spotX, spotY := 0.0, 0.0;
    }

    /** Sets `--glow-intensity` to 0 on every card, one card at a time. */
    method DarkenCards()
      modifies this`cards
      ensures cards == Darkened(old(cards))
      ensures insideSection == old(insideSection)
      ensures opacity == old(opacity) && spotX == old(spotX) && spotY == old(spotY)
    {
      for i := 0 to |cards|
        invariant |cards| == |old(cards)|
        invariant forall k :: 0 <= k < i ==> cards[k] == old(cards)[k].(intensity := 0.0)
        invariant forall k :: i <= k < |cards| ==> cards[k] == old(cards)[k]
      {
        cards := cards[i := cards[i].(intensity := 0.0)];
      }
    }

    /** The document `mousemove` handler. `section` is the bento section's
        rectangle (absent when it is not in the document), `rects` the
        cards' rectangles and `hyps` the pointer's distance to each card's
        centre. */
    method MouseMove(px: real, py: real, section: Option<Rect>, rects: seq<Rect>, hyps: seq<real>)
      requires |rects| == |cards|
      requires Measured(px, py, rects, hyps)
      modifies this`cards, this`insideSection, this`opacity, this`spotX, this`spotY
      ensures !attached ==> cards == old(cards) && insideSection == old(insideSection)
                            && opacity == old(opacity) && spotX == old(spotX) && spotY == old(spotY)
      ensures attached ==> insideSection == PointerInside(section, px, py)
      ensures attached && !insideSection ==>
                cards == Darkened(old(cards)) && opacity == 0.0
                && spotX == old(spotX) && spotY == old(spotY)
      ensures attached && insideSection ==>
                && cards == Glows(px, py, rects, hyps, radius)
                && opacity == TargetOpacity(MinDistance(EffectiveDistances(rects, hyps)), SpotlightValues(radius))
                && spotX == px && spotY == py
    {
      if !attached {
        return;
      }
      insideSection := PointerInside(section, px, py);
      if !insideSection {
        opacity := 0.0;
        DarkenCards();
        return;
      }
      var minDistance := LightCards(px, py, rects, hyps);
      spotX, spotY := px, py;
      opacity := TargetOpacity(minDistance, SpotlightValues(radius));
    }

    /** The loop of the pointer-move handler over the cards: writes each
        card's glow properties and returns the least effective distance. */
    method LightCards(px: real, py: real, rects: seq<Rect>, hyps: seq<real>) returns (minDistance: Option<real>)
      requires |rects| == |cards|
      requires Measured(px, py, rects, hyps)
      modifies this`cards
      ensures cards == Glows(px, py, rects, hyps, radius)
      ensures minDistance == MinDistance(EffectiveDistances(rects, hyps))
    {
      var b := SpotlightValues(radius);
      minDistance := None;
      ghost var ds := EffectiveDistances(rects, hyps);
      ghost var target := Glows(px, py, rects, hyps, radius);
      for i := 0 to |rects|
        invariant |cards| == |rects|
        invariant forall k :: 0 <= k < i ==> cards[k] == target[k]
        invariant minDistance == MinDistance(ds[..i])
      {
        var card := rects[i];
        var effectiveDistance := EffectiveDistance(hyps[i], card.width, card.height);
        assert ds[..i + 1][..i] == ds[..i];
        minDistance := match minDistance
          case None => Some(effectiveDistance)
          case Some(m) => Some(Min(m, effectiveDistance));
        var glowIntensity := 0.0;
        if effectiveDistance <= b.proximity {
          glowIntensity := 1.0;
        } else if effectiveDistance <= b.fadeDistance {
          glowIntensity := (b.fadeDistance - effectiveDistance) / (b.fadeDistance - b.proximity);
        }
        assert glowIntensity == Intensity(ds[i], b);
        cards := cards[i := CardGlow(px, py, card, glowIntensity, radius)];
      }
      assert ds[..|rects|] == ds;
      assert cards == target;
    }

    /** The document `mouseleave` handler: darken every card and fade the
        glow element out. */
    method MouseLeave()
      modifies this`cards, this`insideSection, this`opacity
      ensures !attached ==> cards == old(cards) && insideSection == old(insideSection) && opacity == old(opacity)
      ensures attached ==> !insideSection && cards == Darkened(old(cards)) && opacity == 0.0
      ensures spotX == old(spotX) && spotY == old(spotY)
    {
      if !attached {
        return;
      }
      insideSection := false;
      DarkenCards();
      opacity := 0.0;
    }

    /** The effect re-run after `disableAnimations` changed: the cleanup
        removes the listeners and the glow element, and the effect body
        attaches them again, with a new glow element at opacity 0, only
        when the guard now passes. The cards keep their properties. */
    method RerunEffect(disableAnimations: bool)
      modifies this`attached, this`opacity
      ensures attached == (enabled && !disableAnimations)
      ensures opacity == 0.0
    {
      attached := enabled && !disableAnimations;
      opacity := 0.0;
    }
  }
}
