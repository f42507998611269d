/** `FloatingStars` (floating-stars.tsx): a field of slowly drifting,
    flickering stars generated once, after the component has mounted. */
module FloatingStars {
  import opened Wrappers
  import opened Randomness

  /** The default `count` of `generateStars`. */
  const DefaultStarCount: nat := 30

  datatype Star = Star(
    id: nat,
    x: real,
    y: real,
    size: real,
    brightness: real,
    flickerSpeed: real,
    glowIntensity: real,
    animationDuration: real)

  /** The seven `Math.random()` draws of one star, in the order the
      fields are written. */
  datatype StarDraws = StarDraws(x: real, y: real, size: real, brightness: real,
                                 flicker: real, glow: real, duration: real)

  predicate WellDrawn(d: StarDraws) {
    && InUnitInterval(d.x) && InUnitInterval(d.y) && InUnitInterval(d.size)
    && InUnitInterval(d.brightness) && InUnitInterval(d.flicker)
    && InUnitInterval(d.glow) && InUnitInterval(d.duration)
  }

  /** Every field lies in the range its comment in the source gives,
      lower bound included and upper bound excluded. */
  predicate InRanges(s: Star) {
    && 0.0 <= s.x < 100.0 && 0.0 <= s.y < 100.0
    && 0.3 <= s.size < 1.1
    && 0.3 <= s.brightness < 1.0
    && 3.0 <= s.flickerSpeed < 7.0
    && 1.0 <= s.glowIntensity < 3.0
    && 60.0 <= s.animationDuration < 100.0
  }

  /** `r * scale + offset` for a draw r lies in [offset, offset + scale). */
  lemma ScaledShift(r: real, scale: real, offset: real)
    requires InUnitInterval(r) && scale > 0.0
    ensures offset <= r * scale + offset < scale + offset
  {
    ScaledDraw(r, scale);
  }

  /** Star `i` of `generateStars`. */
  function MakeStar(i: nat, d: StarDraws): (s: Star)
    requires WellDrawn(d)
    ensures s.id == i && InRanges(s)
  {
    ScaledShift(d.x, 100.0, 0.0);
    ScaledShift(d.y, 100.0, 0.0);
    ScaledShift(d.size, 0.8, 0.3);
    ScaledShift(d.brightness, 0.7, 0.3);
    ScaledShift(d.flicker, 4.0, 3.0);
    ScaledShift(d.glow, 2.0, 1.0);
    ScaledShift(d.duration, 40.0, 60.0);
    Star(i,
         d.x * 100.0,
         d.y * 100.0,
         d.size * 0.8 + 0.3,
         d.brightness * 0.7 + 0.3,
         d.flicker * 4.0 + 3.0,
         d.glow * 2.0 + 1.0,
         d.duration * 40.0 + 60.0)
  }

  /** `generateStars(count)`, with the draws of star i at index i. */
  function GenerateStars(count: nat, draws: seq<StarDraws>): (stars: seq<Star>)
    requires |draws| == count
    requires forall i :: 0 <= i < |draws| ==> WellDrawn(draws[i])
    ensures |stars| == count
    ensures forall i :: 0 <= i < |stars| ==> stars[i].id == i && InRanges(stars[i])
  {
    seq(count, i requires 0 <= i < count => MakeStar(i, draws[i]))
  }

  /** Ids are distinct, so they are usable as React keys. */
  lemma StarIdsDistinct(count: nat, draws: seq<StarDraws>, i: int, j: int)
    requires |draws| == count
    requires forall k :: 0 <= k < |draws| ==> WellDrawn(draws[k])
    requires 0 <= i < count && 0 <= j < count && i != j
    ensures GenerateStars(count, draws)[i].id != GenerateStars(count, draws)[j].id
  {
  }

  /** The delay, in seconds, before star `s` fades in. */
  function FadeInDelay(s: Star): real {
    s.id as real * 0.2
  }

  /** The stars fade in one after another, 0.2 s apart, the first at once. */
  lemma FadeInStaggered(count: nat, draws: seq<StarDraws>, i: int, j: int)
    requires |draws| == count
    requires forall k :: 0 <= k < |draws| ==> WellDrawn(draws[k])
    requires 0 <= i < j < count
    ensures FadeInDelay(GenerateStars(count, draws)[0]) == 0.0
    ensures FadeInDelay(GenerateStars(count, draws)[i]) + 0.2 <= FadeInDelay(GenerateStars(count, draws)[j])
  {
  }

  /** The component's state: `isMounted` and `stars`; `generations`
      counts the calls of `generateStars`. */
  class StarField {
    var mounted: bool
    var stars: seq<Star>
    ghost var generations: nat

    ghost predicate Valid()
      reads this
    {
      && (!mounted ==> stars == [] && generations == 0)
      && (mounted ==> |stars| == DefaultStarCount && generations == 1)
      && (forall i :: 0 <= i < |stars| ==> stars[i].id == i && InRanges(stars[i]))
    }

    /** The first render, which runs before any effect. */
    constructor ()
      ensures Valid() && !mounted && stars == []
    {
      mounted := false;
      stars := [];
      generations := 0;
    }

    /** What the component renders: nothing before mount, then the stars. */
    function Rendered(): (r: Option<seq<Star>>)
      reads this
      requires Valid()
      ensures r.None? <==> !mounted
      ensures r.Some? ==> |r.value| == DefaultStarCount
    {
      if !mounted then None else Some(stars)
    }

    /** The mount effect, which React runs once: the component is marked
        mounted and the 30 stars are generated. */
    method MountEffect(draws: seq<StarDraws>)
      requires Valid() && !mounted
      requires |draws| == DefaultStarCount
      requires forall i :: 0 <= i < |draws| ==> WellDrawn(draws[i])
      modifies this
      ensures Valid() && mounted
      ensures stars == GenerateStars(DefaultStarCount, draws)
      ensures generations == old(generations) + 1
    {
      mounted := true;
      stars := GenerateStars(DefaultStarCount, draws);
      generations := generations + 1;
    }
  }
}
