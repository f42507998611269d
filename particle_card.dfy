/** `ParticleCard` (MagicBento.tsx): a bento card that, while hovered,
    fills itself with a bounded set of glowing particles. Particles are
    cloned from templates created once per card; each clone is scheduled
    by a timeout staggered by 100 ms per template, and leaving the card
    cancels every pending timeout and drops the live particles. Timers are
    abstract: `pending` is the set of scheduled timeouts the scheduler has
    neither fired nor cancelled, and the scheduler fires one of them with
    `FireTimeout`. The card also holds the targets of its tilt and
    magnetism tweens and its click ripples. */
module ParticleCards {
  import opened Wrappers
  import opened Randomness
  import opened CardEffects

  /** `DEFAULT_PARTICLE_COUNT`. */
  const DefaultParticleCount: nat := 12

  /** The stagger between two consecutive particle timeouts, in ms. */
  const StaggerMs: nat := 100

  /** A particle element reduced to its position (`left`, `top`) in the
      card; a clone is equal to its template. */
  datatype Particle = Particle(x: real, y: real)

  /** The two `Math.random()` draws that place one template. */
  datatype Draw = Draw(rx: real, ry: real)

  /** A scheduled `setTimeout`: which template it clones, after what delay. */
  datatype Timer = Timer(template: nat, delay: nat)

  /** The templates `initializeParticles` creates for a `width` by `height`
      card: one per draw, each inside the card. */
  function Templates(width: real, height: real, draws: seq<Draw>): (ts: seq<Particle>)
    requires width >= 0.0 && height >= 0.0
    requires forall i :: 0 <= i < |draws| ==> InUnitInterval(draws[i].rx) && InUnitInterval(draws[i].ry)
    ensures |ts| == |draws|
    ensures forall i :: 0 <= i < |ts| ==>
              && 0.0 <= ts[i].x <= width && (width > 0.0 ==> ts[i].x < width)
              && 0.0 <= ts[i].y <= height && (height > 0.0 ==> ts[i].y < height)
  {
    seq(|draws|, i requires 0 <= i < |draws| =>
      PlacedParticle(width, height, draws[i]))
  }

  /** One template, at the random fraction of the card's width and height. */
  function PlacedParticle(width: real, height: real, d: Draw): (p: Particle)
    requires width >= 0.0 && height >= 0.0
    requires InUnitInterval(d.rx) && InUnitInterval(d.ry)
    ensures 0.0 <= p.x <= width && (width > 0.0 ==> p.x < width)
    ensures 0.0 <= p.y <= height && (height > 0.0 ==> p.y < height)
  {
    assert 0.0 <= d.rx * width <= width && (width > 0.0 ==> d.rx * width < width) by {
      if width > 0.0 { ScaledDraw(d.rx, width); }
    }
    assert 0.0 <= d.ry * height <= height && (height > 0.0 ==> d.ry * height < height) by {
      if height > 0.0 { ScaledDraw(d.ry, height); }
    }
    Particle(d.rx * width, d.ry * height)
  }

  /** The timeouts one call of `animateParticles` schedules for n templates. */
  function Schedule(n: nat): (ts: seq<Timer>)
    ensures |ts| == n
    ensures forall k :: 0 <= k < n ==> ts[k].template == k
    ensures n > 0 ==> ts[0].delay == 0
  {
    seq(n, k requires 0 <= k < n => Timer(k, k * StaggerMs))
  }

  /** The staggered delays start at 0 and grow strictly with the index. */
  lemma ScheduleStaggered(n: nat, j: nat, k: nat)
    requires j < k < n
    ensures Schedule(n)[0].delay == 0
    ensures Schedule(n)[j].delay + StaggerMs <= Schedule(n)[k].delay
  {
  }

  /** The timer handles 0 .. n-1. */
  function RangeSet(n: nat): (s: set<nat>)
    ensures forall k: nat :: k in s <==> k < n
  {
    if n == 0 then {} else RangeSet(n - 1) + {n - 1}
  }

  lemma {:induction false} RangeSetSize(n: nat)
    ensures |RangeSet(n)| == n
  {
    if n > 0 {
      RangeSetSize(n - 1);
      assert RangeSet(n) == RangeSet(n - 1) + {n - 1};
    }
  }

  class ParticleCard {
    const particleCount: nat
    const enableTilt: bool
    const clickEffect: bool
    const enableMagnetism: bool

    /** The listeners are attached (until the effect's cleanup runs). */
    var listening: bool
    /** `isHoveredRef`. */
    var hovered: bool
    /** `particlesInitialized`. */
    var initialized: bool
    /** `memoizedParticles`. */
    var templates: seq<Particle>
    /** `timeoutsRef`: every timeout scheduled since the last clear. */
    var timeouts: seq<Timer>
    /** Indices into `timeouts` that have neither fired nor been cancelled. */
    var pending: set<nat>
    /** `particlesRef`: the particles currently alive in the card. */
    var live: seq<Particle>
    /** Particles taken out of `particlesRef` whose exit animation has not
        completed: they are still in the card until it does. */
    var leaving: seq<Particle>
    /** Target rotation of the tilt tween, in degrees. */
    var rotateX: real
    var rotateY: real
    /** Target translation of the magnetism tween. */
    var shiftX: real
    var shiftY: real
    /** `magnetismAnimationRef` holds a tween that has not been killed. */
    var magnetTween: bool
    /** Click ripples still animating. */
    var ripples: seq<Ripple>

    /** The bookkeeping of templates, timeouts and live particles: every
        timeout scheduled since the last clear has either fired, adding
        exactly one clone of its template, or is still pending. */
    ghost predicate Counts()
      reads this
    {
      && (initialized ==> |templates| == particleCount)
      && (!initialized ==> templates == [])
      && (timeouts == [] || |timeouts| == |templates|)
      && (forall k :: 0 <= k < |timeouts| ==> timeouts[k] == Timer(k, k * StaggerMs))
      && (forall t :: t in pending ==> t < |timeouts|)
      && |live| + |pending| == |timeouts|
      && (forall j :: 0 <= j < |live| ==> live[j] in templates)
    }

    /** No timeout scheduled and no particle alive. */
    ghost predicate Idle()
      reads this
    {
      timeouts == [] && pending == {} && live == []
    }

    ghost predicate Valid()
      reads this
    {
      Counts() && (!hovered ==> Idle()) && (!listening ==> !hovered)
    }

    /** Mounting with the card's props; an omitted `particleCount`
        (`None`) takes the default of 12. */
    constructor (particleCount: Option<nat>, disableAnimations: bool, enableTilt: bool,
                 clickEffect: bool, enableMagnetism: bool)
      ensures Valid() && Idle() && !hovered && !initialized && templates == [] && leaving == []
      ensures this.particleCount == (if particleCount.Some? then particleCount.value else DefaultParticleCount)
      ensures listening == !disableAnimations
      ensures this.enableTilt == enableTilt && this.clickEffect == clickEffect
      ensures this.enableMagnetism == enableMagnetism
      ensures ripples == [] && !magnetTween
    {
      this.particleCount := if particleCount.Some? then particleCount.value else DefaultParticleCount;
      this.enableTilt := enableTilt;
      this.clickEffect := clickEffect;
      this.enableMagnetism := enableMagnetism;
      listening := !disableAnimations;
      hovered := false;
      initialized := false;
      templates := [];
      timeouts := [];
      pending := {};
      live := [];
      leaving := [];
      rotateX, rotateY, shiftX, shiftY := 0.0, 0.0, 0.0, 0.0;
      magnetTween := false;
      ripples := [];
    }

    /** `initializeParticles`: creates the templates once, inside the card's
        current `width` by `height` box; later calls change nothing. */
    method InitializeParticles(width: real, height: real, draws: seq<Draw>)
      requires Valid()
      requires width >= 0.0 && height >= 0.0 && |draws| == particleCount
      requires forall i :: 0 <= i < |draws| ==> InUnitInterval(draws[i].rx) && InUnitInterval(draws[i].ry)
      modifies this`templates, this`initialized
      ensures Valid() && initialized
      ensures templates == if old(initialized) then old(templates) else Templates(width, height, draws)
    {
      if initialized {
        return;
      }
      templates := Templates(width, height, draws);
      initialized := true;
    }

    /** `animateParticles`: when hovered, makes sure the templates exist and
        schedules one timeout per template, the k-th after k * 100 ms. */
    method AnimateParticles(width: real, height: real, draws: seq<Draw>)
      requires Valid() && Idle()
      requires width >= 0.0 && height >= 0.0 && |draws| == particleCount
      requires forall i :: 0 <= i < |draws| ==> InUnitInterval(draws[i].rx) && InUnitInterval(draws[i].ry)
      modifies this`templates, this`initialized, this`timeouts, this`pending
      ensures Valid() && live == []
      ensures !hovered ==> templates == old(templates) && initialized == old(initialized) && Idle()
      ensures hovered ==>
                && initialized
                && templates == (if old(initialized) then old(templates) else Templates(width, height, draws))
                && timeouts == Schedule(particleCount)
                && pending == RangeSet(particleCount)
    {
      if !hovered {
        return;
      }
      if !initialized {
        InitializeParticles(width, height, draws);
      }
      ScheduleTimeouts();
    }

    /** The `setTimeout` loop of `animateParticles`. */
    method ScheduleTimeouts()
      requires Valid() && Idle() && initialized && hovered
      modifies this`timeouts, this`pending
      ensures Valid()
      ensures timeouts == Schedule(particleCount) && pending == RangeSet(particleCount)
    {
      for i := 0 to |templates|
        invariant |timeouts| == i
        invariant forall k :: 0 <= k < i ==> timeouts[k] == Timer(k, k * StaggerMs)
        invariant pending == RangeSet(i)
      {
        timeouts := timeouts + [Timer(i, i * StaggerMs)];
        pending := pending + {i};
      }
      assert forall k :: 0 <= k < |timeouts| ==> timeouts[k] == Schedule(particleCount)[k];
      RangeSetSize(|templates|);
    }

    /** The scheduler runs pending timeout `t`: while the card is hovered,
        a clone of the timeout's template becomes live. */
    method FireTimeout(t: nat)
      requires Valid() && t in pending
      modifies this`pending, this`live
      ensures Valid() && |live| <= particleCount
      ensures pending == old(pending) - {t}
      ensures live == if hovered then old(live) + [templates[timeouts[t].template]] else old(live)
    {
      pending := pending - {t};
      if !hovered {
        return;
      }
      var clone := templates[timeouts[t].template];
      live := live + [clone];
    }

    /** `clearAllParticles`: cancels every timeout in the list, kills the
        magnetism tween and starts the exit animation of every live
        particle, which leaves `particlesRef` at once. */
    method ClearAllParticles()
      requires Counts()
      modifies this`timeouts, this`pending, this`live, this`leaving, this`magnetTween
      ensures Counts() && Idle() && !magnetTween
      ensures leaving == old(leaving) + old(live)
    {
      CancelTimeouts();
      assert pending == {};
      timeouts := [];
      magnetTween := false;
      leaving := leaving + live;
      live := [];
    }

    /** The exit animation of leaving particle `k` completes and it is
        removed from the card. */
    method ExitAnimationDone(k: nat)
      requires k < |leaving|
      modifies this`leaving
      ensures leaving == old(leaving)[..k] + old(leaving)[k + 1..]
    {
      leaving := leaving[..k] + leaving[k + 1..];
    }

    /** The `clearTimeout` loop of `clearAllParticles`: every timeout in the
        list is cancelled. */
    method CancelTimeouts()
      modifies this`pending
      ensures pending == old(pending) - RangeSet(|timeouts|)
    {
      for i := 0 to |timeouts|
        invariant pending == old(pending) - RangeSet(i)
      {
        pending := pending - {i};
      }
    }

    /** The `mouseenter` handler. The DOM alternates `mouseenter` and
        `mouseleave` on an element, so the card is not hovered before. */
    method MouseEnter(width: real, height: real, draws: seq<Draw>)
      requires Valid() && !hovered
      requires width >= 0.0 && height >= 0.0 && |draws| == particleCount
      requires forall i :: 0 <= i < |draws| ==> InUnitInterval(draws[i].rx) && InUnitInterval(draws[i].ry)
      modifies this`hovered, this`templates, this`initialized, this`timeouts, this`pending
      modifies this`rotateX, this`rotateY
      ensures Valid() && |live| <= particleCount
      ensures !listening ==>
                && !hovered && Idle()
                && templates == old(templates) && initialized == old(initialized)
                && rotateX == old(rotateX) && rotateY == old(rotateY)
      ensures listening ==>
                && hovered && initialized && live == []
                && templates == (if old(initialized) then old(templates) else Templates(width, height, draws))
                && timeouts == Schedule(particleCount)
                && pending == RangeSet(particleCount)
                && (rotateX, rotateY) == (if enableTilt then (5.0, 5.0) else (old(rotateX), old(rotateY)))
    {
      if !listening {
        return;
      }
      hovered := true;
      AnimateParticles(width, height, draws);
      if enableTilt {
        rotateX, rotateY := 5.0, 5.0;
      }
    }

    /** The `mouseleave` handler: nothing stays scheduled or alive, and the
        tilt and magnetism tweens head back to rest. */
    method MouseLeave()
      requires Valid()
      modifies this`hovered, this`timeouts, this`pending, this`live, this`leaving, this`magnetTween
      modifies this`rotateX, this`rotateY, this`shiftX, this`shiftY
      ensures Valid() && !hovered && Idle()
      ensures leaving == old(leaving) + old(live)
      ensures !listening ==>
                && magnetTween == old(magnetTween)
                && rotateX == old(rotateX) && rotateY == old(rotateY)
                && shiftX == old(shiftX) && shiftY == old(shiftY)
      ensures listening ==>
                && !magnetTween
                && (rotateX, rotateY) == (if enableTilt then (0.0, 0.0) else (old(rotateX), old(rotateY)))
                && (shiftX, shiftY) == (if enableMagnetism then (0.0, 0.0) else (old(shiftX), old(shiftY)))
    {
      if !listening {
        return;
      }
      hovered := false;
      ClearAllParticles();
      if enableTilt {
        rotateX, rotateY := 0.0, 0.0;
      }
      if enableMagnetism {
        shiftX, shiftY := 0.0, 0.0;
      }
    }

    /** The `mousemove` handler; (x, y) is the pointer relative to the
        card's top-left corner and the card is `width` by `height`. */
    method MouseMove(x: real, y: real, width: real, height: real)
      requires Valid()
      requires width > 0.0 && height > 0.0
      modifies this`rotateX, this`rotateY, this`shiftX, this`shiftY, this`magnetTween
      ensures Valid()
      ensures (rotateX, rotateY) ==
                if listening && enableTilt then (RotateX(y, height / 2.0), RotateY(x, width / 2.0))
                else (old(rotateX), old(rotateY))
      ensures (shiftX, shiftY, magnetTween) ==
                if listening && enableMagnetism
                then (MagnetOffset(x, width / 2.0), MagnetOffset(y, height / 2.0), true)
                else (old(shiftX), old(shiftY), old(magnetTween))
    {
      if !listening {
        return;
      }
      if !enableTilt && !enableMagnetism {
        return;
      }
      var centerX := width / 2.0;
      var centerY := height / 2.0;
      if enableTilt {
        rotateX := RotateX(y, centerY);
        rotateY := RotateY(x, centerX);
      }
      if enableMagnetism {
        shiftX := MagnetOffset(x, centerX);
        shiftY := MagnetOffset(y, centerY);
        magnetTween := true;
      }
    }

    /** The `click` handler: with the click effect on, a ripple centred on
        the click and reaching the farthest corner starts animating. */
    method Click(x: real, y: real, width: real, height: real, d1: real, d2: real, d3: real, d4: real)
      requires CornerDistances(x, y, width, height, d1, d2, d3, d4)
      modifies this`ripples
      ensures ripples == if listening && clickEffect
                         then old(ripples) + [RippleAt(x, y, MaxDistance(d1, d2, d3, d4))]
                         else old(ripples)
    {
      if !listening || !clickEffect {
        return;
      }
      ripples := ripples + [RippleAt(x, y, MaxDistance(d1, d2, d3, d4))];
    }

    /** A ripple's animation completed: it removes itself. */
    method RippleFinished(k: nat)
      requires k < |ripples|
      modifies this`ripples
      ensures ripples == old(ripples)[..k] + old(ripples)[k + 1..]
    {
      ripples := ripples[..k] + ripples[k + 1..];
    }

    /** The mount effect's cleanup: the card stops listening, is no longer
        hovered, and every timeout and particle is cleared. */
    method Teardown()
      requires Valid()
      modifies this`hovered, this`listening, this`timeouts, this`pending, this`live, this`leaving
      modifies this`magnetTween
      ensures Valid() && !listening && !hovered && Idle() && !magnetTween
      ensures leaving == old(leaving) + old(live)
    {
      hovered := false;
      listening := false;
      ClearAllParticles();
    }

    /** The mount effect re-run after `disableAnimations` changed: the
        cleanup tears the card down, and the effect body attaches the
        listeners again only when animations are now on. */
    method RerunEffect(disableAnimations: bool)
      requires Valid()
      modifies this`hovered, this`listening, this`timeouts, this`pending, this`live, this`leaving
      modifies this`magnetTween
      ensures Valid() && !hovered && Idle() && !magnetTween
      ensures listening == !disableAnimations
      ensures leaving == old(leaving) + old(live)
    {
      Teardown();
      listening := !disableAnimations;
    }
  }

  /** At no point are more particles alive than the card's particle count. */
  lemma LiveParticlesBounded(c: ParticleCard)
    requires c.Valid()
    ensures |c.live| <= c.particleCount
    ensures !c.hovered ==> c.live == []
  {
  }

  /** Hovering long enough for every staggered timeout to fire leaves
      exactly `particleCount` particles alive, one clone of each template. */
  method HoverUntilAllFired(c: ParticleCard, width: real, height: real, draws: seq<Draw>)
    requires c.Valid() && !c.hovered && c.listening
    requires width >= 0.0 && height >= 0.0 && |draws| == c.particleCount
    requires forall i :: 0 <= i < |draws| ==> InUnitInterval(draws[i].rx) && InUnitInterval(draws[i].ry)
    modifies c
    ensures c.Valid() && c.hovered && c.listening && c.pending == {}
    ensures c.live == c.templates && |c.live| == c.particleCount
    ensures c.leaving == old(c.leaving)
  {
    c.MouseEnter(width, height, draws);
    FireInScheduleOrder(c);
  }

  /** The scheduler fires the timeouts of one hover in the order of their
      delays, with the card hovered throughout. */
  method FireInScheduleOrder(c: ParticleCard)
    requires c.Valid() && c.hovered && c.initialized && c.live == []
    requires c.timeouts == Schedule(c.particleCount) && c.pending == RangeSet(c.particleCount)
    modifies c`pending, c`live
    ensures c.Valid() && c.pending == {} && c.live == c.templates
  {
    for k := 0 to c.particleCount
      invariant c.Valid()
      invariant forall t: nat :: t in c.pending <==> k <= t < c.particleCount
      invariant c.live == c.templates[..k]
      invariant |c.templates| == c.particleCount && c.timeouts == Schedule(c.particleCount)
    {
      assert c.timeouts[k].template == k;
      c.FireTimeout(k);
      assert c.templates[..k + 1] == c.templates[..k] + [c.templates[k]];
    }
  }

  /** A full hover: every particle appears, then leaving hands all of them
      to their exit animation, leaving nothing scheduled or alive. */
  method HoverThenLeave(c: ParticleCard, width: real, height: real, draws: seq<Draw>)
      returns (peak: seq<Particle>)
    requires c.Valid() && !c.hovered && c.listening
    requires width >= 0.0 && height >= 0.0 && |draws| == c.particleCount
    requires forall i :: 0 <= i < |draws| ==> InUnitInterval(draws[i].rx) && InUnitInterval(draws[i].ry)
    modifies c
    ensures |peak| == c.particleCount && peak == c.templates
    ensures c.Valid() && !c.hovered && c.Idle() && c.listening
    ensures c.leaving == old(c.leaving) + peak
  {
    HoverUntilAllFired(c, width, height, draws);
    peak := c.live;
    c.MouseLeave();
  }

  /** Re-entering before the exit animations of the previous hover have
      completed: `particlesRef` never exceeds the particle count, yet the
      card holds twice that many particle elements for a moment. */
  method ReenterBeforeExitCompletes(c: ParticleCard, width: real, height: real, draws: seq<Draw>)
      returns (inCard: nat)
    requires c.Valid() && !c.hovered && c.listening && c.leaving == []
    requires width >= 0.0 && height >= 0.0 && |draws| == c.particleCount
    requires forall i :: 0 <= i < |draws| ==> InUnitInterval(draws[i].rx) && InUnitInterval(draws[i].ry)
    modifies c
    ensures |c.live| == c.particleCount
    ensures inCard == |c.live| + |c.leaving| == 2 * c.particleCount
  {
    var peak := HoverThenLeave(c, width, height, draws);
    HoverUntilAllFired(c, width, height, draws);
    inCard := |c.live| + |c.leaving|;
  }
}
