/** `PictureCarousel` (picture-carousel.tsx): a ring of images with a
    current index that the previous/next buttons and the dots change, and
    an auto-advance interval that runs only while the pointer is away. */
module Carousel {
  import opened Wrappers

  /** JavaScript's `a % n` on integral numbers, for a divisor that is a
      length: the remainder of the division truncated toward zero, so it
      takes the sign of `a`; `None` is the NaN that a zero divisor gives. */
  function JsRemainder(a: int, n: nat): (r: Option<int>)
    ensures r.None? <==> n == 0
    ensures r.Some? ==> -(n as int) < r.value < n
    ensures r.Some? ==> (a >= 0 ==> r.value >= 0) && (a <= 0 ==> r.value <= 0)
    ensures r.Some? ==> a == TruncatedQuotient(a, n) * n + r.value
  {
    if n == 0 then None
    else if a >= 0 then Some(a % n)
    else Some(-((-a) % n))
  }

  /** The quotient rounded toward zero. */
  function TruncatedQuotient(a: int, n: nat): int
    requires n > 0
  {
    if a >= 0 then a / n else -((-a) / n)
  }

  /** On a non-negative dividend and a positive divisor the JavaScript
      remainder is the mathematical one. */
  lemma JsRemainderOfNatural(a: int, n: nat)
    requires a >= 0 && n > 0
    ensures JsRemainder(a, n) == Some(a % n)
  {
  }

  /** `nextSlide`'s update of the index for `n` images; a NaN index stays NaN. */
  function NextIndex(index: Option<int>, n: nat): (r: Option<int>)
    ensures r.None? <==> index.None? || n == 0
    ensures r.Some? && index.value >= -1 ==> 0 <= r.value < n
  {
    if index.None? then None else JsRemainder(index.value + 1, n)
  }

  /** `prevSlide`'s update of the index for `n` images. */
  function PrevIndex(index: Option<int>, n: nat): (r: Option<int>)
    ensures r.None? <==> index.None? || n == 0
    ensures r.Some? && index.value + n >= 1 ==> 0 <= r.value < n
  {
    if index.None? then None else JsRemainder(index.value - 1 + n, n)
  }

  /** The index the carousel may hold: one of the images, or anything at
      all when there are none. */
  predicate InRange(index: Option<int>, n: nat) {
    n > 0 ==> index.Some? && 0 <= index.value < n
  }

  /** Next moves to the following image and wraps the last one to the first. */
  lemma NextWraps(i: int, n: nat)
    requires 0 <= i < n
    ensures InRange(NextIndex(Some(i), n), n)
    ensures i < n - 1 ==> NextIndex(Some(i), n) == Some(i + 1)
    ensures i == n - 1 ==> NextIndex(Some(i), n) == Some(0)
  {
    if i < n - 1 { ModUnique(i + 1, n, 0, i + 1); } else { ModUnique(n, n, 1, 0); }
  }

  /** Previous moves to the preceding image and wraps the first to the last. */
  lemma PrevWraps(i: int, n: nat)
    requires 0 <= i < n
    ensures InRange(PrevIndex(Some(i), n), n)
    ensures i > 0 ==> PrevIndex(Some(i), n) == Some(i - 1)
    ensures i == 0 ==> PrevIndex(Some(i), n) == Some(n - 1)
  {
    if i > 0 { ModUnique(i - 1 + n, n, 1, i - 1); } else { ModUnique(n - 1, n, 0, n - 1); }
  }

  /** Previous undoes next and next undoes previous. */
  lemma PrevNextInverse(i: int, n: nat)
    requires 0 <= i < n
    ensures PrevIndex(NextIndex(Some(i), n), n) == Some(i)
    ensures NextIndex(PrevIndex(Some(i), n), n) == Some(i)
  {
    NextWraps(i, n);
    PrevWraps(i, n);
    if i < n - 1 { PrevWraps(i + 1, n); } else { PrevWraps(0, n); }
    if i > 0 { NextWraps(i - 1, n); } else { NextWraps(n - 1, n); }
  }

  /** The index after `k` auto-advances. */
  function Advance(index: Option<int>, n: nat, k: nat): Option<int> {
    if k == 0 then index else NextIndex(Advance(index, n, k - 1), n)
  }

  lemma {:induction false} AdvanceSplit(index: Option<int>, n: nat, a: nat, b: nat)
    ensures Advance(index, n, a + b) == Advance(Advance(index, n, a), n, b)
  {
    if b > 0 {
      AdvanceSplit(index, n, a, b - 1);
    }
  }

  /** Without reaching the last image, k advances add k to the index. */
  lemma {:induction false} AdvanceWithinRing(i: int, n: nat, k: nat)
    requires 0 <= i && i + k < n
    ensures Advance(Some(i), n, k) == Some(i + k)
  {
    if k > 0 {
      AdvanceWithinRing(i, n, k - 1);
      NextWraps(i + k - 1, n);
    }
  }

  /** Advancing once per image comes back to the starting image. */
  lemma AdvanceFullCircle(i: int, n: nat)
    requires 0 <= i < n
    ensures Advance(Some(i), n, n) == Some(i)
  {
    var toLast := n - 1 - i;
    AdvanceSplit(Some(i), n, toLast, 1 + i);
    AdvanceWithinRing(i, n, toLast);
    AdvanceSplit(Some(n - 1), n, 1, i);
    NextWraps(n - 1, n);
    assert Advance(Some(n - 1), n, 1) == Some(0);
    AdvanceWithinRing(0, n, i);
  }

  /** `getImageAtIndex`: `images[(index + n) % n]`; `None` is `undefined`,
      which a NaN or a negative subscript yields. */
  function ImageAt<T>(images: seq<T>, index: int): (r: Option<T>)
    ensures index >= -|images| && |images| > 0 ==>
              r == Some(images[(index + |images|) % |images|])
    ensures 0 <= index < |images| ==> r == Some(images[index])
    ensures |images| == 0 ==> r.None?
  {
    var k := JsRemainder(index + |images|, |images|);
    if k.None? || k.value < 0 then None else Some(images[k.value])
  }

  /** Far below `-n` the wrap no longer reaches a valid subscript. */
  lemma ImageAtBelowRange<T>(images: seq<T>, index: int)
    requires |images| > 0 && index < -|images| && (-index) % |images| != 0
    ensures ImageAt(images, index).None?
  {
    var n := |images|;
    var m := -(index + n);
    ModUnique(m + n, n, m / n + 1, m % n);
  }

  /** Euclidean division has a single quotient and remainder. */
  lemma ModUnique(x: int, n: int, q: int, r: int)
    requires n > 0 && x == q * n + r && 0 <= r < n
    ensures x % n == r
  {
    var d := q - x / n;
    assert d * n == x % n - r;
  }

  class PictureCarousel {
    /** `images.length`. */
    const imageCount: nat
    /** `autoScrollDelay`, in milliseconds. */
    const autoScrollDelay: int
    /** `currentIndex`; `None` is NaN. */
    var currentIndex: Option<int>
    /** `isHovered`. */
    var hovered: bool
    /** `intervalRef.current`: a handle, or null. */
    var interval: Option<nat>
    /** The intervals the scheduler is running. */
    var active: set<nat>
    /** The handle the next `setInterval` returns (handles are positive). */
    var nextHandle: nat
    /** Between the first render and the unmount. */
    var mounted: bool

    ghost predicate Valid()
      reads this
    {
      && InRange(currentIndex, imageCount)
      && nextHandle > 0
      && (forall h :: h in active ==> 0 < h < nextHandle)
      && (interval.Some? ==> 0 < interval.value < nextHandle)
      && (mounted ==> (interval.Some? <==> !hovered))
      && active == (if mounted && !hovered then {interval.value} else {})
    }

    /** The first render (index 0, not hovered) and the first run of the
        hover effect, which starts the auto-advance interval. */
    constructor (imageCount: nat, autoScrollDelay: int)
      ensures Valid() && mounted
      ensures this.imageCount == imageCount && this.autoScrollDelay == autoScrollDelay
      ensures currentIndex == Some(0) && !hovered
      ensures interval.Some? && active == {interval.value}
    {
      this.imageCount := imageCount;
      this.autoScrollDelay := autoScrollDelay;
      currentIndex := Some(0);
      hovered := false;
      interval := Some(1);
      active := {1};
      nextHandle := 2;
      mounted := true;
    }

    /** The auto-advance interval `h` runs `nextSlide`. */
    method Tick(h: nat)
      requires Valid() && h in active
      modifies this`currentIndex
      ensures Valid()
      ensures currentIndex == NextIndex(old(currentIndex), imageCount)
    {
      NextSlide();
    }

    /** The next button. */
    method NextSlide()
      requires Valid()
      modifies this`currentIndex
      ensures Valid()
      ensures currentIndex == NextIndex(old(currentIndex), imageCount)
    {
      if imageCount > 0 {
        NextWraps(currentIndex.value, imageCount);
      }
      currentIndex := NextIndex(currentIndex, imageCount);
    }

    /** The previous button. */
    method PrevSlide()
      requires Valid()
      modifies this`currentIndex
      ensures Valid()
      ensures currentIndex == PrevIndex(old(currentIndex), imageCount)
    {
      if imageCount > 0 {
        PrevWraps(currentIndex.value, imageCount);
      }
      currentIndex := PrevIndex(currentIndex, imageCount);
    }

    /** Dot `k` of the indicator, one per image. */
    method DotClick(k: nat)
      requires Valid() && k < imageCount
      modifies this`currentIndex
      ensures Valid() && currentIndex == Some(k)
    {
      currentIndex := Some(k);
    }

    /** The hover effect's body. */
    method RunEffect()
      requires nextHandle > 0
      modifies this`interval, this`active, this`nextHandle
      ensures !hovered ==> interval == Some(old(nextHandle)) && active == old(active) + {old(nextHandle)}
                           && nextHandle == old(nextHandle) + 1
      ensures hovered ==> interval == None && nextHandle == old(nextHandle)
                          && active == if old(interval).Some? then old(active) - {old(interval).value} else old(active)
    {
      if !hovered {
        interval := Some(nextHandle);
        active := active + {nextHandle};
        nextHandle := nextHandle + 1;
      } else {
        if interval.Some? {
          active := active - {interval.value};
          interval := None;
        }
      }
    }

    /** The hover effect's cleanup: clears the interval, keeps the ref. */
    method RunCleanup()
      modifies this`active
      ensures active == if interval.Some? then old(active) - {interval.value} else old(active)
    {
      if interval.Some? {
        active := active - {interval.value};
      }
    }

    /** `setIsHovered(h)`: a change of state re-renders, so the previous
        effect's cleanup and then the effect run again; setting the same
        state changes nothing. */
    method SetHovered(h: bool)
      requires Valid() && mounted
      modifies this`hovered, this`interval, this`active, this`nextHandle
      ensures Valid() && hovered == h
      ensures h ==> interval == None && active == {}
      ensures !h ==> interval.Some? && active == {interval.value}
      ensures h != old(hovered) && !h ==> interval == Some(old(nextHandle))
      ensures h == old(hovered) ==> unchanged(this)
    {
      if h == hovered {
        return;
      }
      hovered := h;
      RunCleanup();
      RunEffect();
    }

    /** The carousel's `mouseenter` handler. */
    method MouseEnter()
      requires Valid() && mounted
      modifies this`hovered, this`interval, this`active, this`nextHandle
      ensures Valid() && hovered && interval == None && active == {}
    {
      SetHovered(true);
    }

    /** The carousel's `mouseleave` handler. */
    method MouseLeave()
      requires Valid() && mounted
      modifies this`hovered, this`interval, this`active, this`nextHandle
      ensures Valid() && !hovered && interval.Some? && active == {interval.value}
    {
      SetHovered(false);
    }

    /** Unmounting runs the cleanup: no interval keeps running. */
    method Unmount()
      requires Valid() && mounted
      modifies this`active, this`mounted
      ensures Valid() && !mounted && active == {}
    {
      RunCleanup();
      mounted := false;
    }
  }

  /** While mounted, an auto-advance interval runs exactly when the
      pointer is away from the carousel, and it is the one in the ref. */
  lemma IntervalIffNotHovered(c: PictureCarousel)
    requires c.Valid() && c.mounted
    ensures c.active != {} <==> !c.hovered
    ensures !c.hovered ==> c.active == {c.interval.value}
  {
  }
}
