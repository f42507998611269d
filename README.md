# Portfolio site interaction logic, modelled in Dafny

This project models the interactive logic of a personal portfolio site's
decorative components and proves properties about that model.

- **Magic bento grid** (`MagicBento.tsx`):
  - A global spotlight follows the pointer over a section of cards. It lights each card by a distance falloff (`calculateSpotlightValues`, the per-card intensity, the glow coordinates of `updateCardGlowProperties`). It fades a glow element to 0.8 times the brightest card.
  - Each `ParticleCard` fills itself, while hovered, with a bounded set of particle clones. The clones are scheduled on staggered timeouts and cleared on leave.
  - Cards tilt and follow the pointer magnetically, spawn a ripple on click, and are switched off on viewports at most 768 px wide: the grid passes `disableAnimations || isMobile` to the spotlight and to every card.
- **Picture carousel** (`picture-carousel.tsx`):
  - Covers modular next/previous, the wrapped image lookup, and the dot setter.
  - An auto-advance interval runs only while the pointer is away.
- **Hexed globe** (`HexedGlobe.tsx`):
  - Covers the country name → code map and the code → coordinates table.
  - Covers the guards that decide when the camera turns to a country, the camera lock applied when the globe is ready, and the loading guards around the country data.
- **Floating stars** (`floating-stars.tsx`): thirty stars whose fields are affine images of random draws, generated once, after mount.

Each file is one module:

| file | module | models |
|---|---|---|
| `wrappers.dfy` | `Wrappers` | `Option`, standing for JavaScript's `undefined`/`null`/`NaN`/`Infinity` where the source relies on them |
| `randomness.dfy` | `Randomness` | `Math.random()` as a parameter in [0, 1) |
| `real_math.dfy` | `RealMath` | `Math.hypot` as a property, `Math.max`/`min`/`abs`, and sign, ratio and square facts shared by the spotlight and the card effects |
| `spotlight.dfy` | `Spotlight` | the falloff maths and the `GlobalSpotlight` class |
| `card_effects.dfy` | `CardEffects` | tilt, magnetism, ripple and the mobile test |
| `particle_card.dfy` | `ParticleCards` | the `ParticleCard` class and hover scenarios |
| `magic_bento.dfy` | `Bento` | how the grid switches the spotlight and the cards off on narrow viewports |
| `carousel.dfy` | `Carousel` | JavaScript remainder, the index arithmetic and the `PictureCarousel` class |
| `hexed_globe.dfy` | `Globe` | the tables, click and focus logic, and the `GlobeInstance` and `HexedGlobe` classes |
| `floating_stars.dfy` | `FloatingStars` | star generation and the mount guard |

## How the model represents things

- **Arithmetic** is over `real`.
- **`Math.hypot`** has no closed form in Dafny. The caller supplies each distance `h` together with `IsHypot(h, dx, dy)`, that is, `h >= 0` and `h * h == dx * dx + dy * dy`.
- **Timers** are abstract:
  - A `ParticleCard` keeps the list of timeouts it scheduled plus the set `pending` of those that have neither fired nor been cancelled.
  - The scheduler fires one with `FireTimeout`.
  - The carousel's intervals are the set `active`.
- **gsap tweens** are recorded only as the target values they animate to.
- **DOM nodes** are replaced by the lists that hold them: `particlesRef` as `live`, particles in their exit animation as `leaving`, and ripples as `ripples`.
- **The globe library** is a `GlobeInstance` that records each `pointOfView` call and holds the orbit-control fields the component writes.
- **JavaScript's `%`** truncates toward zero and yields NaN for a zero divisor. `Carousel.JsRemainder` models it for an integral dividend and a divisor that is a length, hence a `nat`. A zero remainder of a negative dividend is JavaScript's `-0`, which the model writes as 0. `images[-0]` is `images[0]`, so `Carousel.ImageAt` reads the same image either way.
- **The carousel index** is an `Option<int>`: `None` is the NaN that an empty image list produces.

## Model

| member | source | states |
|---|---|---|
| Spotlight.SpotlightValues | src/components/MagicBento.tsx:319-322 | proximity is radius/2, and fade distance lies radius/4 beyond proximity, so 0 < proximity < fadeDistance for every positive radius |
| Spotlight.EffectiveDistance | src/components/MagicBento.tsx:680-686 | never negative; subtracting half the larger side gives the smaller of the two clamped differences |
| Spotlight.EffectiveDistanceZeroIff | src/components/MagicBento.tsx:680-686 | effective distance is 0 exactly when the pointer lies inside the circle of diameter max(width, height) around the card's centre |
| Spotlight.Intensity | src/components/MagicBento.tsx:690-696 | intensity lies in [0,1]; it is 1 up to the proximity breakpoint (inclusive) and 0 beyond the fade breakpoint |
| Spotlight.IntensityIsLinearRamp | src/components/MagicBento.tsx:693-696 | between the breakpoints intensity times (fade − proximity) equals fade − d, and it reaches 0 exactly at fadeDistance |
| Spotlight.ScaledIntensity | src/components/MagicBento.tsx:690-696 | scaled by the ramp width, intensity is the clamp of fade − d to [0, fade − proximity] |
| Spotlight.IntensityNonIncreasing | src/components/MagicBento.tsx:690-696 | moving farther from a card never raises its intensity |
| Spotlight.IntensityContinuous | src/components/MagicBento.tsx:690-696 | intensity is Lipschitz with constant 1/(fade − proximity), so there is no jump at either breakpoint |
| Spotlight.TargetOpacity | src/components/MagicBento.tsx:714-719 | the nested conditional yields 0.8 times the intensity at the minimum distance; it lies in [0, 0.8] and is 0 when there are no cards (Infinity) |
| Spotlight.MinDistance | src/components/MagicBento.tsx:676-688 | the running minimum is Infinity exactly when there are no cards |
| Spotlight.MinDistanceIsMinimum | src/components/MagicBento.tsx:676-688 | for a non-empty list the running minimum is below every effective distance and equal to one of them |
| Spotlight.OpacityTracksBrightestCard | src/components/MagicBento.tsx:676-719 | no card's intensity times 0.8 exceeds the glow's target opacity, and some card reaches it |
| Spotlight.GlowPercent | src/components/MagicBento.tsx:331-333 | the relative coordinate is 0 at the card's near edge and 100 at its far edge, lies in [0,100] inside the card, and is linear in the pointer |
| Spotlight.CardGlow | src/components/MagicBento.tsx:324-339 | inside the card both glow coordinates lie in [0,100]; intensity and radius are written as given |
| Spotlight.EffectiveDistances | src/components/MagicBento.tsx:677-686 | one non-negative effective distance per card |
| Spotlight.Glows | src/components/MagicBento.tsx:677-705 | one style per card, each with intensity in [0,1] and the spotlight radius |
| Spotlight.Darkened | src/components/MagicBento.tsx:668-670 | every card's intensity becomes 0 and nothing else on the card changes |
| Spotlight.CloseCardLightsSpotlight | src/components/MagicBento.tsx:690-719 | a card within the proximity breakpoint glows at 1 and drives the glow to its full 0.8 |
| Spotlight.GlobalSpotlight.constructor | src/components/MagicBento.tsx:620-621 | the listeners are attached only when enabled and animations are on; cards start from `InitialCardStyle`, the card style defaults of lines 806-809 (glow at 50%/50%, intensity 0, radius 200) |
| Spotlight.GlobalSpotlight.DarkenCards | src/components/MagicBento.tsx:668-670 | the loop leaves exactly `Darkened` of the old styles and nothing else changed |
| Spotlight.GlobalSpotlight.MouseMove | src/components/MagicBento.tsx:647-726 | without listeners nothing changes. Outside the section (`PointerInside`: the section exists and contains the pointer, bounds inclusive, lines 652-657) cards are darkened and the glow fades to 0 with its position kept. Inside, cards get `Glows`, and the glow moves to the pointer with `TargetOpacity` of the minimum distance |
| Spotlight.GlobalSpotlight.LightCards | src/components/MagicBento.tsx:676-706 | the per-card loop writes exactly `Glows` and returns `MinDistance` of the effective distances |
| Spotlight.GlobalSpotlight.RerunEffect | src/components/MagicBento.tsx:620-750 | a change of `disableAnimations` removes the listeners and the glow element; they come back, the glow at opacity 0, exactly when enabled and animations are now on |
| Spotlight.GlobalSpotlight.MouseLeave | src/components/MagicBento.tsx:728-740 | every card is darkened, the section flag cleared and the glow faded to 0 |
| CardEffects.RotateX | src/components/MagicBento.tsx:497-500 | 0 at the centre, within ±10° inside the card, positive exactly when the pointer is above the centre |
| CardEffects.RotateY | src/components/MagicBento.tsx:496-501 | 0 at the centre, within ±10° inside the card, positive exactly when the pointer is right of the centre |
| CardEffects.TiltIsOdd | src/components/MagicBento.tsx:500-501 | mirroring the pointer through the centre negates both angles |
| CardEffects.MagnetOffset | src/components/MagicBento.tsx:513-514 | the offset is 1/20 of the pointer's offset from the centre, so inside the card it is at most 1/20 of the half side |
| CardEffects.MagnetIsOdd | src/components/MagicBento.tsx:513-514 | mirroring the pointer negates the offset |
| CardEffects.MaxDistance | src/components/MagicBento.tsx:532-537 | at least each corner distance and equal to one of them |
| CardEffects.RippleAt | src/components/MagicBento.tsx:542-547 | a square of side 2·maxDistance centred on the click |
| CardEffects.RippleCircleCoversCard | src/components/MagicBento.tsx:532-547 | every point of the card lies within maxDistance of the click |
| CardEffects.RippleSquareCoversCard | src/components/MagicBento.tsx:532-547 | the ripple square contains the whole card |
| CardEffects.MobileThreshold | src/components/MagicBento.tsx:772-773 | the mobile test `IsMobile` is inclusive at 768 px and holds for every narrower viewport |
| Bento.ShouldDisableAnimations | src/components/MagicBento.tsx:768-799 | animations are off when the prop disables them or the measured viewport is mobile, and on when neither holds, including the first render, before any measurement |
| Bento.MountAndMeasure | src/components/MagicBento.tsx:768-1011 | the first render attaches the spotlight and the card as the prop alone decides; after measurement both follow `ShouldDisableAnimations`, so on a viewport of at most 768 px neither the spotlight nor the card listens |
| ParticleCards.Templates | src/components/MagicBento.tsx:374-380 | one template per draw, each inside the card's width and height |
| ParticleCards.PlacedParticle | src/components/MagicBento.tsx:375-379 | a template placed by two draws in [0,1) lies inside the card |
| ParticleCards.Schedule | src/components/MagicBento.tsx:410-443 | one timeout per template, the k-th cloning template k, the first one due at once |
| ParticleCards.ScheduleStaggered | src/components/MagicBento.tsx:410-443 | the first timeout has delay 0 and each later one comes at least 100 ms after any earlier one |
| ParticleCards.ParticleCard.constructor | src/components/MagicBento.tsx:352-368 | an omitted particle count becomes 12; nothing scheduled, alive or initialized; listening exactly when animations are on |
| ParticleCards.ParticleCard.InitializeParticles | src/components/MagicBento.tsx:370-382 | templates are created once, inside the card; a second call changes nothing |
| ParticleCards.ParticleCard.AnimateParticles | src/components/MagicBento.tsx:403-445 | when hovered, templates exist and one timeout per template is scheduled with delay index·100; otherwise nothing changes |
| ParticleCards.ParticleCard.ScheduleTimeouts | src/components/MagicBento.tsx:410-444 | the loop schedules exactly `Schedule(particleCount)` and makes all of them pending |
| ParticleCards.ParticleCard.FireTimeout | src/components/MagicBento.tsx:411-416 | a fired timeout stops being pending and, only while hovered, adds one clone of its template; the live count stays within the particle count |
| ParticleCards.ParticleCard.ClearAllParticles | src/components/MagicBento.tsx:384-401 | every timeout is cancelled, the magnetism tween killed, and every live particle handed to its exit animation |
| ParticleCards.ParticleCard.CancelTimeouts | src/components/MagicBento.tsx:385 | every listed timeout leaves the pending set |
| ParticleCards.ParticleCard.ExitAnimationDone | src/components/MagicBento.tsx:395-397 | the finished particle, and only it, leaves the card |
| ParticleCards.ParticleCard.MouseEnter | src/components/MagicBento.tsx:452-465 | the card becomes hovered, templates exist, all timeouts are pending, and tilt aims at 5°/5° when enabled; without listeners nothing changes |
| ParticleCards.ParticleCard.MouseLeave | src/components/MagicBento.tsx:467-488 | nothing stays scheduled or alive, and tilt and magnetism aim back at 0 when enabled |
| ParticleCards.ParticleCard.MouseMove | src/components/MagicBento.tsx:490-523 | with tilt on, the angles are `RotateX`/`RotateY` about the card's centre; with magnetism on, the offsets are `MagnetOffset` and a tween is held; with both off, nothing changes |
| ParticleCards.ParticleCard.Click | src/components/MagicBento.tsx:525-552 | with the click effect on, one ripple of radius maxDistance centred on the click is added |
| ParticleCards.ParticleCard.RippleFinished | src/components/MagicBento.tsx:565 | the finished ripple, and only it, is removed |
| ParticleCards.ParticleCard.Teardown | src/components/MagicBento.tsx:575-582 | listeners go, hover ends, nothing stays scheduled or alive |
| ParticleCards.ParticleCard.RerunEffect | src/components/MagicBento.tsx:447-594 | a change of `disableAnimations` tears the card down; it listens again exactly when animations are now on |
| ParticleCards.LiveParticlesBounded | src/components/MagicBento.tsx:403-445 | in every reachable state at most particleCount particles are alive, and none while not hovered |
| ParticleCards.HoverUntilAllFired | src/components/MagicBento.tsx:403-445 | after every staggered timeout fires during a hover, exactly particleCount particles are alive, one clone of each template |
| ParticleCards.FireInScheduleOrder | src/components/MagicBento.tsx:410-443 | firing the timeouts in delay order empties the pending set and makes the live list equal to the templates |
| ParticleCards.HoverThenLeave | src/components/MagicBento.tsx:384-488 | a full hover followed by leave hands exactly particleCount particles to their exit animation and leaves nothing scheduled |
| ParticleCards.ReenterBeforeExitCompletes | src/components/MagicBento.tsx:384-445 | re-entering before the exit animations end keeps `particlesRef` at particleCount while the card can hold twice that many particles, when every new timeout fires before the exit animations end |
| Carousel.JsRemainder | src/components/picture-carousel.tsx:25 | NaN exactly for a zero divisor; otherwise the remainder is below the divisor in magnitude, takes the dividend's sign, and completes the truncated division |
| Carousel.JsRemainderOfNatural | src/components/picture-carousel.tsx:25 | on a non-negative dividend the JavaScript remainder is the mathematical one |
| Carousel.NextIndex | src/components/picture-carousel.tsx:25 | the index is NaN exactly when it already was or there are no images; from any index of at least −1 it lands in [0, n) |
| Carousel.PrevIndex | src/components/picture-carousel.tsx:29 | the index is NaN exactly when it already was or there are no images; from any index of at least 1 − n it lands in [0, n) |
| Carousel.NextWraps | src/components/picture-carousel.tsx:25 | next stays in range, advances by one and wraps the last image to the first |
| Carousel.PrevWraps | src/components/picture-carousel.tsx:29 | previous stays in range, steps back by one and wraps the first image to the last |
| Carousel.PrevNextInverse | src/components/picture-carousel.tsx:24-30 | previous undoes next and next undoes previous |
| Carousel.AdvanceWithinRing | src/components/picture-carousel.tsx:24-26 | k advances that do not pass the last image add k to the index |
| Carousel.AdvanceFullCircle | src/components/picture-carousel.tsx:24-26 | n advances over n images return to the starting image |
| Carousel.ImageAt | src/components/picture-carousel.tsx:49-51 | for an index ≥ −n the lookup is `images[(index + n) mod n]`, for an index in [0,n) it is `images[index]`, and with no images it is undefined |
| Carousel.ImageAtBelowRange | src/components/picture-carousel.tsx:49-51 | below −n, at an index that is not a multiple of n, the lookup is undefined |
| Carousel.PictureCarousel.constructor | src/components/picture-carousel.tsx:20-34 | index 0, not hovered, and one auto-advance interval running and held in the ref |
| Carousel.PictureCarousel.Tick | src/components/picture-carousel.tsx:34 | a running interval advances the index as `nextSlide` does, keeping it in range |
| Carousel.PictureCarousel.NextSlide | src/components/picture-carousel.tsx:24-26 | the index becomes `NextIndex` of the old one and stays in range |
| Carousel.PictureCarousel.PrevSlide | src/components/picture-carousel.tsx:28-30 | the index becomes `PrevIndex` of the old one and stays in range |
| Carousel.PictureCarousel.DotClick | src/components/picture-carousel.tsx:147 | clicking dot k makes k the current index |
| Carousel.PictureCarousel.RunEffect | src/components/picture-carousel.tsx:33-40 | not hovered: a fresh interval starts and is stored. Hovered: any stored interval is cleared and the ref nulled |
| Carousel.PictureCarousel.RunCleanup | src/components/picture-carousel.tsx:42-46 | the stored interval, if any, is cleared; the ref is left as it is |
| Carousel.PictureCarousel.SetHovered | src/components/picture-carousel.tsx:32-47 | a change of hover runs cleanup and effect, leaving an interval exactly when not hovered; the same value changes nothing |
| Carousel.PictureCarousel.MouseEnter | src/components/picture-carousel.tsx:59 | hovering stops every interval and nulls the ref |
| Carousel.PictureCarousel.MouseLeave | src/components/picture-carousel.tsx:60 | leaving starts exactly one interval, the one in the ref |
| Carousel.PictureCarousel.Unmount | src/components/picture-carousel.tsx:42-46 | after unmount no interval runs |
| Carousel.IntervalIffNotHovered | src/components/picture-carousel.tsx:32-47 | while mounted, an interval runs exactly when not hovered, and it is the one in the ref |
| Globe.CountryCoordinates | src/components/HexedGlobe.tsx:23-27 | the table has exactly the codes Finland, Sweden and UK, each at a latitude between 50 and 70 and a longitude between −10 and 30 |
| Globe.CountryMap | src/components/HexedGlobe.tsx:150-154 | the map has exactly the names United Kingdom, Finland and Sweden; it is one-to-one and every code is non-empty and has coordinates |
| Globe.ClickMapIsClosed | src/components/HexedGlobe.tsx:150-154 | the map sends United Kingdom to UK, Finland to Finland and Sweden to Sweden, and every value has coordinates |
| Globe.ClickSelection | src/components/HexedGlobe.tsx:146-160 | with `AdminName` the optional chain `polygon.properties?.ADMIN` of line 147, a code is reported exactly when there is a callback and a non-empty mapped name; it is the mapped code and has coordinates |
| Globe.FocusView | src/components/HexedGlobe.tsx:59-72 | a view exists exactly for a code in the table: the table's lat/lng, altitude 2.0, 1000 ms |
| Globe.ShouldFocus | src/components/HexedGlobe.tsx:77 | the guard passes only for a selection whose code has a view, never for a missing or empty one |
| Globe.SelectionFocusesKnownCountry | src/components/HexedGlobe.tsx:76-80 | the effect focuses exactly on a non-empty known code, whose lookup then succeeds |
| Globe.ClickThenFocus | src/components/HexedGlobe.tsx:146-160 | a reported click, fed back as the selection, always passes the selection guard |
| Globe.GlobeInstance.PointOfView | src/components/HexedGlobe.tsx:64-71 | the call is recorded after all earlier ones |
| Globe.HexedGlobe.constructor | src/components/HexedGlobe.tsx:35-39 | loading, no countries, no globe instance, no root |
| Globe.HexedGlobe.FetchSettled | src/components/HexedGlobe.tsx:42-56 | loading ends either way; success keeps `features` or an empty list; failure leaves the list empty |
| Globe.HexedGlobe.LoadGlobe | src/components/HexedGlobe.tsx:85-167 | nothing happens with no countries or while loading, or when the container is missing or the effect was cleaned up during the globe import; otherwise a root exists, and the globe is rendered exactly when it already was or the effect was still mounted after the React imports |
| Globe.HexedGlobe.UnmountRoot | src/components/HexedGlobe.tsx:174-185 | the root is unmounted and released |
| Globe.HexedGlobe.SetInstance | src/components/HexedGlobe.tsx:99-101 | the ref holds what the library passed |
| Globe.HexedGlobe.FocusOnCountry | src/components/HexedGlobe.tsx:59-73 | with an instance, exactly one `FocusView` call is recorded for a known code and none otherwise; the camera lock (zoom, pan, min and max distance) is left unchanged |
| Globe.HexedGlobe.SelectionChanged | src/components/HexedGlobe.tsx:76-80 | with an instance, a focus call is recorded exactly when the selection passes the guard; the camera lock is left unchanged |
| Globe.HexedGlobe.OnGlobeReady | src/components/HexedGlobe.tsx:126-143 | with an instance, the camera goes to lat 60, lng 15, altitude 2. With controls, zoom and pan are off and min = max distance = 2 × radius; without controls they are untouched |
| Globe.HexedGlobe.PolygonClicked | src/components/HexedGlobe.tsx:146-161 | `onCountrySelect` is called once with `ClickSelection`'s code when there is one, otherwise not at all |
| Globe.CleanupBetweenImports | src/components/HexedGlobe.tsx:85-167 | a cleanup between the globe import and the React imports leaves a root with nothing rendered into it |
| Globe.FailedFetchNeverRenders | src/components/HexedGlobe.tsx:44-86 | after a failed fetch the globe has no countries, is no longer loading and is never rendered |
| FloatingStars.MakeStar | src/components/floating-stars.tsx:18-27 | star i has id i; x, y in [0,100), size in [0.3,1.1), brightness in [0.3,1.0), flicker in [3,7), glow in [1,3), duration in [60,100) |
| FloatingStars.GenerateStars | src/components/floating-stars.tsx:17-28 | exactly `count` stars, star i with id i and every field in its range |
| FloatingStars.StarIdsDistinct | src/components/floating-stars.tsx:19 | ids are pairwise distinct |
| FloatingStars.FadeInStaggered | src/components/floating-stars.tsx:58 | the fade-in delay `FadeInDelay`, `id * 0.2` s, is 0 for the first star and grows by at least 0.2 s per later id |
| FloatingStars.StarField.constructor | src/components/floating-stars.tsx:31-32 | not mounted, no stars |
| FloatingStars.StarField.Rendered | src/components/floating-stars.tsx:39 | nothing is rendered before mount, and 30 stars after |
| FloatingStars.StarField.MountEffect | src/components/floating-stars.tsx:34-37 | the component becomes mounted with `generateStars()`'s 30 stars, generated exactly once |

## The particle bound, as the code keeps it

The particle cards are designed so that a card never has more than
`particleCount` particles alive at once. The code keeps that bound only for
`particlesRef`:

- `clearAllParticles` empties `particlesRef` at once.
- It leaves each cleared element in the card until its 0.3 s exit animation completes.
- A card re-entered within that time receives new clones while the old ones are still present.

The model follows the code. `LiveParticlesBounded` proves the bound on
`particlesRef`. `ReenterBeforeExitCompletes` shows the card then holding
twice `particleCount` particle elements.

That scenario relies on the model's untimed scheduler, which may fire
every new timeout before any exit animation ends. With real timing the
timeouts are 100 ms apart and an exit lasts 0.3 s. Only the clones due
within those 0.3 s overlap the old ones: for one leave followed by one
re-enter, at most the three due at 0, 100 and 200 ms, out of the default
12. The full 2 × `particleCount` overlap
needs the exit animations to lag behind the timeouts, as when animation
frames are held back; a normal leave and re-enter does not produce it.

## Left out

- gsap tweens: eases, durations, yoyo/repeat and perspective are animation-engine behaviour. Each tween is kept only as the value it aims at.
- The random drift and pulse tweens of each particle clone and of each star are animation parameters that nothing reads back. The carousel's framer-motion variants are left out for the same reason.
- The non-stars card fallback in MagicBento.tsx (lines 1042-1154) repeats the tilt, magnetism and ripple maths the model already covers.
- These modules are not part of this model:
  - markup, styling and card text;
  - navbar.tsx;
  - SimpleGlobe.tsx, hero.tsx, profile-card.tsx, social-links.tsx and the other presentation components;
  - clipboard writes and toasts.
- The geojson `fetch`, the dynamic imports, `createRoot` and the globe's rendering are network I/O and a foreign library. The fetch appears only as its outcome (`FetchOutcome`). The rendering appears only as the `rendered`/`hasRoot` flags.
- Real time is not modelled: timers are only pending, fired or cancelled, and the scheduler decides which fires next.
- Effects re-running on prop changes other than `disableAnimations` (`autoScrollDelay`, `onCountrySelect`, `enableTilt` and the like) are left out: those props are constants of each object.
- Bento.MountAndMeasure: one card stands for every card of the grid, all of which receive the same flag. The resize listener appears only as the latest width the hook read.
- Spotlight.CardGlow: zero-width or zero-height rectangles are excluded by the `Proper()` precondition. There JavaScript divides by zero and writes `NaN`/`Infinity` percentages.
- CardEffects.RotateX: a zero-sized card is excluded by the precondition. JavaScript would produce `NaN`.
- CardEffects.RotateY: a zero-sized card is excluded by the precondition. JavaScript would produce `NaN`.
- Globe.ClickSelection: names are looked up as own keys. JavaScript lookups of inherited keys such as `constructor` are not modelled, since the data set's country names never match them.
- ParticleCards.ParticleCard.MouseEnter: requires the card not to be hovered already. The DOM alternates `mouseenter` and `mouseleave` on an element, and the live-particle bound relies on that alternation.
- ParticleCards.ParticleCard.FireTimeout: the card element is assumed present. The source's `!cardRef.current` guard only matters after the card has been removed, when the listeners are gone too.
- Globe.HexedGlobe.LoadGlobe: the container's presence and the two readings of `isMounted` (lines 90 and 164) are parameters rather than outcomes of real asynchronous imports. The `typeof window` test is folded into the container parameter.
- Globe.HexedGlobe.UnmountRoot: the `setTimeout(…, 0)` deferral and the swallowed unmount errors are not modelled. The unmount is an event the caller triggers.
- Spotlight.GlobalSpotlight.MouseMove: the glow element's creation, removal and tween timings are not modelled. `attached` stands for the effect's guard.
