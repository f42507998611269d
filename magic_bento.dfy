/** The `MagicBento` component (MagicBento.tsx) as far as it wires its
    parts together: the viewport test of `useMobileDetection` switches off
    the spotlight and the particle cards through `shouldDisableAnimations`. */
module Bento {
  import opened Wrappers
  import opened CardEffects
  import opened Spotlight
  import opened ParticleCards

  /** `shouldDisableAnimations`. `measuredWidth` is the hook's view of the
      window: `None` on the first render, before its effect has run, when
      its state is still `false`, and afterwards the latest
      `window.innerWidth` it read on mount or on resize. */
  function ShouldDisableAnimations(disableAnimations: bool, measuredWidth: Option<int>): (off: bool)
    ensures disableAnimations ==> off
    ensures measuredWidth.Some? && IsMobile(measuredWidth.value) ==> off
    ensures !disableAnimations && (measuredWidth.None? || !IsMobile(measuredWidth.value)) ==> !off
  {
    disableAnimations || (measuredWidth.Some? && IsMobile(measuredWidth.value))
  }

  /** The first render mounts the spotlight and a particle card before the
      viewport is known; the hook's effect then measures `innerWidth`, and
      when that changes `shouldDisableAnimations` the re-render re-runs both
      components' effects with the new value. On a viewport of at most
      768 px nothing listens any more. */
  method MountAndMeasure(disableAnimations: bool, innerWidth: int, enabled: bool, radius: real,
                         cardCount: nat, particleCount: Option<nat>,
                         enableTilt: bool, clickEffect: bool, enableMagnetism: bool)
      returns (spotlight: GlobalSpotlight, card: ParticleCard,
               attachedAtFirstRender: bool, listeningAtFirstRender: bool)
    ensures attachedAtFirstRender == (enabled && !disableAnimations)
    ensures listeningAtFirstRender == !disableAnimations
    ensures spotlight.attached == (enabled && !ShouldDisableAnimations(disableAnimations, Some(innerWidth)))
    ensures card.listening == !ShouldDisableAnimations(disableAnimations, Some(innerWidth))
    ensures IsMobile(innerWidth) ==> !spotlight.attached && !card.listening
    ensures card.Valid() && !card.hovered && card.Idle()
  {
    var first := ShouldDisableAnimations(disableAnimations, None);
    spotlight := new GlobalSpotlight(radius, enabled, first, cardCount);
    card := new ParticleCard(particleCount, first, enableTilt, clickEffect, enableMagnetism);
    attachedAtFirstRender, listeningAtFirstRender := spotlight.attached, card.listening;
    var measured := ShouldDisableAnimations(disableAnimations, Some(innerWidth));
    if measured != first {
      spotlight.RerunEffect(measured);
      card.RerunEffect(measured);
    }
  }
}
