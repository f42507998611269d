/** `HexedGlobe` (HexedGlobe.tsx): a globe of hexagon-tiled countries.
    Clicking a country reports one of the three supported country codes
    through `onCountrySelect`; a selected code turns the camera toward
    that country; when the globe is ready the camera is locked to a fixed
    distance. The globe library is reduced to a handle that records the
    camera moves asked of it and holds its orbit controls. */
module Globe {
  import opened Wrappers

  datatype LatLng = LatLng(lat: real, lng: real)

  /** `COUNTRY_COORDINATES`: where the camera looks for each code. */
  function CountryCoordinates(): (m: map<string, LatLng>)
    ensures m.Keys == {"Finland", "Sweden", "UK"}
    ensures forall code :: code in m ==> 50.0 < m[code].lat < 70.0 && -10.0 < m[code].lng < 30.0
  {
    map[
      "Finland" := LatLng(64.9631, 26.2695),
      "Sweden" := LatLng(62.1944, 14.9448),
      "UK" := LatLng(54.7023545, -3.2765753)
    ]
  }

  /** The `countryMap` of the polygon click handler: the data set's
      country name to the code used by the rest of the page. */
  function CountryMap(): (m: map<string, string>)
    ensures m.Keys == {"United Kingdom", "Finland", "Sweden"}
    ensures forall name :: name in m ==> m[name] != "" && m[name] in CountryCoordinates()
    ensures forall a, b :: a in m && b in m && m[a] == m[b] ==> a == b
  {
    map[
      "United Kingdom" := "UK",
      "Finland" := "Finland",
      "Sweden" := "Sweden"
    ]
  }

  /** The click map is closed: every code it produces has coordinates. */
  lemma ClickMapIsClosed()
    ensures CountryMap().Keys == {"United Kingdom", "Finland", "Sweden"}
    ensures CountryMap()["United Kingdom"] == "UK"
    ensures CountryMap()["Finland"] == "Finland" && CountryMap()["Sweden"] == "Sweden"
    ensures forall name :: name in CountryMap() ==> CountryMap()[name] in CountryCoordinates()
  {
  }

  /** `polygon.properties?.ADMIN`: either level may be absent. */
  datatype Properties = Properties(admin: Option<string>)
  datatype Polygon = Polygon(properties: Option<Properties>)

  function AdminName(p: Polygon): Option<string> {
    if p.properties.None? then None else p.properties.value.admin
  }

  /** `onHexPolygonClick`: the code passed to `onCountrySelect`, if any. A
      missing or empty name, an unmapped name or a missing callback
      reports nothing. */
  function ClickSelection(p: Polygon, hasCallback: bool): (r: Option<string>)
    ensures r.Some? <==>
              && hasCallback && AdminName(p).Some? && AdminName(p).value != ""
              && AdminName(p).value in CountryMap()
    ensures r.Some? ==> r.value == CountryMap()[AdminName(p).value]
    ensures r.Some? ==> r.value in CountryCoordinates()
  {
    var name := AdminName(p);
    if name.Some? && name.value != "" && hasCallback then
      if name.value in CountryMap() && CountryMap()[name.value] != "" then
        Some(CountryMap()[name.value])
      else None
    else None
  }

  /** A `pointOfView` call: where to look, from how far, animated over
      `duration` ms (`None` when no duration is passed). */
  datatype View = View(lat: real, lng: real, altitude: real, duration: Option<int>)

  /** The view `focusOnCountry` asks for, when the code has coordinates. */
  function FocusView(code: string): (v: Option<View>)
    ensures v.Some? <==> code in CountryCoordinates()
    ensures v.Some? ==>
              && v.value.lat == CountryCoordinates()[code].lat
              && v.value.lng == CountryCoordinates()[code].lng
              && v.value.altitude == 2.0 && v.value.duration == Some(1000)
  {
    if code in CountryCoordinates() then
      Some(View(CountryCoordinates()[code].lat, CountryCoordinates()[code].lng, 2.0, Some(1000)))
    else None
  }

  /** The view the globe starts from once it is ready. */
  const InitialView := View(60.0, 15.0, 2.0, None)

  /** The selection effect turns toward `selected` only for a non-empty
      known code; the coordinate lookup then always succeeds. */
  function ShouldFocus(selected: Option<string>): (focus: bool)
    ensures focus ==> selected.Some? && FocusView(selected.value).Some?
    ensures selected.None? || selected == Some("") ==> !focus
  {
    selected.Some? && selected.value != "" && selected.value in CountryCoordinates().Keys
  }

  lemma SelectionFocusesKnownCountry(selected: Option<string>)
    ensures ShouldFocus(selected) ==> FocusView(selected.value).Some?
    ensures selected.None? || selected == Some("") ==> !ShouldFocus(selected)
    ensures ShouldFocus(selected) <==> selected.Some? && FocusView(selected.value).Some?
  {
  }

  /** A clicked supported country, fed back as the selected code, turns
      the camera to its coordinates. */
  lemma ClickThenFocus(p: Polygon)
    requires ClickSelection(p, true).Some?
    ensures ShouldFocus(ClickSelection(p, true))
    ensures FocusView(ClickSelection(p, true).value).Some?
  {
  }

  /** The globe instance that `react-globe.gl` hands to the ref. */
  class GlobeInstance {
    /** `getGlobeRadius()`. */
    const globeRadius: real
    /** `controls()` returns an object. */
    const hasControls: bool
    /** Every `pointOfView` call, in order. */
    var views: seq<View>
    var enableZoom: bool
    var enablePan: bool
    var minDistance: real
    var maxDistance: real

    constructor (globeRadius: real, hasControls: bool)
      ensures this.globeRadius == globeRadius && this.hasControls == hasControls
      ensures views == [] && enableZoom && enablePan
    {
      this.globeRadius := globeRadius;
      this.hasControls := hasControls;
      views := [];
      enableZoom, enablePan := true, true;
      minDistance, maxDistance := 0.0, 0.0;
    }

    method PointOfView(v: View)
      modifies this`views
      ensures views == old(views) + [v]
    {
      views := views + [v];
    }
  }

  /** How the geojson request ended: a parsed body with or without a
      `features` array, or a rejected fetch or parse. */
  datatype FetchOutcome = Loaded(features: Option<seq<Polygon>>) | Failed

  class HexedGlobe {
    /** An `onCountrySelect` prop was passed. */
    const hasCallback: bool
    /** `countries`. */
    var countries: seq<Polygon>
    /** `isLoading`. */
    var isLoading: bool
    /** `globeInstanceRef.current`. */
    var instance: Option<GlobeInstance>
    /** `rootRef.current` holds a root. */
    var hasRoot: bool
    /** The globe element has been rendered into the root. */
    var rendered: bool
    /** Every `onCountrySelect` call, in order. */
    var selections: seq<string>

    ghost predicate Valid()
      reads this
    {
      && (isLoading ==> countries == [])
      && (rendered ==> hasRoot && countries != [] && !isLoading)
    }

    ghost function Handles(): set<GlobeInstance>
      reads this
    {
      if instance.Some? then {instance.value} else {}
    }

    /** The first render: loading, no countries, no globe. */
    constructor (hasCallback: bool)
      ensures Valid() && isLoading && countries == [] && instance == None
      ensures !hasRoot && !rendered && selections == [] && this.hasCallback == hasCallback
    {
      this.hasCallback := hasCallback;
      countries := [];
      isLoading := true;
      instance := None;
      hasRoot := false;
      rendered := false;
      selections := [];
    }

    /** `fetchCountryData`, started once on mount, settles: loading ends
        either way; a body gives its `features` or an empty list, and a
        failure leaves the list empty. */
    method FetchSettled(outcome: FetchOutcome)
      requires Valid() && isLoading
      modifies this`countries, this`isLoading
      ensures Valid() && !isLoading
      ensures countries == match outcome
                           case Loaded(features) => features.GetOr([])
                           case Failed => []
    {
      match outcome {
        case Loaded(features) =>
          countries := features.GetOr([]);
        case Failed =>
      }
      isLoading := false;
    }

    /** `loadGlobe`: nothing happens while there are no countries or the
        data is still loading. Otherwise the effect's `isMounted` flag is
        read twice: after the globe library is imported, together with the
        container, and again after React and `createRoot` are imported.
        Passing the first check creates a root if there is none; the globe
        is rendered into it only if the second check passes too. */
    method LoadGlobe(containerPresent: bool, mountedAfterGlobeImport: bool, mountedAfterRootImport: bool)
      requires Valid()
      modifies this`hasRoot, this`rendered
      ensures Valid()
      ensures |countries| == 0 || isLoading || !containerPresent || !mountedAfterGlobeImport ==>
                hasRoot == old(hasRoot) && rendered == old(rendered)
      ensures |countries| > 0 && !isLoading && containerPresent && mountedAfterGlobeImport ==>
                hasRoot && rendered == (old(rendered) || mountedAfterRootImport)
    {
      if |countries| == 0 || isLoading {
        return;
      }
      if containerPresent && mountedAfterGlobeImport {
        if !hasRoot {
          hasRoot := true;
        }
        if mountedAfterRootImport {
          rendered := true;
        }
      }
    }

    /** The deferred `unmount` the effect's cleanup schedules. */
    method UnmountRoot()
      requires Valid()
      modifies this`hasRoot, this`rendered
      ensures Valid() && !hasRoot && !rendered
    {
      if hasRoot {
        hasRoot := false;
        rendered := false;
      }
    }

    /** The `ref` callback of the globe element: the library passes its
        instance when it mounts and null when it unmounts. */
    method SetInstance(g: Option<GlobeInstance>)
      modifies this`instance
      ensures instance == g
    {
      instance := g;
    }

    /** `focusOnCountry`: only with a globe instance and a known code, the
        camera turns to that code's coordinates, at altitude 2, over 1 s;
        the camera lock set by `onGlobeReady` is left alone. */
    method FocusOnCountry(code: string)
      modifies Handles()
      ensures instance.Some? ==>
                instance.value.views ==
                  old(instance.value.views) + (if FocusView(code).Some? then [FocusView(code).value] else [])
      ensures instance.Some? ==>
                unchanged(instance.value`enableZoom, instance.value`enablePan,
                          instance.value`minDistance, instance.value`maxDistance)
    {
      if instance.Some? && code in CountryCoordinates() {
        var coords := CountryCoordinates()[code];
        instance.value.PointOfView(View(coords.lat, coords.lng, 2.0, Some(1000)));
      }
    }

    /** The selection effect, run whenever `selectedCountry` changes. */
    method SelectionChanged(selected: Option<string>)
      modifies Handles()
      ensures instance.Some? ==>
                instance.value.views ==
                  old(instance.value.views) + (if ShouldFocus(selected) then [FocusView(selected.value).value] else [])
      ensures instance.Some? ==>
                unchanged(instance.value`enableZoom, instance.value`enablePan,
                          instance.value`minDistance, instance.value`maxDistance)
    {
      if selected.Some? && selected.value != "" && selected.value in CountryCoordinates().Keys {
        FocusOnCountry(selected.value);
      }
    }

    /** `onGlobeReady`: the camera starts over northern Europe and, when
        the controls exist, zoom and pan are off and the camera distance
        is pinned to twice the globe's radius. */
    method OnGlobeReady()
      modifies Handles()
      ensures instance.Some? ==>
                var g := instance.value;
                && g.views == old(g.views) + [InitialView]
                && (g.hasControls ==>
                      !g.enableZoom && !g.enablePan
                      && g.minDistance == g.maxDistance == 2.0 * g.globeRadius)
                && (!g.hasControls ==>
                      g.enableZoom == old(g.enableZoom) && g.enablePan == old(g.enablePan)
                      && g.minDistance == old(g.minDistance) && g.maxDistance == old(g.maxDistance))
    {
      if instance.Some? {
        var g := instance.value;
        g.PointOfView(InitialView);
        if g.hasControls {
          g.enableZoom := false;
          g.enablePan := false;
          g.maxDistance := 2.0 * g.globeRadius;
          g.minDistance := g.maxDistance;
        }
      }
    }

    /** `onHexPolygonClick`. */
    method PolygonClicked(p: Polygon)
      modifies this`selections
      ensures selections == old(selections) +
                (if ClickSelection(p, hasCallback).Some? then [ClickSelection(p, hasCallback).value] else [])
    {
      var name := AdminName(p);
      if name.Some? && name.value != "" && hasCallback {
        if name.value in CountryMap() && CountryMap()[name.value] != "" {
          selections := selections + [CountryMap()[name.value]];
        }
      }
    }
  }

  /** Loading from the first render: a failed request leaves the globe
      with no countries, and it is then never rendered. */
  method FailedFetchNeverRenders(hasCallback: bool, containerPresent: bool,
                                 mountedAfterGlobeImport: bool, mountedAfterRootImport: bool)
      returns (globe: HexedGlobe)
    ensures globe.countries == [] && !globe.isLoading && !globe.rendered
  {
    globe := new HexedGlobe(hasCallback);
    globe.LoadGlobe(containerPresent, mountedAfterGlobeImport, mountedAfterRootImport);
    globe.FetchSettled(Failed);
    globe.LoadGlobe(containerPresent, mountedAfterGlobeImport, mountedAfterRootImport);
  }

  /** The effect cleaned up while React and `createRoot` were being
      imported: a root exists but the globe was never rendered into it. */
  method CleanupBetweenImports(hasCallback: bool, features: seq<Polygon>)
      returns (globe: HexedGlobe)
    requires features != []
    ensures globe.countries == features && !globe.isLoading
    ensures globe.hasRoot && !globe.rendered
  {
    globe := new HexedGlobe(hasCallback);
    globe.FetchSettled(Loaded(Some(features)));
    globe.LoadGlobe(true, true, false);
  }
}
