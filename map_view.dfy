/** The view-mode state of the map component and the part of the map (the
    rendering sink) that the component changes: which layers exist, their
    visibility and fill opacity, the per-feature `arrivals` state, and the
    data of the two sources. */
module MapView {
  import opened JsValue
  import opened Regions
  import opened Statistics
  import opened Routes

  /** The two views, written "arrivals" and "routes" in the query string. */
  datatype Mode = ArrivalsView | RoutesView

  /** The view the component starts in, from the `v` query parameter
      (`null` when the parameter is absent). */
  function InitialMode(v: Option<string>): (m: Mode)
    ensures m == RoutesView <==> v == Some("routes")
    ensures m == ArrivalsView <==> v != Some("routes")
  {
    if v == Some("routes") then RoutesView else ArrivalsView
  }

  /** The layout property "visibility": "visible" or "none". */
  datatype Visibility = Visible | Hidden

  const CountriesFill := "countries-fill"
  const CountriesOutline := "countries-outline"
  const RoutesLine := "routes-line"
  const RoutesArrows := "routes-arrows"

  /** Fill opacity of the country layer while the routes are shown, and
      while the arrivals are shown. */
  const DimOpacity: real := 0.15
  const FullOpacity: real := 0.75

  function RouteVisibility(m: Mode): Visibility {
    if m == RoutesView then Visible else Hidden
  }

  function FillOpacityFor(m: Mode): real {
    if m == RoutesView then DimOpacity else FullOpacity
  }

  function Lookup<K, V>(m: map<K, V>, k: K): Option<V> {
    if k in m then Some(m[k]) else None
  }

  /** The layers of the map and the two properties the component sets on
      them. */
  datatype LayerTable = LayerTable(existing: set<string>, visibility: map<string, Visibility>, fillOpacity: map<string, real>)

  /** Properties are recorded only for layers that exist. */
  predicate WellFormed(t: LayerTable) {
    t.visibility.Keys <= t.existing && t.fillOpacity.Keys <= t.existing
  }

  /** `if (map.getLayer(id)) map.setLayoutProperty(id, "visibility", v)`. */
  function SetVisibility(t: LayerTable, id: string, v: Visibility): LayerTable {
    if id in t.existing then t.(visibility := t.visibility[id := v]) else t
  }

  /** `if (map.getLayer(id)) map.setPaintProperty(id, "fill-opacity", o)`. */
  function SetFillOpacity(t: LayerTable, id: string, o: real): LayerTable {
    if id in t.existing then t.(fillOpacity := t.fillOpacity[id := o]) else t
  }

  /** `applyView(v)`, and the same three guarded updates in `switchView`:
      the two route layers become visible exactly in the routes view, the
      country fill is dimmed in the routes view and full in the arrivals
      view, and nothing else changes; a layer that does not exist is not
      touched. */
  function ApplyViewTo(t: LayerTable, m: Mode): (r: LayerTable)
    ensures r.existing == t.existing
    ensures WellFormed(t) ==> WellFormed(r)
    ensures RoutesLine in t.existing ==>
              RoutesLine in r.visibility && (r.visibility[RoutesLine] == Visible <==> m == RoutesView)
    ensures RoutesArrows in t.existing ==>
              RoutesArrows in r.visibility && (r.visibility[RoutesArrows] == Visible <==> m == RoutesView)
    ensures CountriesFill in t.existing ==>
              CountriesFill in r.fillOpacity
              && r.fillOpacity[CountriesFill] == (if m == RoutesView then DimOpacity else FullOpacity)
    ensures forall id | id !in t.existing ::
              Lookup(r.visibility, id) == Lookup(t.visibility, id) && Lookup(r.fillOpacity, id) == Lookup(t.fillOpacity, id)
    ensures forall id | id != RoutesLine && id != RoutesArrows :: Lookup(r.visibility, id) == Lookup(t.visibility, id)
    ensures forall id | id != CountriesFill :: Lookup(r.fillOpacity, id) == Lookup(t.fillOpacity, id)
  {
    var vis := RouteVisibility(m);
    SetFillOpacity(SetVisibility(SetVisibility(t, RoutesLine, vis), RoutesArrows, vis), CountriesFill, FillOpacityFor(m))
  }

  /** Applying a view twice is applying it once. */
  lemma ApplyViewIdempotent(t: LayerTable, m: Mode)
    ensures ApplyViewTo(ApplyViewTo(t, m), m) == ApplyViewTo(t, m)
  {
    var r := ApplyViewTo(t, m);
    var rr := ApplyViewTo(r, m);
    assert rr.visibility == r.visibility;
    assert rr.fillOpacity == r.fillOpacity;
  }

  /** Only the last view applied matters: switching away and back leaves the
      layers as a single switch does. */
  lemma ApplyViewLastWins(t: LayerTable, m1: Mode, m2: Mode)
    ensures ApplyViewTo(ApplyViewTo(t, m1), m2) == ApplyViewTo(t, m2)
  {
    var r := ApplyViewTo(ApplyViewTo(t, m1), m2);
    var s := ApplyViewTo(t, m2);
    assert r.visibility == s.visibility;
    assert r.fillOpacity == s.fillOpacity;
  }

  /** `if (!map.getLayer(id)) map.addLayer(...)`: a new layer is visible
      (the layout default) and the country fill starts with the opacity of
      the current view (its `case` expression on `view`). */
  function AddLayer(t: LayerTable, id: string, m: Mode): LayerTable {
    if id in t.existing then t
    else LayerTable(
      t.existing + {id},
      t.visibility[id := Visible],
      if id == CountriesFill then t.fillOpacity[id := FillOpacityFor(m)] else t.fillOpacity)
  }

  const AllLayers: set<string> := {CountriesFill, CountriesOutline, RoutesLine, RoutesArrows}

  /** The four guarded `addLayer` calls of the load handler, in order. */
  function WithLayers(t: LayerTable, m: Mode): (r: LayerTable)
    ensures r.existing == t.existing + AllLayers
    ensures WellFormed(t) ==> WellFormed(r)
    ensures forall id | id in t.existing ::
              Lookup(r.visibility, id) == Lookup(t.visibility, id) && Lookup(r.fillOpacity, id) == Lookup(t.fillOpacity, id)
    ensures forall id | id in AllLayers && id !in t.existing :: Lookup(r.visibility, id) == Some(Visible)
    ensures CountriesFill !in t.existing ==> Lookup(r.fillOpacity, CountriesFill) == Some(FillOpacityFor(m))
    ensures forall id | id != CountriesFill || CountriesFill in t.existing ::
              Lookup(r.fillOpacity, id) == Lookup(t.fillOpacity, id)
    ensures forall id | id !in AllLayers :: Lookup(r.visibility, id) == Lookup(t.visibility, id)
  {
    AddLayer(AddLayer(AddLayer(AddLayer(t, CountriesFill, m), CountriesOutline, m), RoutesLine, m), RoutesArrows, m)
  }

  /** The layer part of the load handler: the missing layers are added and
      the view is applied. */
  function LoadedTable(t: LayerTable, m: Mode): LayerTable {
    ApplyViewTo(WithLayers(t, m), m)
  }

  /** After the load handler all four layers exist, the route layers are
      visible exactly in the routes view and the fill opacity is that of
      the view. */
  lemma LoadedTableSpec(t: LayerTable, m: Mode)
    ensures var r := LoadedTable(t, m);
      && r.existing == t.existing + AllLayers
      && (Lookup(r.visibility, RoutesLine) == Some(Visible) <==> m == RoutesView)
      && (Lookup(r.visibility, RoutesArrows) == Some(Visible) <==> m == RoutesView)
      && Lookup(r.visibility, RoutesLine) == Lookup(r.visibility, RoutesArrows)
      && Lookup(r.fillOpacity, CountriesFill) == Some(FillOpacityFor(m))
  {
    var w := WithLayers(t, m);
    assert RoutesLine in w.existing && RoutesArrows in w.existing && CountriesFill in w.existing;
  }

  /** Running the load handler again changes no layer. */
  lemma LoadedTableRerun(t: LayerTable, m: Mode)
    ensures LoadedTable(LoadedTable(t, m), m) == LoadedTable(t, m)
  {
    var r := LoadedTable(t, m);
    assert WithLayers(r, m) == r;
    ApplyViewIdempotent(WithLayers(t, m), m);
  }

  /** Two tables that differ at most in the opacity of the country fill. */
  ghost predicate SameButFill(a: LayerTable, b: LayerTable) {
    && a.existing == b.existing
    && a.visibility == b.visibility
    && a.fillOpacity.Keys == b.fillOpacity.Keys
    && forall id | id in a.fillOpacity && id != CountriesFill :: a.fillOpacity[id] == b.fillOpacity[id]
  }

  lemma AddLayerSameButFill(a: LayerTable, b: LayerTable, id: string, m: Mode, m': Mode)
    requires SameButFill(a, b)
    ensures SameButFill(AddLayer(a, id, m), AddLayer(b, id, m'))
  {
  }

  lemma WithLayersSameButFill(t: LayerTable, m: Mode, m': Mode)
    ensures SameButFill(WithLayers(t, m), WithLayers(t, m'))
  {
    var a1, b1 := AddLayer(t, CountriesFill, m), AddLayer(t, CountriesFill, m');
    AddLayerSameButFill(t, t, CountriesFill, m, m');
    var a2, b2 := AddLayer(a1, CountriesOutline, m), AddLayer(b1, CountriesOutline, m');
    AddLayerSameButFill(a1, b1, CountriesOutline, m, m');
    var a3, b3 := AddLayer(a2, RoutesLine, m), AddLayer(b2, RoutesLine, m');
    AddLayerSameButFill(a2, b2, RoutesLine, m, m');
    AddLayerSameButFill(a3, b3, RoutesArrows, m, m');
  }

  lemma ApplyViewSameButFill(a: LayerTable, b: LayerTable, m: Mode)
    requires SameButFill(a, b) && CountriesFill in a.existing
    ensures ApplyViewTo(a, m) == ApplyViewTo(b, m)
  {
    var ra, rb := ApplyViewTo(a, m), ApplyViewTo(b, m);
    assert ra.visibility == rb.visibility;
    assert ra.fillOpacity == rb.fillOpacity;
  }

  /** The immediate update of `switchView` leaves the layers as the load
      handler run for the new view leaves them, so the handler that runs
      again after the view changes does not change them further. */
  lemma SwitchAgreesWithReload(t: LayerTable, m: Mode, m': Mode)
    ensures ApplyViewTo(LoadedTable(t, m), m') == LoadedTable(t, m')
    ensures LoadedTable(ApplyViewTo(LoadedTable(t, m), m'), m') == ApplyViewTo(LoadedTable(t, m), m')
  {
    var w, w' := WithLayers(t, m), WithLayers(t, m');
    ApplyViewLastWins(w, m, m');
    WithLayersSameButFill(t, m, m');
    ApplyViewSameButFill(w, w', m');
    LoadedTableRerun(t, m');
  }

  // ----- per-feature statistic assignment -----

  /** The condition `if (!iso2) return;` lets through. */
  predicate HasCode(f: Feature) {
    Truthy(Iso2Of(f.properties))
  }

  /** The id a coded feature's state is stored under. */
  function CodeKey(f: Feature): string {
    KeyString(Iso2Of(f.properties))
  }

  /** The feature state after `setFeatureState({ id: iso2 }, { arrivals })`
      for each feature in turn; a feature whose code is falsy is skipped.
      States are keyed by the id as a string. */
  function AssignedStates(st: map<string, int>, fs: seq<Feature>, totals: seq<Entry>): map<string, int>
    decreases |fs|
  {
    if fs == [] then st
    else
      var prev := AssignedStates(st, fs[..|fs| - 1], totals);
      var f := fs[|fs| - 1];
      if !HasCode(f) then prev
      else prev[CodeKey(f) := ArrivalsFor(totals, CodeKey(f))]
  }

  lemma {:induction false} AssignedStatesSet(st: map<string, int>, fs: seq<Feature>, totals: seq<Entry>)
    ensures var r := AssignedStates(st, fs, totals);
      forall i | 0 <= i < |fs| && HasCode(fs[i]) ::
        CodeKey(fs[i]) in r && r[CodeKey(fs[i])] == ArrivalsFor(totals, CodeKey(fs[i]))
    decreases |fs|
  {
    if fs != [] {
      var init := fs[..|fs| - 1];
      AssignedStatesSet(st, init, totals);
      assert forall i | 0 <= i < |init| :: init[i] == fs[i];
    }
  }

  lemma {:induction false} AssignedStatesKeys(st: map<string, int>, fs: seq<Feature>, totals: seq<Entry>)
    ensures var r := AssignedStates(st, fs, totals);
      forall k | k in r && k !in st :: exists i | 0 <= i < |fs| :: HasCode(fs[i]) && CodeKey(fs[i]) == k
    decreases |fs|
  {
    if fs != [] {
      var init := fs[..|fs| - 1];
      AssignedStatesKeys(st, init, totals);
      assert forall i | 0 <= i < |init| :: init[i] == fs[i];
    }
  }

  lemma {:induction false} AssignedStatesUntouched(st: map<string, int>, fs: seq<Feature>, totals: seq<Entry>)
    ensures var r := AssignedStates(st, fs, totals);
      forall k | k in st && (forall i | 0 <= i < |fs| :: !HasCode(fs[i]) || CodeKey(fs[i]) != k) ::
        k in r && r[k] == st[k]
    decreases |fs|
  {
    if fs != [] {
      var init := fs[..|fs| - 1];
      AssignedStatesUntouched(st, init, totals);
      assert forall i | 0 <= i < |init| :: init[i] == fs[i];
    }
  }

  /** Each feature with a code gets the total recorded for that code (0
      when there is none); every state that appears belongs to some
      feature's code; a feature without a code touches nothing, and a state
      no feature's code names keeps its value. */
  lemma AssignedStatesSpec(st: map<string, int>, fs: seq<Feature>, totals: seq<Entry>)
    ensures var r := AssignedStates(st, fs, totals);
      && (forall i | 0 <= i < |fs| && HasCode(fs[i]) ::
            CodeKey(fs[i]) in r && r[CodeKey(fs[i])] == ArrivalsFor(totals, CodeKey(fs[i])))
      && (forall k | k in r && k !in st :: exists i | 0 <= i < |fs| :: HasCode(fs[i]) && CodeKey(fs[i]) == k)
      && (forall k | k in st && (forall i | 0 <= i < |fs| :: !HasCode(fs[i]) || CodeKey(fs[i]) != k) ::
            k in r && r[k] == st[k])
  {
    AssignedStatesSet(st, fs, totals);
    AssignedStatesKeys(st, fs, totals);
    AssignedStatesUntouched(st, fs, totals);
  }

  /** Composed with the load step: every country feature whose stamped code
      is non-null (its own code, or else its id) gets the total for that
      code. */
  lemma PatchedArrivals(st: map<string, int>, features: Option<seq<Feature>>, totals: seq<Entry>)
    ensures var fs, r := features.GetOr([]), AssignedStates(st, PatchFeatures(features), totals);
      forall i | 0 <= i < |fs| && StampedIso2(fs[i]) != Null ::
        KeyString(StampedIso2(fs[i])) in r
        && r[KeyString(StampedIso2(fs[i]))] == ArrivalsFor(totals, KeyString(StampedIso2(fs[i])))
  {
    var fs, ps := features.GetOr([]), PatchFeatures(features);
    AssignedStatesSet(st, ps, totals);
    forall i | 0 <= i < |fs| ensures Iso2Of(ps[i].properties) == StampedIso2(fs[i]) {
      Iso2OfPatched(fs[i]);
    }
  }

  // ----- popups -----

  /** The country bubble: name, code and value. */
  datatype CountryPopup = CountryPopup(name: Value, iso2: Value, value: int)

  /** The route tooltip. */
  datatype RoutePopup = RoutePopup(from: Value, to: Value, count: int, path: Value)

  const NameKeys: seq<string> := ["NAME_EN", "name", "NAME", "CNTR_NAME"]

  /** The bubble `onCountryClick` opens for a clicked country feature. */
  function CountryPopupFor(f: Feature, totals: seq<Entry>): (p: CountryPopup)
    ensures var code := Iso2Of(f.properties);
      && p.value == ArrivalsFor(totals, KeyString(code))
      && (Truthy(code) ==> p.iso2 == code)
      && (!Truthy(code) ==> p.iso2 == Str("??"))
      && Truthy(p.name)
      && var n := FirstTruthy(BagOf(f.properties), NameKeys);
         (n != Null ==> p.name == n) && (n == Null ==> p.name == Str("Ismeretlen"))
  {
    var code := Iso2Of(f.properties);
    CountryPopup(
      Or(FirstTruthy(BagOf(f.properties), NameKeys), Str("Ismeretlen")),
      Or(code, Str("??")),
      ArrivalsFor(totals, KeyString(code)))
  }

  /** The tooltip `onRouteMove` shows for a hovered route feature. */
  function RoutePopupFor(f: RouteFeature): RoutePopup {
    RoutePopup(Or(f.from, Str("")), Or(f.to, Str("")), f.count, Or(f.path, Str("")))
  }

  // ----- the rendering sink -----

  class MapSink {
    var layers: set<string>
    var visibility: map<string, Visibility>
    var fillOpacity: map<string, real>
    /** The `arrivals` feature state of the `countries` source, by id. */
    var featureState: map<string, int>
    /** The data of the `countries` and `routes` sources. */
    var countries: seq<Feature>
    var routeLines: seq<RouteFeature>

    function Table(): LayerTable
      reads this
    {
      LayerTable(layers, visibility, fillOpacity)
    }

    ghost predicate Valid()
      reads this
    {
      WellFormed(Table())
    }

    constructor ()
      ensures Valid()
      ensures Table() == LayerTable({}, map[], map[])
      ensures featureState == map[] && countries == [] && routeLines == []
    {
      layers, visibility, fillOpacity := {}, map[], map[];
      featureState, countries, routeLines := map[], [], [];
    }

    method AddLayerIfMissing(id: string, m: Mode)
      modifies this
      ensures Table() == AddLayer(old(Table()), id, m)
      ensures featureState == old(featureState) && countries == old(countries) && routeLines == old(routeLines)
    {
      if id !in layers {
        layers := layers + {id};
        visibility := visibility[id := Visible];
        if id == CountriesFill {
          fillOpacity := fillOpacity[id := FillOpacityFor(m)];
        }
      }
    }

    /** `applyView(v)`. */
    method ApplyView(m: Mode)
      modifies this
      ensures Table() == ApplyViewTo(old(Table()), m)
      ensures old(Valid()) ==> Valid()
      ensures featureState == old(featureState) && countries == old(countries) && routeLines == old(routeLines)
    {
      var isRoutes := m == RoutesView;
      if RoutesLine in layers {
        visibility := visibility[RoutesLine := if isRoutes then Visible else Hidden];
      }
      if RoutesArrows in layers {
        visibility := visibility[RoutesArrows := if isRoutes then Visible else Hidden];
      }
      if CountriesFill in layers {
        fillOpacity := fillOpacity[CountriesFill := if isRoutes then DimOpacity else FullOpacity];
      }
    }

    /** The `forEach` over the country features that sets their `arrivals`
        state. */
    method AssignArrivals(features: seq<Feature>, totals: seq<Entry>)
      modifies this
      ensures featureState == AssignedStates(old(featureState), features, totals)
      ensures Table() == old(Table()) && countries == old(countries) && routeLines == old(routeLines)
    {
      for i := 0 to |features|
        invariant featureState == AssignedStates(old(featureState), features[..i], totals)
        invariant Table() == old(Table()) && countries == old(countries) && routeLines == old(routeLines)
      {
        assert features[..i + 1][..i] == features[..i];
        var iso2 := Iso2Of(features[i].properties);
        if Truthy(iso2) {
          var key := KeyString(iso2);
          assert key == CodeKey(features[i]);
          featureState := featureState[key := ArrivalsFor(totals, key)];
        }
      }
      assert features[..|features|] == features;
    }

    /** The load handler: the two sources receive the patched countries and
        the drawable route lines, the missing layers are added, the view is
        applied and the arrivals state is set. `features` is the `features`
        member of the loaded GeoJSON, before the load step patches it. */
    method OnLoad(m: Mode, features: Option<seq<Feature>>, totals: seq<Entry>, routes: Option<seq<RawRoute>>)
      modifies this
      ensures countries == PatchFeatures(features) && routeLines == RouteLines(routes)
      ensures Table() == LoadedTable(old(Table()), m)
      ensures old(Valid()) ==> Valid()
      ensures featureState == AssignedStates(old(featureState), PatchFeatures(features), totals)
      ensures var fs := features.GetOr([]);
        forall i | 0 <= i < |fs| && StampedIso2(fs[i]) != Null ::
          KeyString(StampedIso2(fs[i])) in featureState
          && featureState[KeyString(StampedIso2(fs[i]))] == ArrivalsFor(totals, KeyString(StampedIso2(fs[i])))
    {
      var geo := PatchFeatures(features);
      countries := geo;
      routeLines := RouteLines(routes);
      AddLayerIfMissing(CountriesFill, m);
      AddLayerIfMissing(CountriesOutline, m);
      AddLayerIfMissing(RoutesLine, m);
      AddLayerIfMissing(RoutesArrows, m);
      ApplyView(m);
      AssignArrivals(geo, totals);
      PatchedArrivals(old(featureState), features, totals);
    }
  }

  // ----- the component's view state -----

  class MapComponent {
    var view: Mode
    var countryPopup: Option<CountryPopup>
    var routePopup: Option<RoutePopup>
    /** `mapRef.current`: null until the map is created. */
    var sink: MapSink?

    constructor (v: Option<string>, sink: MapSink?)
      ensures view == InitialMode(v)
      ensures countryPopup == None && routePopup == None
      ensures this.sink == sink
    {
      view := InitialMode(v);
      countryPopup, routePopup := None, None;
      this.sink := sink;
    }

    /** `switchView(v)`: sets the view, clears the popup of the other view,
        and, once the map exists, applies the view to its layers at once. */
    method SwitchView(v: Mode)
      modifies this, sink
      ensures view == v && sink == old(sink)
      ensures v == RoutesView ==> countryPopup == None && routePopup == old(routePopup)
      ensures v == ArrivalsView ==> routePopup == None && countryPopup == old(countryPopup)
      ensures sink != null ==> sink.Table() == ApplyViewTo(old(sink.Table()), v)
      ensures sink != null ==> (old(sink.Valid()) ==> sink.Valid())
      ensures sink != null ==>
                sink.featureState == old(sink.featureState)
                && sink.countries == old(sink.countries) && sink.routeLines == old(sink.routeLines)
    {
      view := v;
      if v == RoutesView { countryPopup := None; }
      if v == ArrivalsView { routePopup := None; }
      if sink != null {
        sink.ApplyView(v);
      }
    }

    /** `onCountryClick`: a click on a country opens its bubble and closes
        the route tooltip; a click that hits no feature changes nothing. */
    method OnCountryClick(feat: Option<Feature>, totals: seq<Entry>)
      modifies this
      ensures view == old(view) && sink == old(sink)
      ensures feat.None? ==> countryPopup == old(countryPopup) && routePopup == old(routePopup)
      ensures feat.Some? ==> countryPopup == Some(CountryPopupFor(feat.value, totals)) && routePopup == None
    {
      if feat.Some? {
        countryPopup := Some(CountryPopupFor(feat.value, totals));
        routePopup := None;
      }
    }

    /** `onRouteMove`: hovering a route shows its tooltip. */
    method OnRouteMove(feat: Option<RouteFeature>)
      modifies this
      ensures view == old(view) && sink == old(sink) && countryPopup == old(countryPopup)
      ensures feat.None? ==> routePopup == old(routePopup)
      ensures feat.Some? ==> routePopup == Some(RoutePopupFor(feat.value))
    {
      if feat.Some? {
        routePopup := Some(RoutePopupFor(feat.value));
      }
    }

    /** `onRouteLeave`. */
    method OnRouteLeave()
      modifies this
      ensures routePopup == None
      ensures view == old(view) && sink == old(sink) && countryPopup == old(countryPopup)
    {
      routePopup := None;
    }
  }
}
