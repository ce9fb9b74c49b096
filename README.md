# Migration map: data preparation and view state

A Dafny model of the logic inside the `Map` component of the migration map
(`src/Map.jsx`). The component shows arrivals per country as a choropleth
and migration routes as lines. Around the rendering it does five things,
and each one is modelled here:

- **Region codes** (`regions.dfy`, module `Regions`). `getIso2` takes the
  first truthy value among six candidate property keys. The load step then
  stamps an `ISO2` property onto every polygon feature. If the feature has
  no code it uses the feature's `id`, and if that is missing too, `null`.
- **Arrival summaries** (`statistics.dfy`, module `Statistics`). `top10` is a
  stable descending sort of the country totals, cut to ten entries.
  `arrivalsMinMax` gives the min/mid/max breakpoints of the colour ramp.
- **Route features** (`routes.dfy`, module `Routes`). Every raw route becomes
  a line feature whose `id` is its index. Only features with at least two
  positions are kept.
- **Feature state** (`map_view.dfy`, `MapView.AssignedStates` and
  `MapView.MapSink.AssignArrivals`). Every country feature with a code gets
  the `arrivals` state `totals[code]`, or 0 when the code has no total.
- **View mode** (`map_view.dfy`). The `arrivals`/`routes` toggle is modelled
  with two classes. `MapSink` is the part of the map that the component
  changes: which layers exist, their visibility, the fill opacity, the
  feature state and the data of the two sources. `MapComponent` holds the
  mode, the two popup slots and the map reference, which may be null.

`js_value.dfy` (module `JsValue`) holds the JavaScript semantics these parts
share:
- JSON scalars, where `undefined` and `null` are both `Null`;
- truthiness and `||`;
- `Number(x || 0)` on a JSON number or null;
- the string a scalar becomes when it is used as an object key.

A totals object (`totalsByCountry`) is the sequence of its members in the
order `Object.entries` lists them. A lookup uses the first member with the
key; the keys of a JSON object are distinct, so that is the only one.
Statistic values and route counts are integers. The two opacities are the
named real constants 0.15 and 0.75; nothing computes with them.

The pure parts are functions, with lemmas that characterise them. The parts
the component does by mutation are methods of the two classes. Their
`ensures` tie the new state to the specification functions
(`ApplyViewTo`, `WithLayers`, `LoadedTable`, `AssignedStates`), and the
lemmas prove the properties of those functions.

Three behaviours of the code are worth stating up front:
- The colour-scale breakpoints are not repaired to be strictly increasing
  (`Statistics.ArrivalsMinMaxTies` shows where they tie).
- Routes are kept or dropped by the length of their coordinate array.
- Handler registration does not prevent duplicate handlers (see
  "Left out").

## Model

| member | source | states |
|---|---|---|
| `Regions.FirstTruthy` | src/Map.jsx:16-17 | The result is the value of the first key whose value is truthy. It is null exactly when no key's value is truthy. |
| `Regions.GetIso2AsWritten` | src/Map.jsx:16-17 | `getIso2` as written throws exactly when the properties value is JSON null. Otherwise it returns the first truthy of ISO2, CNTR_ID, ISO_A2, iso2, cntr_id, iso_a2, with absent properties read as `{}`. |
| `Regions.Iso2Of` | src/Map.jsx:16-17 | The code is null or truthy. It is null exactly when none of the six keys is truthy. It agrees with `getIso2` whenever `getIso2` does not throw. |
| `Regions.StampedIso2` | src/Map.jsx:55 | The stamped code is `getIso2(props)` when that is truthy, else `f.id` when that is truthy, else null. |
| `Regions.PatchFeaturesSpec` | src/Map.jsx:52-61 | Patching keeps the feature count and order, each feature's id and geometry, and every property other than ISO2. It adds ISO2 with the stamped code. Missing features read as an empty list. |
| `Regions.PatchFeaturesAsWritten` | src/Map.jsx:52-61 | The load step as written fails exactly when some feature has null properties. Otherwise it gives the patched features. |
| `Regions.NullPropertiesAbortLoad` | src/Map.jsx:54-58 | A feature with `"properties": null` makes the load step as written fail. The corrected step stamps that feature's id. |
| `Regions.Iso2OfPatched` | src/Map.jsx:289 | Reading `getIso2` back from a patched feature gives exactly the code the load step stamped. |
| `Regions.PatchFeatureIdempotent` | src/Map.jsx:52-61 | Patching a patched feature changes nothing. |
| `Statistics.ArrivalsFor` | src/Map.jsx:293 | `Number(totals[key] ?? 0)` is 0 when no member has the key. Otherwise it is the first such member's value, with null read as 0. |
| `Statistics.ArrivalsForMember` | src/Map.jsx:293 | When the totals' keys are distinct, as in a JSON object (`DistinctKeys`), looking up a member's key gives that member's value, with null read as 0. |
| `Statistics.Ranking` | src/Map.jsx:76-77 | Each entry becomes its code with its value, null coerced to 0, and the order is kept. |
| `Statistics.SortDescendingSpec` | src/Map.jsx:78 | The sort is a permutation and non-increasing. It is stable: for every value, the entries with that value keep their input order. |
| `Statistics.Top10Spec` | src/Map.jsx:74-80 | `top10` has min(10, n) entries and is non-increasing. Together with the dropped entries it is exactly the ranking, and no dropped entry exceeds a kept one. Equal values keep their order. |
| `Statistics.MinOf` | src/Map.jsx:87 | `Math.min` returns a member of the list that is no larger than any member. |
| `Statistics.MaxOf` | src/Map.jsx:88 | `Math.max` returns a member of the list that is no smaller than any member. |
| `Statistics.Values` | src/Map.jsx:85 | `Object.values(m).map(x => Number(x \|\| 0))` keeps the order and coerces null to 0. |
| `Statistics.HalfRounded` | src/Map.jsx:89 | `Math.round(x / 2)` is the integer nearest to x/2, with halves rounded up. |
| `Statistics.ArrivalsMinMaxSpec` | src/Map.jsx:83-91 | Empty totals give 0/1/1. Otherwise min and max are values of the totals that bound every value, min <= mid <= max, and mid is their midpoint rounded half up. |
| `Statistics.ArrivalsMinMaxTies` | src/Map.jsx:86-89 | The breakpoints can tie. The empty default and totals 4, 5 both give mid = max, and a single total gives min = mid = max. |
| `Routes.LineCoordinates` | src/Map.jsx:148 | The positions are `coordinates` when truthy, else `coords` when truthy, else an empty array. |
| `Routes.RouteFeatures` | src/Map.jsx:137-150 | There is one feature per raw route, in order. Feature i has id i, the route's `from` and `to`, its count with null read as 0, its path or "" when the path is falsy, and the positions `LineCoordinates` picks. Missing routes read as an empty list. |
| `Routes.KeepDrawableMembers` | src/Map.jsx:156-158 | A feature is in the filtered output exactly when it is in the input and its coordinates are an array of length >= 2. |
| `Routes.KeepDrawableOrdered` | src/Map.jsx:156-158 | The filter keeps the input's relative order. |
| `Routes.RouteLinesSpec` | src/Map.jsx:137-158 | The output is exactly the drawable mapped routes, in input order. Each kept feature has its input index as id, `from`/`to` copied, count defaulting to 0, path defaulting to "", and at least two positions. Every drawable input index appears. |
| `Routes.EmptyCoordinatesHideCoords` | src/Map.jsx:148-157 | A present but empty `coordinates` array hides `coords`, so the route is dropped. With `coordinates` absent, the same route is kept. |
| `MapView.InitialMode` | src/Map.jsx:24-27 | The initial view is routes exactly when the `v` parameter equals "routes", and arrivals otherwise. |
| `MapView.ApplyViewTo` | src/Map.jsx:271-282 | On existing layers, routes-line and routes-arrows are visible iff the mode is routes, and countries-fill opacity is 0.15 in routes and 0.75 in arrivals. Missing layers and all other properties are untouched. Well-formedness is preserved. |
| `MapView.ApplyViewIdempotent` | src/Map.jsx:271-282 | Applying a view twice equals applying it once. |
| `MapView.ApplyViewLastWins` | src/Map.jsx:368-371 | Applying one view and then another equals applying only the second. |
| `MapView.WithLayers` | src/Map.jsx:175-268 | The four layers exist afterwards and existing layers are unchanged. Each new layer is visible, and a new countries-fill starts with the opacity of the current view. No other layer's visibility changes, and no fill opacity changes except that of a newly added countries-fill. |
| `MapView.LoadedTableSpec` | src/Map.jsx:175-284 | After the load handler, all four layers exist. Both route layers are visible iff the view is routes, and the fill opacity is that of the view. |
| `MapView.LoadedTableRerun` | src/Map.jsx:124-284 | Running the load handler on its own result changes no layer. |
| `MapView.SwitchAgreesWithReload` | src/Map.jsx:355-372 | The immediate layer update of `switchView` gives the same layers as the load handler run for the new view. Re-running that handler changes nothing further. |
| `MapView.AssignedStatesSpec` | src/Map.jsx:287-295 | Every feature with a code gets `totals[code]`, or 0 when absent. Every new state belongs to some feature's code. A feature without a code touches nothing, and other states keep their value. |
| `MapView.PatchedArrivals` | src/Map.jsx:55-295 | Every loaded country whose stamped code (its own code, or else its id) is non-null gets the total for that code. |
| `MapView.CountryPopupFor` | src/Map.jsx:298-314 | The bubble's value is `totals[iso2] ?? 0` and its code is the code, or "??" when there is none. Its name is the first truthy of NAME_EN, name, NAME, CNTR_NAME, or "Ismeretlen" when none is truthy. |
| `MapView.MapSink.ApplyView` | src/Map.jsx:271-282 | The layer table becomes `ApplyViewTo` of the old one. Feature state and source data are unchanged. |
| `MapView.MapSink.AddLayerIfMissing` | src/Map.jsx:175-268 | The table becomes `AddLayer(old, id, m)`. An absent layer is added as visible, and a new countries-fill gets the view's opacity. An existing layer is untouched. Feature state and sources are unchanged. |
| `MapView.MapSink.AssignArrivals` | src/Map.jsx:287-295 | The loop leaves the feature state equal to `AssignedStates` of the old state, and the layers and sources unchanged. |
| `MapView.MapSink.OnLoad` | src/Map.jsx:124-295 | Given the raw features, the countries source gets `PatchFeatures` of them and the routes source the drawable route lines. The layers become `LoadedTable` of the old ones, and the feature state becomes `AssignedStates` over the patched features. Every raw feature whose stamped code is non-null has state `totals[code]`, or 0. |
| `MapView.MapComponent.constructor` | src/Map.jsx:24-36 | The view starts as `InitialMode(v)` and both popups start empty. |
| `MapView.MapComponent.SwitchView` | src/Map.jsx:355-372 | The view becomes v. Routes clears the country popup and arrivals clears the route popup; the other popup is unchanged. If the map exists, its layers become `ApplyViewTo(old, v)`. |
| `MapView.MapComponent.OnCountryClick` | src/Map.jsx:298-316 | A click on a feature sets the country bubble and clears the route tooltip. A click on no feature changes nothing. |
| `MapView.MapComponent.OnRouteMove` | src/Map.jsx:319-329 | Hovering a feature sets the route tooltip and leaves the country bubble as it was. |
| `MapView.MapComponent.OnRouteLeave` | src/Map.jsx:330 | Leaving a route clears the route tooltip. |

## Left out

- Loading the three files with `fetch`/`Promise.all`, and the `alive` cancellation flag (src/Map.jsx:39-71), are asynchronous I/O. The model takes the parsed data as parameters.
- Map construction, the style URL, the navigation control and teardown (src/Map.jsx:94-116) belong to the rendering library.
- Paint and layout expressions are evaluated by the rendering library (src/Map.jsx:182-192, 210-265). This includes the `interpolate` colour and line-width ramps. Only the countries-fill opacity `case` is modelled, as the initial opacity of the view.
- Only the data of the two sources is modelled, not the source objects or `promoteId` (src/Map.jsx:126-172).
- Event-handler registration with `map.off`/`map.on` is left out (src/Map.jsx:333-346). Whether `off` removes a listener depends on closure identity. The handlers are new closures on every effect run, and the `() => {}` given to `off` never matches. So the code does not prevent duplicate listeners, and there is nothing sound to prove. The handler bodies (how they set the popups) are modelled.
- Cursor styling, number formatting with `toLocaleString("hu-HU")` (src/Map.jsx:10-13), and all JSX panels, legends and popup layout (src/Map.jsx:374-584) are presentation. This includes the rule that shows the route tooltip only in the routes view.
- `SwitchView` does not model the URL and history update (src/Map.jsx:357-359). It is browser I/O.
- React's deferred state updates and effect scheduling are not modelled. This includes `map.once("load")` versus `isStyleLoaded()`. The effect that runs again after a view change is covered by the lemma `SwitchAgreesWithReload`, not by a scheduler.
- Only the `arrivals` entry of a feature state is modelled. The merge of other state entries is not.
- Values are JSON scalars with integer numbers. Property values that are objects or arrays are not modelled. Neither are fractional numbers or NaN, nor totals or counts given as strings. The opacities are exact real constants, not floating point.
- `KeyString` writes every integer in plain decimal. JavaScript prints numbers of magnitude 1e21 or more in exponent form.
- A `totals[iso2]` lookup that hits an inherited property of `Object.prototype` (a code such as "constructor") is not modelled.
- A `Math.min(...vals)` spread over so many values that it overflows the call stack is not modelled.
- `Object.entries` lists integer-like keys first, in ascending order. The model takes the totals already in enumeration order.
- `MapView.WithLayers`: takes every `addLayer` as succeeding. The countries-fill colour ramp is an `interpolate` expression with stops min, mid, max (src/Map.jsx:182-191), and the rendering library expects the stops strictly ascending. They are not when mid = max or min = mid: the empty default 0/1/1, a largest total one above the smallest, or all totals equal (`Statistics.ArrivalsMinMaxTies`). The library may then refuse that layer, and the `getLayer("countries-fill")` guards at src/Map.jsx:279, 333 and 371 skip it. The model does not capture that refusal.
- `MapView.LoadedTableSpec`: states that countries-fill exists after the load handler, on the same assumption that `addLayer` succeeds.

## Findings

| source | as written | input that shows it | evidently intended | confidence | as-written member | corrected member |
|---|---|---|---|---|---|---|
| src/Map.jsx:16-17, 55-58 | `getIso2(f.properties)` runs before the `f.properties \|\| {}` guard. The default parameter `{}` applies only to `undefined`, so JSON `null` properties throw a TypeError, and the whole load is abandoned. | A polygon feature with `"properties": null`, which section 3.2 of RFC 7946 allows, e.g. `{"id": "HU", "properties": null}`. | Treat null properties like absent ones, as line 58 does for the copied properties, and stamp the feature's id. | not executed; high | `Regions.PatchFeaturesAsWritten` (counterexample `Regions.NullPropertiesAbortLoad`) | `Regions.PatchFeatures` (proved by `Regions.PatchFeaturesSpec`, used by `MapView.PatchedArrivals`) |
