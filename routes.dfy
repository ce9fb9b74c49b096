/** Construction of the route line features: every raw route becomes a
    `LineString` feature, and only those with at least two positions are
    kept. */
module Routes {
  import opened JsValue

  /** A `coordinates` or `coords` member of a raw route: absent or falsy, an
      array of positions (truthy even when empty), or some other truthy
      value. */
  datatype CoordsField = NoCoords | Points(points: seq<Position>) | NotArray

  predicate CoordsTruthy(c: CoordsField) {
    !c.NoCoords?
  }

  /** One record of `routes_2025.json`. */
  datatype RawRoute = RawRoute(
    from: Value, to: Value, count: Option<int>, path: Value,
    coordinates: CoordsField, coords: CoordsField)

  /** A route line feature; `id` is the record's index in the input. */
  datatype RouteFeature = RouteFeature(
    id: nat, from: Value, to: Value, count: int, path: Value, coordinates: CoordsField)

  /** `rt.coordinates || rt.coords || []`. */
  function LineCoordinates(rt: RawRoute): (c: CoordsField)
    ensures CoordsTruthy(rt.coordinates) ==> c == rt.coordinates
    ensures !CoordsTruthy(rt.coordinates) && CoordsTruthy(rt.coords) ==> c == rt.coords
    ensures !CoordsTruthy(rt.coordinates) && !CoordsTruthy(rt.coords) ==> c == Points([])
  {
    if CoordsTruthy(rt.coordinates) then rt.coordinates
    else if CoordsTruthy(rt.coords) then rt.coords
    else Points([])
  }

  /** The feature built for the record at index `idx`. */
  function ToFeature(rt: RawRoute, idx: nat): RouteFeature {
    RouteFeature(idx, rt.from, rt.to, CountOf(rt.count), Or(rt.path, Str("")), LineCoordinates(rt))
  }

  /** `(routes?.routes || []).map((rt, idx) => ...)`. */
  function RouteFeatures(routes: Option<seq<RawRoute>>): (r: seq<RouteFeature>)
    ensures |r| == |routes.GetOr([])|
    ensures forall i | 0 <= i < |r| ::
              var rt := routes.GetOr([])[i];
              && r[i].id == i
              && r[i].from == rt.from
              && r[i].to == rt.to
              && r[i].count == CountOf(rt.count)
              && r[i].path == (if Truthy(rt.path) then rt.path else Str(""))
              && r[i].coordinates == LineCoordinates(rt)
  {
    var rs := routes.GetOr([]);
    seq(|rs|, i requires 0 <= i < |rs| => ToFeature(rs[i], i))
  }

  /** `Array.isArray(f.geometry.coordinates) && f.geometry.coordinates.length >= 2`. */
  predicate Drawable(f: RouteFeature) {
    f.coordinates.Points? && |f.coordinates.points| >= 2
  }

  /** The stable filter that keeps the drawable features. */
  function KeepDrawable(fs: seq<RouteFeature>): (r: seq<RouteFeature>)
    ensures |r| <= |fs|
    decreases |fs|
  {
    if fs == [] then []
    else (if Drawable(fs[0]) then [fs[0]] else []) + KeepDrawable(fs[1..])
  }

  /** The line features handed to the `routes` source. */
  function RouteLines(routes: Option<seq<RawRoute>>): seq<RouteFeature> {
    KeepDrawable(RouteFeatures(routes))
  }

  /** A feature is kept exactly when it is in the input and drawable. */
  lemma {:induction false} KeepDrawableMembers(fs: seq<RouteFeature>)
    ensures forall x :: x in KeepDrawable(fs) <==> x in fs && Drawable(x)
    decreases |fs|
  {
    if fs != [] {
      KeepDrawableMembers(fs[1..]);
      assert fs == [fs[0]] + fs[1..];
    }
  }

  ghost predicate IdsIncreasing(fs: seq<RouteFeature>) {
    forall j, k | 0 <= j < k < |fs| :: fs[j].id < fs[k].id
  }

  /** The filter keeps the relative order of its input. */
  lemma {:induction false} KeepDrawableOrdered(fs: seq<RouteFeature>)
    requires IdsIncreasing(fs)
    ensures IdsIncreasing(KeepDrawable(fs))
    decreases |fs|
  {
    if fs != [] {
      var tail := fs[1..];
      assert IdsIncreasing(tail) by {
        forall j, k | 0 <= j < k < |tail| ensures tail[j].id < tail[k].id {
          assert tail[j] == fs[j + 1] && tail[k] == fs[k + 1];
        }
      }
      KeepDrawableOrdered(tail);
      KeepDrawableMembers(tail);
      var rest := KeepDrawable(tail);
      if Drawable(fs[0]) {
        var r := [fs[0]] + rest;
        forall j, k | 0 <= j < k < |r| ensures r[j].id < r[k].id {
          assert r[k] == rest[k - 1] && r[k] in tail;
          var m :| 0 <= m < |tail| && tail[m] == r[k];
          assert fs[m + 1] == r[k];
          if j > 0 { assert r[j] == rest[j - 1]; }
        }
      }
    }
  }

  /** The route output is exactly the drawable mapped routes in input order:
      every output feature is the one built for its input index `id` (the
      `from`/`to` copied, `count` defaulting to 0, `path` to "", the
      positions from `coordinates` or else `coords`) and is drawable; ids
      strictly increase; and every input index whose feature is drawable
      appears in the output. */
  lemma RouteLinesSpec(routes: Option<seq<RawRoute>>)
    ensures var rs, out := routes.GetOr([]), RouteLines(routes);
      && (forall j | 0 <= j < |out| ::
            && out[j].id < |rs|
            && out[j].from == rs[out[j].id].from
            && out[j].to == rs[out[j].id].to
            && out[j].count == CountOf(rs[out[j].id].count)
            && out[j].path == (if Truthy(rs[out[j].id].path) then rs[out[j].id].path else Str(""))
            && out[j].coordinates == LineCoordinates(rs[out[j].id])
            && out[j].coordinates.Points?
            && |out[j].coordinates.points| >= 2)
      && (forall j, k | 0 <= j < k < |out| :: out[j].id < out[k].id)
      && (forall i | 0 <= i < |rs| && LineCoordinates(rs[i]).Points? && |LineCoordinates(rs[i]).points| >= 2 ::
            exists j | 0 <= j < |out| :: out[j].id == i)
  {
    var rs, fs, out := routes.GetOr([]), RouteFeatures(routes), RouteLines(routes);
    KeepDrawableMembers(fs);
    KeepDrawableOrdered(fs);
    forall j | 0 <= j < |out|
      ensures out[j].id < |rs| && out[j] == fs[out[j].id] && Drawable(out[j])
    {
      assert out[j] in fs;
      var i :| 0 <= i < |fs| && fs[i] == out[j];
    }
    forall i | 0 <= i < |rs| && LineCoordinates(rs[i]).Points? && |LineCoordinates(rs[i]).points| >= 2
      ensures exists j | 0 <= j < |out| :: out[j].id == i
    {
      assert fs[i] in out;
    }
  }

  /** A present but empty `coordinates` array is truthy, so `coords` is never
      consulted and the route is dropped even when `coords` holds a line. */
  lemma EmptyCoordinatesHideCoords(p: Position, q: Position)
    ensures RouteLines(Some([RawRoute(Str("UA"), Str("HU"), Some(500), Null, Points([]), Points([p, q]))])) == []
    ensures RouteLines(Some([RawRoute(Str("UA"), Str("HU"), Some(500), Null, NoCoords, Points([p, q]))]))
         == [RouteFeature(0, Str("UA"), Str("HU"), 500, Str(""), Points([p, q]))]
  {
    var a := RawRoute(Str("UA"), Str("HU"), Some(500), Null, Points([]), Points([p, q]));
    var b := RawRoute(Str("UA"), Str("HU"), Some(500), Null, NoCoords, Points([p, q]));
    assert RouteFeatures(Some([a])) == [ToFeature(a, 0)];
    assert RouteFeatures(Some([b])) == [ToFeature(b, 0)];
  }
}
