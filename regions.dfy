/** Region-code extraction (`getIso2`) and the load step that stamps an
    `ISO2` property onto every polygon feature. */
module Regions {
  import opened JsValue

  /** The `properties` member of a GeoJSON feature: absent, JSON `null`, or
      an object. */
  datatype PropsField = Missing | NullProps | Bag(bag: PropertyBag)

  datatype Geometry =
    | Polygon(rings: seq<seq<Position>>)
    | MultiPolygon(polygons: seq<seq<seq<Position>>>)
    | NoGeometry

  datatype Feature = Feature(id: Value, properties: PropsField, geometry: Geometry)

  /** Reading a member of a properties value that threw. */
  datatype TypeError = CannotReadPropertiesOfNull

  datatype Result<+T> = Ok(value: T) | Err(error: TypeError)

  /** The candidate keys `getIso2` tries, in order. */
  const Iso2Keys: seq<string> := ["ISO2", "CNTR_ID", "ISO_A2", "iso2", "cntr_id", "iso_a2"]

  /** `bag[k0] || bag[k1] || ... || null`: the value of the first key whose
      value is truthy, and null when there is none. */
  function FirstTruthy(bag: PropertyBag, keys: seq<string>): (r: Value)
    ensures r == Null <==> forall i | 0 <= i < |keys| :: !Truthy(Get(bag, keys[i]))
    ensures forall i | 0 <= i < |keys| ::
              Truthy(Get(bag, keys[i])) && (forall j | 0 <= j < i :: !Truthy(Get(bag, keys[j])))
              ==> r == Get(bag, keys[i])
    decreases |keys|
  {
    if keys == [] then Null
    else if Truthy(Get(bag, keys[0])) then Get(bag, keys[0])
    else
      var r := FirstTruthy(bag, keys[1..]);
      assert forall i | 1 <= i < |keys| :: keys[i] == keys[1..][i - 1];
      r
  }

  /** The object `getIso2` reads from once its default parameter applied:
      an absent properties member becomes `{}`. */
  function BagOf(p: PropsField): PropertyBag {
    match p
    case Bag(m) => m
    case _ => map[]
  }

  /** `getIso2` exactly as written: the default `{}` applies only to an
      absent argument, so a JSON `null` properties value throws. */
  function GetIso2AsWritten(p: PropsField): (r: Result<Value>)
    ensures r.Err? <==> p.NullProps?
    ensures r.Ok? ==> r.value == FirstTruthy(BagOf(p), Iso2Keys)
  {
    match p
    case NullProps => Err(CannotReadPropertiesOfNull)
    case _ => Ok(FirstTruthy(BagOf(p), Iso2Keys))
  }

  /** `getIso2`, total: a null properties value is treated like an empty
      one, as the patching step's `f.properties || {}` intends. */
  function Iso2Of(p: PropsField): (r: Value)
    ensures r == Null || Truthy(r)
    ensures r == Null <==> forall i | 0 <= i < |Iso2Keys| :: !Truthy(Get(BagOf(p), Iso2Keys[i]))
    ensures !p.NullProps? ==> GetIso2AsWritten(p) == Ok(r)
  {
    FirstTruthy(BagOf(p), Iso2Keys)
  }

  /** The code stamped onto a feature: `getIso2(props) || f.id || null`. */
  function StampedIso2(f: Feature): (r: Value)
    ensures Truthy(Iso2Of(f.properties)) ==> r == Iso2Of(f.properties)
    ensures !Truthy(Iso2Of(f.properties)) && Truthy(f.id) ==> r == f.id
    ensures !Truthy(Iso2Of(f.properties)) && !Truthy(f.id) ==> r == Null
  {
    Or(Or(Iso2Of(f.properties), f.id), Null)
  }

  /** One feature of the patched collection: a copy of `f` whose properties
      are a copy of `f.properties || {}` with `ISO2` set. */
  function PatchFeature(f: Feature): Feature {
    f.(properties := Bag(BagOf(f.properties)["ISO2" := StampedIso2(f)]))
  }

  /** The features of the patched collection (`(g.features || []).map(...)`),
      with the null-properties case handled. */
  function PatchFeatures(features: Option<seq<Feature>>): (r: seq<Feature>)
    ensures |r| == |features.GetOr([])|
  {
    var fs := features.GetOr([]);
    seq(|fs|, i requires 0 <= i < |fs| => PatchFeature(fs[i]))
  }

  /** The patching step as written: the call to `getIso2` on a feature whose
      properties are `null` throws, which abandons the whole load. */
  function PatchFeaturesAsWritten(features: Option<seq<Feature>>): (r: Result<seq<Feature>>)
    ensures r.Err? <==> exists i | 0 <= i < |features.GetOr([])| :: features.GetOr([])[i].properties.NullProps?
    ensures r.Ok? ==> r.value == PatchFeatures(features)
  {
    var fs := features.GetOr([]);
    if exists i | 0 <= i < |fs| :: fs[i].properties.NullProps? then Err(CannotReadPropertiesOfNull)
    else Ok(PatchFeatures(features))
  }

  /** Patching keeps the number and order of features, their ids and
      geometries, stamps `ISO2` with `getIso2(props) || f.id || null`, and
      leaves every other property as it was. */
  lemma PatchFeaturesSpec(features: Option<seq<Feature>>)
    ensures var fs, r := features.GetOr([]), PatchFeatures(features);
      && |r| == |fs|
      && forall i | 0 <= i < |r| ::
           && r[i].id == fs[i].id
           && r[i].geometry == fs[i].geometry
           && r[i].properties.Bag?
           && "ISO2" in r[i].properties.bag
           && r[i].properties.bag["ISO2"] == StampedIso2(fs[i])
           && r[i].properties.bag.Keys == BagOf(fs[i].properties).Keys + {"ISO2"}
           && forall k | k in r[i].properties.bag && k != "ISO2" ::
                r[i].properties.bag[k] == BagOf(fs[i].properties)[k]
  {
  }

  /** The code the feature-state loop reads back from a patched feature is
      exactly the code the load step stamped on it. */
  lemma {:induction false} Iso2OfPatched(f: Feature)
    ensures Iso2Of(PatchFeature(f).properties) == StampedIso2(f)
  {
    var m := BagOf(f.properties);
    var m' := BagOf(PatchFeature(f).properties);
    var s := StampedIso2(f);
    assert Get(m', Iso2Keys[0]) == s;
    if !Truthy(s) {
      assert s == Null && !Truthy(Iso2Of(f.properties));
      forall i | 0 <= i < |Iso2Keys| ensures !Truthy(Get(m', Iso2Keys[i])) {
        if i > 0 {
          assert Get(m', Iso2Keys[i]) == Get(m, Iso2Keys[i]);
        }
      }
    }
  }

  /** Patching an already patched feature changes nothing. */
  lemma {:induction false} PatchFeatureIdempotent(f: Feature)
    ensures PatchFeature(PatchFeature(f)) == PatchFeature(f)
  {
    Iso2OfPatched(f);
    var g := PatchFeature(f);
    assert StampedIso2(g) == StampedIso2(f);
    assert BagOf(g.properties)["ISO2" := StampedIso2(g)] == BagOf(g.properties);
  }

  /** A valid GeoJSON feature with `"properties": null` makes the load step
      as written throw, while the null guard the step itself writes for the
      copied properties shows that such features were meant to be accepted. */
  lemma NullPropertiesAbortLoad()
    ensures var fs := [Feature(Str("HU"), NullProps, NoGeometry)];
      && PatchFeaturesAsWritten(Some(fs)).Err?
      && PatchFeatures(Some(fs)) == [Feature(Str("HU"), Bag(map["ISO2" := Str("HU")]), NoGeometry)]
  {
    var fs := [Feature(Str("HU"), NullProps, NoGeometry)];
    assert fs[0].properties.NullProps?;
    assert Iso2Of(NullProps) == Null;
  }
}
