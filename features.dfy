/** GeoJSON features as the style utilities see them, and `flattenFeatures`. */
module Features {
  import opened Wrappers
  import opened JsValues

  /** A feature: its properties, its geometry (not interpreted here) and, for annotations, its own flat style. */
  datatype Feature = Feature(properties: Fields, geometry: Value, style: Option<Fields>)

  /** A `FeatureCollection` object. */
  datatype FeatureCollection = FeatureCollection(features: seq<Feature>)

  /** `flattenFeatures(collections)`: the features of every collection, collection after collection. */
  function FlattenFeatures(collections: seq<FeatureCollection>): (r: seq<Feature>)
    ensures collections != [] ==> collections[0].features <= r
  {
    if collections == [] then []
    else collections[0].features + FlattenFeatures(collections[1..])
  }

  /** Total number of features over all collections. */
  function FeatureCount(collections: seq<FeatureCollection>): nat
  {
    if collections == [] then 0 else |collections[0].features| + FeatureCount(collections[1..])
  }

  /** Flattening distributes over concatenation of the list of collections: order is kept. */
  lemma {:induction false} FlattenAppend(a: seq<FeatureCollection>, b: seq<FeatureCollection>)
    ensures FlattenFeatures(a + b) == FlattenFeatures(a) + FlattenFeatures(b)
  {
    if a != [] {
      FlattenAppend(a[1..], b);
      assert (a + b)[1..] == a[1..] + b;
    } else {
      assert a + b == b;
    }
  }

  /** Nothing is dropped or invented: the result is as long as all collections together. */
  lemma {:induction false} FlattenLength(collections: seq<FeatureCollection>)
    ensures |FlattenFeatures(collections)| == FeatureCount(collections)
  {
    if collections != [] {
      FlattenLength(collections[1..]);
    }
  }

  /** A feature is in the result exactly when it is in one of the collections. */
  lemma {:induction false} FlattenMembership(collections: seq<FeatureCollection>, f: Feature)
    ensures f in FlattenFeatures(collections) <==>
      exists i :: 0 <= i < |collections| && f in collections[i].features
  {
    if collections != [] {
      FlattenMembership(collections[1..], f);
      if exists i :: 0 <= i < |collections| && f in collections[i].features {
        var i :| 0 <= i < |collections| && f in collections[i].features;
        if i > 0 {
          assert f in collections[1..][i - 1].features;
        }
      }
      if exists i :: 0 <= i < |collections[1..]| && f in collections[1..][i].features {
        var i :| 0 <= i < |collections[1..]| && f in collections[1..][i].features;
        assert f in collections[i + 1].features;
      }
    }
  }

  /** The flattening test: two one-feature collections give their two features, in order. */
  lemma FlattenTwoCollections(a: Feature, b: Feature)
    ensures FlattenFeatures([FeatureCollection([a]), FeatureCollection([b])]) == [a, b]
  {
    var cs := [FeatureCollection([a]), FeatureCollection([b])];
    assert cs[1..] == [FeatureCollection([b])];
    assert cs[1..][1..] == [];
    assert FlattenFeatures(cs[1..]) == [b] + [];
  }
}
