/** GeoJSON values and `merge_geojson`, which exists twice with the same
    body (gbdx_buffet/__init__.py and gbdx_buffet/fetchGBDxResults.py): each
    input must be a FeatureCollection whose `features` is a list, and the
    output is one FeatureCollection holding all input features in input
    order. */
module GeoJson {
  import opened Common

  /** A JSON value; numbers are integers here. */
  datatype Json =
    | JNull
    | JBool(b: bool)
    | JNum(n: int)
    | JStr(s: string)
    | JList(items: seq<Json>)
    | JObj(fields: map<string, Json>)

  /** A JSON object, as `dict`. */
  type Object = map<string, Json>

  const FeatureCollectionType := JStr("FeatureCollection")

  /** `dict(type='FeatureCollection', features=features)` */
  function FeatureCollection(features: seq<Json>): Object
  {
    map["type" := FeatureCollectionType, "features" := JList(features)]
  }

  /** The two checks of the merge: `type` is `'FeatureCollection'` and
      `features` is a list (a missing key counts as `None`). */
  predicate LooksLikeGeoJson(o: Object)
  {
    && "type" in o && o["type"] == FeatureCollectionType
    && "features" in o && o["features"].JList?
  }

  /** The input that failed a check (the exception message shows it). */
  datatype MergeError = NotGeoJson(offender: Object)

  /** The feature list of a valid input. */
  function Features(o: Object): seq<Json>
    requires LooksLikeGeoJson(o)
  {
    o["features"].items
  }

  /** The features of the inputs one after another. */
  function AllFeatures(inFiles: seq<Object>): seq<Json>
    requires forall k :: 0 <= k < |inFiles| ==> LooksLikeGeoJson(inFiles[k])
  {
    if |inFiles| == 0 then []
    else
      var last := inFiles[|inFiles| - 1];
      assert LooksLikeGeoJson(last);
      AllFeatures(inFiles[..|inFiles| - 1]) + Features(last)
  }

  /** `merge_geojson`: starts from an empty FeatureCollection and, input by
      input, checks it and extends the output features with its features. */
  method MergeGeojson(inFiles: seq<Object>) returns (r: Result<Object, MergeError>)
    ensures r.Ok? <==> forall k :: 0 <= k < |inFiles| ==> LooksLikeGeoJson(inFiles[k])
    ensures r.Ok? ==> r.value == FeatureCollection(AllFeatures(inFiles))
    ensures r.Err? ==> exists i :: && 0 <= i < |inFiles| && !LooksLikeGeoJson(inFiles[i])
                                   && (forall j :: 0 <= j < i ==> LooksLikeGeoJson(inFiles[j]))
                                   && r.error == NotGeoJson(inFiles[i])
    ensures |inFiles| == 0 ==> r == Ok(FeatureCollection([]))
  {
    var features: seq<Json> := [];
    var i := 0;
    while i < |inFiles|
      invariant 0 <= i <= |inFiles|
      invariant forall k :: 0 <= k < i ==> LooksLikeGeoJson(inFiles[k])
      invariant features == AllFeatures(inFiles[..i])
    {
      var inJson := inFiles[i];
      if !("type" in inJson && inJson["type"] == FeatureCollectionType) {
        return Err(NotGeoJson(inJson));
      }
      if !("features" in inJson && inJson["features"].JList?) {
        return Err(NotGeoJson(inJson));
      }
      assert inFiles[..i + 1][..i] == inFiles[..i];
      features := features + Features(inJson);
      i := i + 1;
    }
    assert inFiles[..i] == inFiles;
    return Ok(FeatureCollection(features));
  }

  /** Merging keeps input order: the features of two runs of inputs are
      those of the first run followed by those of the second. */
  lemma {:induction false} AllFeaturesAppend(a: seq<Object>, b: seq<Object>)
    requires forall k :: 0 <= k < |a| ==> LooksLikeGeoJson(a[k])
    requires forall k :: 0 <= k < |b| ==> LooksLikeGeoJson(b[k])
    ensures forall k :: 0 <= k < |a + b| ==> LooksLikeGeoJson((a + b)[k])
    ensures AllFeatures(a + b) == AllFeatures(a) + AllFeatures(b)
  {
    assert forall k :: 0 <= k < |a + b| ==> (a + b)[k] == if k < |a| then a[k] else b[k - |a|];
    if |b| > 0 {
      var init := b[..|b| - 1];
      assert (a + b)[..|a + b| - 1] == a + init;
      AllFeaturesAppend(a, init);
    } else {
      assert a + b == a;
    }
  }

  /** A merged output is itself a valid input, and merging it again alone
      gives it back. */
  lemma MergedIsFeatureCollection(features: seq<Json>)
    ensures LooksLikeGeoJson(FeatureCollection(features))
    ensures AllFeatures([FeatureCollection(features)]) == features
  {
    assert [FeatureCollection(features)][..0] == [];
  }

  /** Merging two merges is merging everything at once. */
  lemma MergeOfMerges(a: seq<Object>, b: seq<Object>)
    requires forall k :: 0 <= k < |a| ==> LooksLikeGeoJson(a[k])
    requires forall k :: 0 <= k < |b| ==> LooksLikeGeoJson(b[k])
    ensures var pair := [FeatureCollection(AllFeatures(a)), FeatureCollection(AllFeatures(b))];
      && (forall k :: 0 <= k < 2 ==> LooksLikeGeoJson(pair[k]))
      && AllFeatures(pair) == AllFeatures(a + b)
  {
    MergedIsFeatureCollection(AllFeatures(a));
    MergedIsFeatureCollection(AllFeatures(b));
    AllFeaturesAppend([FeatureCollection(AllFeatures(a))], [FeatureCollection(AllFeatures(b))]);
    AllFeaturesAppend(a, b);
  }

  /** One FeatureCollection per result list, in order. */
  function Collections(results: seq<seq<Json>>): (r: seq<Object>)
    ensures |r| == |results|
    ensures forall k :: 0 <= k < |results| ==> r[k] == FeatureCollection(results[k])
  {
    if |results| == 0 then [] else Collections(results[..|results| - 1]) + [FeatureCollection(results[|results| - 1])]
  }

  /** The result lists one after another. */
  function ConcatAll(results: seq<seq<Json>>): seq<Json>
  {
    if |results| == 0 then [] else ConcatAll(results[..|results| - 1]) + results[|results| - 1]
  }

  function SumLengths(results: seq<seq<Json>>): nat
  {
    if |results| == 0 then 0 else SumLengths(results[..|results| - 1]) + |results[|results| - 1]|
  }

  /** Wrapping each result list in a FeatureCollection and merging them gives
      the lists concatenated, so the merged feature count is the sum of the
      list lengths. */
  lemma {:induction false} MergeOfCollections(results: seq<seq<Json>>)
    ensures forall k :: 0 <= k < |results| ==> LooksLikeGeoJson(Collections(results)[k])
    ensures AllFeatures(Collections(results)) == ConcatAll(results)
    ensures |ConcatAll(results)| == SumLengths(results)
  {
    if |results| > 0 {
      var init := results[..|results| - 1];
      MergeOfCollections(init);
      assert Collections(results)[..|results| - 1] == Collections(init);
    }
  }
}
