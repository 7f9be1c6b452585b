/** `FetchGBDxResults` (gbdx_buffet/__init__.py and its copy in
    gbdx_buffet/fetchGBDxResults.py): asks the vector index for the detections
    inside each AOI, wraps each answer in a FeatureCollection, merges them and
    either writes the merge into the output directory or returns it. */
module Detects {
  import opened Common
  import opened GeoJson

  const AllItemTypes := "all"
  const AnyItemType := "*"

  /** The item type sent to the index: "all" stands for the wildcard. */
  function QueryItemType(itemType: string): (r: string)
    ensures r == AnyItemType <==> itemType == AllItemTypes || itemType == AnyItemType
    ensures itemType != AllItemTypes ==> r == itemType
  {
    if itemType == AllItemTypes then AnyItemType else itemType
  }

  /** `"item_type: {} & item_date:[{} TO {}]".format(...)` */
  function EsQuery(itemType: string, startDate: string, endDate: string): string
  {
    "item_type: " + itemType + " & item_date:[" + startDate + " TO " + endDate + "]"
  }

  /** Splitting on spaces a text assembled from space-free words. */
  lemma SplitSixWords(w0: string, w1: string, w2: string, w3: string, w4: string, w5: string)
    requires ' ' !in w0 && ' ' !in w1 && ' ' !in w2 && ' ' !in w3 && ' ' !in w4 && ' ' !in w5
    ensures Split(w0 + " " + (w1 + " " + (w2 + " " + (w3 + " " + (w4 + " " + w5)))), ' ') == [w0, w1, w2, w3, w4, w5]
  {
    var s4 := w4 + " " + w5;
    var s3 := w3 + " " + s4;
    var s2 := w2 + " " + s3;
    var s1 := w1 + " " + s2;
    SplitSingle(w5, ' ');
    SplitPrefix(w4, w5, ' ');
    SplitPrefix(w3, s4, ' ');
    SplitPrefix(w2, s3, ' ');
    SplitPrefix(w1, s2, ' ');
    SplitPrefix(w0, s1, ' ');
  }

  /** The query is the spaced sequence of its six words, so splitting it on
      spaces recovers the item type and both dates when none holds a space. */
  lemma EsQueryWords(itemType: string, startDate: string, endDate: string)
    requires ' ' !in itemType && ' ' !in startDate && ' ' !in endDate
    ensures Split(EsQuery(itemType, startDate, endDate), ' ')
         == ["item_type:", itemType, "&", "item_date:[" + startDate, "TO", endDate + "]"]
  {
    var w3 := "item_date:[" + startDate;
    var w5 := endDate + "]";
    assert ' ' !in w3 && ' ' !in w5;
    assert "item_type: " == "item_type:" + " ";
    assert " & item_date:[" == " " + "&" + " " + "item_date:[";
    assert " TO " == " " + "TO" + " ";
    assert "item_type:" + " " + (itemType + " " + ("&" + " " + (w3 + " " + ("TO" + " " + w5))))
        == EsQuery(itemType, startDate, endDate);
    SplitSixWords("item_type:", itemType, "&", w3, "TO", w5);
  }

  /** `gbdx.vectors.query(wkt, query=..., index=..., count=...)`: the
      features the index returns for one AOI geometry. */
  type VectorQuery = (string, string, string, int) -> seq<Json>

  /** The answers of the index for each AOI, in AOI order. */
  function AoiResults(query: VectorQuery, aoiWkts: seq<string>, esQuery: string, index: string, count: int): (r: seq<seq<Json>>)
    ensures |r| == |aoiWkts|
    ensures forall k :: 0 <= k < |aoiWkts| ==> r[k] == query(aoiWkts[k], esQuery, index, count)
  {
    if |aoiWkts| == 0 then []
    else AoiResults(query, aoiWkts[..|aoiWkts| - 1], esQuery, index, count)
         + [query(aoiWkts[|aoiWkts| - 1], esQuery, index, count)]
  }

  /** `"{}_{}_{}.geojson".format(vector_index, item_type, now)` */
  function OutFileName(vectorIndex: string, itemType: string, now: string): string
  {
    vectorIndex + "_" + itemType + "_" + now + ".geojson"
  }

  /** The merge is written to a file inside an existing output directory,
      and returned otherwise. */
  datatype Outcome = Returned(merged: Object) | Written(outFile: string, merged: Object)

  /** The loop of `extract_detects`: one FeatureCollection per AOI, appended
      to `all_results` in AOI order. */
  method CollectResults(query: VectorQuery, aoiWkts: seq<string>, esQuery: string, index: string, count: int)
    returns (allResults: seq<Object>)
    ensures allResults == Collections(AoiResults(query, aoiWkts, esQuery, index, count))
  {
    allResults := [];
    var i := 0;
    while i < |aoiWkts|
      invariant 0 <= i <= |aoiWkts|
      invariant allResults == Collections(AoiResults(query, aoiWkts[..i], esQuery, index, count))
    {
      var results := query(aoiWkts[i], esQuery, index, count);
      assert aoiWkts[..i + 1][..i] == aoiWkts[..i];
      allResults := allResults + [FeatureCollection(results)];
      i := i + 1;
    }
    assert aoiWkts[..i] == aoiWkts;
  }

  /** The collections of all AOIs merged; the merge cannot fail, since each
      collection was built as a FeatureCollection. */
  method MergeAoiResults(query: VectorQuery, aoiWkts: seq<string>, esQuery: string, index: string, count: int)
    returns (out: Object)
    ensures out == FeatureCollection(ConcatAll(AoiResults(query, aoiWkts, esQuery, index, count)))
  {
    var allResults := CollectResults(query, aoiWkts, esQuery, index, count);
    MergeOfCollections(AoiResults(query, aoiWkts, esQuery, index, count));
    var merged := MergeGeojson(allResults);
    out := merged.value;
  }

  class FetchGBDxResults {
    var inAoi: string
    var outResult: string
    var vectorIndex: string
    var itemType: string
    var startDate: string
    var endDate: string
    var maxCount: int

    constructor (inAoi: string, outResult: string := "", startDate: string := "*", endDate: string := "now",
                 vectorIndex: string := "vector-*", itemType: string := "all", count: int := 200000)
      ensures this.inAoi == inAoi && this.outResult == outResult
      ensures this.startDate == startDate && this.endDate == endDate
      ensures this.vectorIndex == vectorIndex && this.itemType == itemType && this.maxCount == count
    {
      this.inAoi := inAoi;
      this.outResult := outResult;
      this.vectorIndex := vectorIndex;
      this.itemType := itemType;
      this.startDate := startDate;
      this.endDate := endDate;
      this.maxCount := count;
    }

    /** `extract_detects`. `aoiWkts` are the AOI geometries as WKT, as read
        from `inAoi`; `isDir` is `os.path.isdir`; `now` is today's date as
        `%Y-%m-%d`. */
    method ExtractDetects(aoiWkts: seq<string>, query: VectorQuery, isDir: string -> bool, now: string)
      returns (r: Outcome)
      modifies this
      ensures itemType == QueryItemType(old(itemType))
      ensures inAoi == old(inAoi) && outResult == old(outResult) && vectorIndex == old(vectorIndex)
      ensures startDate == old(startDate) && endDate == old(endDate) && maxCount == old(maxCount)
      ensures r.merged == FeatureCollection(ConcatAll(AoiResults(query, aoiWkts, EsQuery(itemType, startDate, endDate), vectorIndex, maxCount)))
      ensures r.Written? <==> isDir(outResult)
      ensures r.Written? ==> r.outFile == PathJoin(outResult, OutFileName(vectorIndex, itemType, now))
    {
      if itemType == AllItemTypes {
        itemType := AnyItemType;
      }
      var esQuery := EsQuery(itemType, startDate, endDate);
      var out := MergeAoiResults(query, aoiWkts, esQuery, vectorIndex, maxCount);
      if isDir(outResult) {
        var outFile := PathJoin(outResult, OutFileName(vectorIndex, itemType, now));
        r := Written(outFile, out);
      } else {
        r := Returned(out);
      }
    }
  }

  /** One FeatureCollection per AOI: the merged features are the index
      answers in AOI order, and their number is the sum of the answer sizes. */
  lemma {:induction false} DetectsFeatureCount(query: VectorQuery, aoiWkts: seq<string>, esQuery: string, index: string, count: int)
    ensures var answers := AoiResults(query, aoiWkts, esQuery, index, count);
      && LooksLikeGeoJson(FeatureCollection(ConcatAll(answers)))
      && |Features(FeatureCollection(ConcatAll(answers)))| == SumLengths(answers)
  {
    var answers := AoiResults(query, aoiWkts, esQuery, index, count);
    MergeOfCollections(answers);
    MergedIsFeatureCollection(ConcatAll(answers));
  }

  /** Rewriting the item type a second time changes nothing. */
  lemma QueryItemTypeIdempotent(itemType: string)
    ensures QueryItemType(QueryItemType(itemType)) == QueryItemType(itemType)
  {
  }
}
