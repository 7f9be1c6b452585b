/** buffet_search.py: the catalog query parameters, the retry around
    catalog calls, the shaping of a search answer into an image record, and
    the test for a changed order status. */
module BuffetSearch {
  import opened Common
  import opened Catalog

  datatype SearchError =
    | IndexError          // a date with fewer than three '/'-separated parts
    | KeyError(key: string)
    | CallFailed(what: string)  // an exception other than `HTTPError` from a catalog call

  /** A float argument as Python prints it, and whether it is 0.0 (false in
      an `if`). */
  datatype FloatArg = FloatArg(text: string, isZero: bool)

  predicate FloatTruthy(a: Option<FloatArg>) {
    a.Some? && !a.value.isZero
  }

  /** The arguments `gen_query` reads. `available` is the text given to the
      `type=bool` option, true when non-empty. */
  datatype SearchArgs = SearchArgs(cloudcover: Option<FloatArg>, sensors: Option<string>, offnadir: Option<FloatArg>,
                                   available: Option<string>, startdate: Option<string>, enddate: Option<string>)

  const UtcMidnight := "T00:00:00.000Z"

  /** `date2utc(date)`: `None` for a missing or empty date, otherwise the
      first three '/'-separated parts joined by '-' at midnight UTC; fewer
      than three parts raise `IndexError`, parts beyond the third are
      ignored by `format`. */
  function Date2Utc(date: Option<string>): Result<Option<string>, SearchError>
  {
    if !Truthy(date) then Ok(None)
    else
      var parts := Split(date.value, '/');
      if |parts| < 3 then Err(IndexError)
      else Ok(Some(parts[0] + "-" + parts[1] + "-" + parts[2] + UtcMidnight))
  }

  /** "Y/M/D" becomes "Y-M-DT00:00:00.000Z". */
  lemma Date2UtcOfDate(y: string, m: string, d: string)
    requires '/' !in y && '/' !in m && '/' !in d
    ensures Date2Utc(Some(y + "/" + m + "/" + d)) == Ok(Some(y + "-" + m + "-" + d + UtcMidnight))
  {
    var date := y + "/" + m + "/" + d;
    assert date == y + ['/'] + (m + ['/'] + d);
    SplitSingle(d, '/');
    SplitPrefix(m, d, '/');
    SplitPrefix(y, m + ['/'] + d, '/');
  }

  /** Which dates are refused: exactly the non-empty ones with fewer than two
      '/'; a missing or empty date gives no date at all. */
  lemma Date2UtcRefuses(date: Option<string>)
    ensures Date2Utc(date) == Err(IndexError) <==> Truthy(date) && Occurrences(date.value, '/') < 2
    ensures Date2Utc(date) == Ok(None) <==> !Truthy(date)
    ensures Date2Utc(date).Err? ==> Date2Utc(date) == Err(IndexError)
  {
    if Truthy(date) {
      SplitCount(date.value, '/');
    }
  }

  /** `"(" + " OR ".join(sensors.split(';')) + ")"` */
  function SensorFilter(sensors: string): string
  {
    "(" + Join(Split(sensors, ';'), " OR ") + ")"
  }

  /** `"cloudCover < {}"` when a non-zero cloud cover is given. */
  function CloudCoverFilter(cloudcover: Option<FloatArg>): seq<string>
  {
    if FloatTruthy(cloudcover) then ["cloudCover < " + cloudcover.value.text] else []
  }

  function SensorsFilter(sensors: Option<string>): seq<string>
  {
    if Truthy(sensors) then [SensorFilter(sensors.value)] else []
  }

  /** `"offNadirAngle {}"` when a non-zero angle is given. */
  function OffNadirFilter(offnadir: Option<FloatArg>): seq<string>
  {
    if FloatTruthy(offnadir) then ["offNadirAngle " + offnadir.value.text] else []
  }

  function AvailableFilter(available: Option<string>): seq<string>
  {
    if Truthy(available) then ["available = true"] else []
  }

  /** `{"startDate": ..., "endDate": ..., "filters": ...}` */
  datatype QueryParams = QueryParams(startDate: Option<string>, endDate: Option<string>, filters: seq<string>)

  /** `gen_query(args)`: the filters for the arguments given, in the order
      cloud cover, sensors, off-nadir angle, availability, then both dates. */
  method GenQuery(args: SearchArgs) returns (r: Result<QueryParams, SearchError>)
    ensures r.Ok? <==> Date2Utc(args.startdate).Ok? && Date2Utc(args.enddate).Ok?
    ensures r.Err? ==> r.error == IndexError
    ensures r.Ok? ==> && r.value.startDate == Date2Utc(args.startdate).value
                      && r.value.endDate == Date2Utc(args.enddate).value
                      && r.value.filters == CloudCoverFilter(args.cloudcover) + SensorsFilter(args.sensors)
                                          + OffNadirFilter(args.offnadir) + AvailableFilter(args.available)
  {
    var filters: seq<string> := [];
    if FloatTruthy(args.cloudcover) {
      filters := filters + ["cloudCover < " + args.cloudcover.value.text];
    }
    if Truthy(args.sensors) {
      filters := filters + [SensorFilter(args.sensors.value)];
    }
    if FloatTruthy(args.offnadir) {
      filters := filters + ["offNadirAngle " + args.offnadir.value.text];
    }
    if Truthy(args.available) {
      filters := filters + ["available = true"];
    }
    var startDate := Date2Utc(args.startdate);
    if startDate.Err? {
      return Err(startDate.error);
    }
    var endDate := Date2Utc(args.enddate);
    if endDate.Err? {
      return Err(endDate.error);
    }
    return Ok(QueryParams(startDate.value, endDate.value, filters));
  }

  /** There is one filter per truthy filtering argument, none when no
      filtering argument is given, and the cloud-cover filter comes first
      and the availability filter last whenever they are present. */
  lemma FilterCount(args: SearchArgs)
    ensures var fs := CloudCoverFilter(args.cloudcover) + SensorsFilter(args.sensors)
                    + OffNadirFilter(args.offnadir) + AvailableFilter(args.available);
      && |fs| == (if FloatTruthy(args.cloudcover) then 1 else 0) + (if Truthy(args.sensors) then 1 else 0)
                 + (if FloatTruthy(args.offnadir) then 1 else 0) + (if Truthy(args.available) then 1 else 0)
      && (FloatTruthy(args.cloudcover) ==> fs[0] == "cloudCover < " + args.cloudcover.value.text)
      && (Truthy(args.available) ==> fs[|fs| - 1] == "available = true")
  {
  }

  /** The sensor filter is the sensor list in parentheses with every ';'
      replaced by " OR "; so it has one " OR " per ';'. */
  lemma SensorFilterReplaces(sensors: string)
    ensures SensorFilter(sensors) == "(" + Replace(sensors, ';', " OR ") + ")"
  {
    JoinSplitReplaces(sensors, ';', " OR ");
  }

  /** A sensor list without ';' is one sensor in parentheses. */
  lemma SensorFilterSingle(sensor: string)
    requires ';' !in sensor
    ensures SensorFilter(sensor) == "(" + sensor + ")"
  {
    SplitSingle(sensor, ';');
  }

  /** The outcome of one call to the catalog. */
  datatype CallOutcome<T> = Answered(value: T) | HttpError | Raised(what: string)

  /** `keep_trying(func)`: call again after each `HTTPError`, and return the
      first answer or let the first other exception through. `attempt(n)` is
      the outcome of the n-th call; the loop ends only when some call does
      not raise `HTTPError`. */
  method KeepTrying<T>(attempt: nat -> CallOutcome<T>) returns (calls: nat, r: Result<T, SearchError>)
    requires exists n: nat :: !attempt(n).HttpError?
    ensures !attempt(calls).HttpError?
    ensures forall j :: 0 <= j < calls ==> attempt(j).HttpError?
    ensures attempt(calls).Answered? ==> r == Ok(attempt(calls).value)
    ensures attempt(calls).Raised? ==> r == Err(CallFailed(attempt(calls).what))
  {
    ghost var bound: nat :| !attempt(bound).HttpError?;
    calls := 0;
    while attempt(calls).HttpError?
      invariant calls <= bound
      invariant forall j :: 0 <= j < calls ==> attempt(j).HttpError?
      decreases bound - calls
    {
      calls := calls + 1;
    }
    match attempt(calls)
    case Answered(v) => r := Ok(v);
    case Raised(what) => r := Err(CallFailed(what));
  }

  /** One answer of `gbdx.catalog.search`. */
  datatype SearchResult = SearchResult(identifier: string, types: seq<string>, properties: map<string, string>)

  /** The image record of one search answer: its properties with `catid`,
      `type` (the types joined by '|') and `query_aoi` set, and `geometry`
      parsed from `footprintWkt`; the footprint is kept as its text. */
  function ImageRecord(result: SearchResult, wkt: string): Result<map<string, string>, SearchError>
  {
    var image := result.properties["catid" := result.identifier]["type" := Join(result.types, "|")]["query_aoi" := wkt];
    if "footprintWkt" !in image then Err(KeyError("footprintWkt"))
    else Ok(image["geometry" := image["footprintWkt"]])
  }

  /** `catalog_search(wkt)`: search until the catalog answers without an
      `HTTPError`, and turn at most the first result into a record. */
  method CatalogSearch(wkt: string, search: nat -> CallOutcome<seq<SearchResult>>)
    returns (calls: nat, r: Result<seq<map<string, string>>, SearchError>)
    requires exists n: nat :: !search(n).HttpError?
    ensures forall j :: 0 <= j < calls ==> search(j).HttpError?
    ensures search(calls).Raised? ==> r == Err(CallFailed(search(calls).what))
    ensures search(calls).Answered? ==> var results := search(calls).value;
      && (|results| == 0 ==> r == Ok([]))
      && (|results| > 0 ==> match ImageRecord(results[0], wkt)
                            case Ok(image) => r == Ok([image])
                            case Err(e) => r == Err(e))
  {
    var results;
    calls, results := KeepTrying(search);
    if results.Err? {
      return calls, Err(results.error);
    }
    var answers := results.value;
    var allResults: seq<map<string, string>> := [];
    var first := if |answers| > 0 then answers[..1] else [];
    var i := 0;
    while i < |first|
      invariant 0 <= i <= |first| <= 1
      invariant |first| == 1 ==> first[0] == answers[0]
      invariant i == 0 ==> allResults == []
      invariant i == 1 ==> ImageRecord(answers[0], wkt).Ok? && [ImageRecord(answers[0], wkt).value] == allResults
    {
      var image := ImageRecord(first[i], wkt);
      if image.Err? {
        return calls, Err(image.error);
      }
      allResults := allResults + [image.value];
      i := i + 1;
    }
    return calls, Ok(allResults);
  }

  /** A record names its catalog id, its joined types and the query AOI, and
      carries the footprint as its geometry; it fails only without a
      footprint. */
  lemma ImageRecordFields(result: SearchResult, wkt: string)
    ensures ImageRecord(result, wkt).Err? <==> "footprintWkt" !in result.properties
    ensures ImageRecord(result, wkt).Ok? ==> var image := ImageRecord(result, wkt).value;
      && image["catid"] == result.identifier && image["type"] == Join(result.types, "|")
      && image["query_aoi"] == wkt && image["geometry"] == result.properties["footprintWkt"]
      && image["geometry"] == image["footprintWkt"]
      && image.Keys == result.properties.Keys + {"catid", "type", "query_aoi", "geometry"}
      && (forall k :: k in result.properties && k !in {"catid", "type", "query_aoi", "geometry"}
                      ==> image[k] == result.properties[k])
  {
  }

  /** An order status as `order_status` keeps it: acquisition id to
      acquisition, in the order the service reported them. */
  type Status = seq<(string, Acquisition)>

  function Keys(s: Status): (r: seq<string>)
    ensures |r| == |s|
    ensures forall k :: 0 <= k < |s| ==> r[k] == s[k].0
  {
    if |s| == 0 then [] else [s[0].0] + Keys(s[1..])
  }

  /** `order_changed(prev, curr)` as written: zipping two dicts pairs their
      keys, so only the lengths and the keys are compared. */
  predicate OrderChangedAsWritten(prev: Status, curr: Status)
  {
    |prev| != |curr| || exists i :: 0 <= i < |prev| && i < |curr| && prev[i].0 != curr[i].0
  }

  /** The evident intent: the status changed when any entry, key or
      acquisition, differs from the entry at the same place. Like the zip
      of the source, this compares entries in the order the service reported
      them, so the same entries reported in another order count as a change
      (a dict `!=` would not). */
  predicate OrderChanged(prev: Status, curr: Status)
  {
    |prev| != |curr| || exists i :: 0 <= i < |prev| && i < |curr| && prev[i] != curr[i]
  }

  /** The intended test is exactly inequality of the two statuses as
      ordered sequences of entries. */
  lemma OrderChangedIff(prev: Status, curr: Status)
    ensures OrderChanged(prev, curr) <==> prev != curr
  {
    if |prev| == |curr| && prev != curr {
      var i :| 0 <= i < |prev| && prev[i] != curr[i];
    }
  }

  /** The test as written sees only the sequence of acquisition ids. */
  lemma OrderChangedAsWrittenKeysOnly(prev: Status, curr: Status)
    ensures OrderChangedAsWritten(prev, curr) <==> Keys(prev) != Keys(curr)
  {
    if |prev| == |curr| && Keys(prev) != Keys(curr) {
      var i :| 0 <= i < |prev| && Keys(prev)[i] != Keys(curr)[i];
    }
  }

  /** An acquisition going from submitted to delivered is a change the
      test as written misses, so no workflow is launched for it. */
  lemma DeliveryMissed()
    ensures var prev := [("104001001ED23100", Acquisition("104001001ED23100", "submitted", "not_delivered"))];
            var curr := [("104001001ED23100", Acquisition("104001001ED23100", "delivered", "s3://receiving/056721940010_01_003"))];
            !OrderChangedAsWritten(prev, curr) && OrderChanged(prev, curr)
  {
    var prev := [("104001001ED23100", Acquisition("104001001ED23100", "submitted", "not_delivered"))];
    var curr := [("104001001ED23100", Acquisition("104001001ED23100", "delivered", "s3://receiving/056721940010_01_003"))];
    assert prev[0] != curr[0];
  }
}
