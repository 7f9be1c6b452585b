/** How the `IdahoM` image client turns a catalog id and a location into one
    chip request (chipper_py.py): scanning the image description for the
    panchromatic and multispectral image ids, choosing the band composition
    for the chip type, building the area text and the request URL, and
    mapping the HTTP response to the value the client returns.

    The catalog lookup (`get_images_by_catid_and_aoi` + `describe_images`),
    the geometry envelope and the HTTP GET are oracles passed in as total
    functions. Coordinates are passed already rendered as text. */
module ChipRequest {
  import opened Common

  const GbdxBasename := "https://idaho.geobigdata.io/"
  const CentroidEndpoint := GbdxBasename + "v1/chip/centroid/idaho-images/"
  const BboxEndpoint := GbdxBasename + "v1/chip/bbox/idaho-images/"

  const PanKey := "PAN"
  const EightBandKey := "WORLDVIEW_8_BAND"
  const FourBandKey := "RGBN"

  /** One part of a described image: each band-type key it has, mapped to the
      `id` of that band image. */
  type Part = map<string, string>

  /** `describe_images(...)`: for each catalog id, in dictionary order, its
      parts in dictionary order. */
  type Description = seq<seq<Part>>

  /** The three variables the description scan leaves behind. */
  datatype BandIds = BandIds(panId: Option<string>, msId: Option<string>, numBands: nat)

  const NoIds := BandIds(None, None, 0)

  predicate HasMs(part: Part) {
    EightBandKey in part || FourBandKey in part
  }

  /** The multispectral id and band count a part supplies; the 8-band image
      wins over the RGBN one within a part. */
  function MsOf(part: Part): (Option<string>, nat)
    requires HasMs(part)
  {
    if EightBandKey in part then (Some(part[EightBandKey]), 8) else (Some(part[FourBandKey]), 4)
  }

  /** One iteration of the scan's inner loop. */
  function ScanPart(ids: BandIds, part: Part): BandIds
  {
    var pan := if PanKey in part then Some(part[PanKey]) else ids.panId;
    if HasMs(part) then BandIds(pan, MsOf(part).0, MsOf(part).1)
    else BandIds(pan, ids.msId, ids.numBands)
  }

  /** The scan over a sequence of parts, in order. */
  function ScanParts(parts: seq<Part>): BandIds
  {
    if |parts| == 0 then NoIds
    else ScanPart(ScanParts(parts[..|parts| - 1]), parts[|parts| - 1])
  }

  /** All the parts of a description, catalog by catalog. */
  function Flatten(d: Description): seq<Part>
  {
    if |d| == 0 then [] else Flatten(d[..|d| - 1]) + d[|d| - 1]
  }

  lemma FlattenSnoc(d: Description, parts: seq<Part>)
    ensures Flatten(d + [parts]) == Flatten(d) + parts
  {
    assert (d + [parts])[..|d|] == d;
  }

  /** The scan of a whole description. */
  function ScannedIds(d: Description): BandIds
  {
    ScanParts(Flatten(d))
  }

  /** The body of the scan's inner loop: a part's panchromatic id replaces
      the one found so far, and so does its 8-band id, else its RGBN id,
      with the band count that goes with it. */
  method ScanStep(panId: Option<string>, msId: Option<string>, numBands: nat, part: Part)
    returns (panId': Option<string>, msId': Option<string>, numBands': nat)
    ensures BandIds(panId', msId', numBands') == ScanPart(BandIds(panId, msId, numBands), part)
  {
    panId', msId', numBands' := panId, msId, numBands;
    if PanKey in part {
      panId' := Some(part[PanKey]);
    }
    if EightBandKey in part {
      msId' := Some(part[EightBandKey]);
      numBands' := 8;
    } else if FourBandKey in part {
      msId' := Some(part[FourBandKey]);
      numBands' := 4;
    }
  }

  /** The nested loop of chipper_py.py that overwrites `pan_id`, `ms_id` and
      `num_bands` part by part. */
  method ScanIds(description: Description) returns (panId: Option<string>, msId: Option<string>, numBands: nat)
    ensures BandIds(panId, msId, numBands) == ScannedIds(description)
  {
    panId, msId, numBands := None, None, 0;
    var i := 0;
    while i < |description|
      invariant 0 <= i <= |description|
      invariant BandIds(panId, msId, numBands) == ScanParts(Flatten(description[..i]))
    {
      var parts := description[i];
      ghost var before := Flatten(description[..i]);
      var j := 0;
      assert before + parts[..0] == before;
      while j < |parts|
        invariant 0 <= j <= |parts|
        invariant BandIds(panId, msId, numBands) == ScanParts(before + parts[..j])
      {
        var part := parts[j];
        panId, msId, numBands := ScanStep(panId, msId, numBands, part);
        assert before + parts[..j + 1] == (before + parts[..j]) + [part];
        ScanSnoc(before + parts[..j], part);
        j := j + 1;
      }
      assert parts[..j] == parts;
      assert description[..i + 1] == description[..i] + [parts];
      FlattenSnoc(description[..i], parts);
      i := i + 1;
    }
    assert description[..i] == description;
  }

  // ------------------------------------------------------------ what the scan keeps

  /** The panchromatic id left by the scan is that of the LAST part that has
      one, and stays None when no part has one. */
  lemma {:induction false} ScanKeepsLastPan(parts: seq<Part>)
    ensures ScanParts(parts).panId.None? <==> forall i :: 0 <= i < |parts| ==> PanKey !in parts[i]
    ensures forall i :: (0 <= i < |parts| && PanKey in parts[i] && (forall j :: i < j < |parts| ==> PanKey !in parts[j]))
                        ==> ScanParts(parts).panId == Some(parts[i][PanKey])
  {
    ScanPanNone(parts);
    ScanPanLast(parts);
  }

  /** Scanning one more part is one more step of the inner loop. */
  lemma ScanSnoc(init: seq<Part>, last: Part)
    ensures ScanParts(init + [last]) == ScanPart(ScanParts(init), last)
  {
    assert (init + [last])[..|init|] == init;
  }

  lemma {:induction false} ScanPanNone(parts: seq<Part>)
    ensures ScanParts(parts).panId.None? <==> forall i :: 0 <= i < |parts| ==> PanKey !in parts[i]
  {
    if |parts| > 0 {
      var init, last := parts[..|parts| - 1], parts[|parts| - 1];
      assert parts == init + [last];
      ScanPanNone(init);
      ScanSnoc(init, last);
      if PanKey !in last {
        assert forall i :: 0 <= i < |init| ==> init[i] == parts[i];
      }
    }
  }

  lemma {:induction false} ScanPanLast(parts: seq<Part>)
    ensures forall i :: (0 <= i < |parts| && PanKey in parts[i] && (forall j :: i < j < |parts| ==> PanKey !in parts[j]))
                        ==> ScanParts(parts).panId == Some(parts[i][PanKey])
  {
    if |parts| > 0 {
      var init, last := parts[..|parts| - 1], parts[|parts| - 1];
      assert parts == init + [last];
      ScanPanLast(init);
      ScanSnoc(init, last);
      forall i | 0 <= i < |parts| - 1 && PanKey in parts[i] && (forall j :: i < j < |parts| ==> PanKey !in parts[j])
        ensures ScanParts(parts).panId == Some(parts[i][PanKey])
      {
        assert PanKey !in parts[|parts| - 1];
        assert init[i] == parts[i];
        assert forall j :: i < j < |init| ==> init[j] == parts[j];
      }
    }
  }

  /** The band count left by the scan is 0, 4 or 8, and it is 0 exactly when
      no multispectral id was found, which happens exactly when no part has an
      8-band or RGBN image. */
  lemma {:induction false} ScanBandShape(parts: seq<Part>)
    ensures var ids := ScanParts(parts);
      && (ids.msId.None? <==> forall i :: 0 <= i < |parts| ==> !HasMs(parts[i]))
      && (ids.msId.None? <==> ids.numBands == 0)
      && (ids.numBands == 0 || ids.numBands == 4 || ids.numBands == 8)
  {
    if |parts| > 0 {
      var init := parts[..|parts| - 1];
      ScanBandShape(init);
      assert forall i :: 0 <= i < |init| ==> init[i] == parts[i];
    }
  }

  /** The multispectral id and band count left by the scan are those of the
      LAST part that has an 8-band or RGBN image, the 8-band image winning
      within that part. */
  lemma {:induction false} ScanKeepsLastMs(parts: seq<Part>)
    ensures forall i :: (0 <= i < |parts| && HasMs(parts[i]) && (forall j :: i < j < |parts| ==> !HasMs(parts[j])))
                        ==> (ScanParts(parts).msId, ScanParts(parts).numBands) == MsOf(parts[i])
  {
    if |parts| > 0 {
      var init := parts[..|parts| - 1];
      var last := parts[|parts| - 1];
      if !HasMs(last) {
        ScanKeepsLastMs(init);
        assert forall i :: 0 <= i < |init| ==> init[i] == parts[i];
      }
    }
  }

  // ------------------------------------------------------------ band composition

  datatype BandError =
    | MissingId    // the client returns False before any request
    | NoneOperand  // `None + '?'` raises TypeError

  /** A pansharpened band text: the listed bands of the multispectral image,
      sharpened with the panchromatic one. */
  function Sharpened(ms: string, bands: string, pan: string): string {
    ms + "?bands=" + bands + "&panId=" + pan
  }

  /** The band-composition text exactly as chipper_py.py computes it,
      including two slips: the MS branch tests `pan_id` although it uses
      `ms_id`, and the 4-band pansharpened branch assigns to `band`, so
      `bands` stays empty. Any other chip type leaves `bands` empty. */
  function ChipBandsAsWritten(chipType: string, ids: BandIds): Result<string, BandError>
  {
    if chipType == "PAN" then
      if !Truthy(ids.panId) then Err(MissingId) else Ok(ids.panId.value + "?bands=0")
    else if chipType == "MS" then
      if !Truthy(ids.panId) then Err(MissingId)
      else if ids.msId.None? then Err(NoneOperand)
      else Ok(ids.msId.value + "?")
    else if chipType == "PS" || chipType == "PS8" then
      if !Truthy(ids.msId) || !Truthy(ids.panId) then Err(MissingId)
      else if ids.numBands == 8 then
        if chipType == "PS8" then Ok(Sharpened(ids.msId.value, "4,2,1,0,3,5,6,7", ids.panId.value))
        else Ok(Sharpened(ids.msId.value, "4,2,1", ids.panId.value))
      else Ok("")
    else Ok("")
  }

  /** The band composition as evidently intended: the MS branch tests the id
      it uses, and a 4-band image gets its RGB composition. */
  function ChipBands(chipType: string, ids: BandIds): Result<string, BandError>
  {
    if chipType == "PAN" then
      if !Truthy(ids.panId) then Err(MissingId) else Ok(ids.panId.value + "?bands=0")
    else if chipType == "MS" then
      if !Truthy(ids.msId) then Err(MissingId) else Ok(ids.msId.value + "?")
    else if chipType == "PS" || chipType == "PS8" then
      if !Truthy(ids.msId) || !Truthy(ids.panId) then Err(MissingId)
      else if ids.numBands == 8 then
        if chipType == "PS8" then Ok(Sharpened(ids.msId.value, "4,2,1,0,3,5,6,7", ids.panId.value))
        else Ok(Sharpened(ids.msId.value, "4,2,1", ids.panId.value))
      else if ids.numBands == 4 then Ok(Sharpened(ids.msId.value, "0,1,2", ids.panId.value))
      else Ok("")
    else Ok("")
  }

  /** The chip types the client knows. */
  predicate KnownChipType(chipType: string) {
    chipType == "PAN" || chipType == "MS" || chipType == "PS" || chipType == "PS8"
  }

  /** The image a chip type is cut from: the panchromatic image for PAN, the
      multispectral one otherwise. */
  function SourceImage(chipType: string, ids: BandIds): Option<string> {
    if chipType == "PAN" then ids.panId else ids.msId
  }

  /** For any description the scan can produce, the intended selection never
      raises; it fails exactly when an id the chip type needs is missing or
      empty, and otherwise names the source image first and, for the
      pansharpened types, the panchromatic image after `&panId=`. */
  lemma IntendedBandsNameTheirImages(chipType: string, parts: seq<Part>)
    requires KnownChipType(chipType)
    ensures var ids := ScanParts(parts);
      var r := ChipBands(chipType, ids);
      && r != Err(NoneOperand)
      && (r.Err? <==> !Truthy(SourceImage(chipType, ids)) || ((chipType == "PS" || chipType == "PS8") && !Truthy(ids.panId)))
      && (r.Ok? ==> StartsWith(r.value, SourceImage(chipType, ids).value + "?"))
      && (r.Ok? && (chipType == "PS" || chipType == "PS8") ==> EndsWith(r.value, "&panId=" + ids.panId.value))
  {
    var ids := ScanParts(parts);
    ScanBandShape(parts);
    var r := ChipBands(chipType, ids);
    if r.Ok? {
      var src := SourceImage(chipType, ids).value;
      assert r.value[..|src + "?"|] == src + "?";
      if (chipType == "PS" || chipType == "PS8") {
        var list := if ids.numBands == 8 && chipType == "PS8" then "4,2,1,0,3,5,6,7"
                    else if ids.numBands == 8 then "4,2,1" else "0,1,2";
        assert r.value == (src + "?bands=" + list) + ("&panId=" + ids.panId.value);
        EndsWithAppend(src + "?bands=" + list, "&panId=" + ids.panId.value);
      }
    }
  }

  /** The as-written selection drops the 4-band pansharpened composition: for
      a 4-band image with both ids present, PS and PS8 request with an empty
      band text (no image id at all), where the intended selection asks for
      bands 0,1,2 of the multispectral image. */
  lemma FourBandCompositionDropped(chipType: string, ids: BandIds)
    requires chipType == "PS" || chipType == "PS8"
    requires ids.numBands == 4 && Truthy(ids.msId) && Truthy(ids.panId)
    ensures ChipBandsAsWritten(chipType, ids) == Ok("")
    ensures ChipBands(chipType, ids) == Ok(Sharpened(ids.msId.value, "0,1,2", ids.panId.value))
  {
  }

  /** The as-written MS branch tests the wrong id: a description with only a
      panchromatic image makes it evaluate `None + '?'` and raise, and one
      with only a multispectral image makes it give up although the image it
      needs is there. The intended selection does the reverse in both cases. */
  lemma MsBranchTestsPanId()
    ensures ScanParts([map[PanKey := "P1"]]) == BandIds(Some("P1"), None, 0)
    ensures ChipBandsAsWritten("MS", ScanParts([map[PanKey := "P1"]])) == Err(NoneOperand)
    ensures ChipBands("MS", ScanParts([map[PanKey := "P1"]])) == Err(MissingId)
    ensures ChipBandsAsWritten("MS", ScanParts([map[FourBandKey := "M1"]])) == Err(MissingId)
    ensures ChipBands("MS", ScanParts([map[FourBandKey := "M1"]])) == Ok("M1?")
  {
    var pan: Part := map[PanKey := "P1"];
    var ms: Part := map[FourBandKey := "M1"];
    assert [pan][..0] == [] && [ms][..0] == [];
    assert pan.Keys == {PanKey} && ms.Keys == {FourBandKey};
    assert PanKey != EightBandKey && PanKey != FourBandKey && FourBandKey != EightBandKey;
    assert ScanParts([pan]) == ScanPart(NoIds, pan);
    assert ScanParts([ms]) == ScanPart(NoIds, ms);
    assert "M1" + "?" == "M1?";
  }

  /** Both selections agree wherever the as-written one neither raises nor
      hits the 4-band slip. */
  lemma SelectionsAgreeOtherwise(chipType: string, ids: BandIds)
    requires chipType != "MS"
    requires !((chipType == "PS" || chipType == "PS8") && ids.numBands == 4)
    ensures ChipBandsAsWritten(chipType, ids) == ChipBands(chipType, ids)
  {
  }

  // ------------------------------------------------------------ area and URL text

  /** The degenerate polygon with all five vertices at the centroid, used as
      the area of the catalog lookup. */
  function BoxWkt(lon: string, lat: string): string
  {
    var point := lon + " " + lat;
    "POLYGON ((" + point + ", " + point + ", " + point + ", " + point + ", " + point + "))"
  }

  /** The box is the centroid repeated as all five vertices. */
  lemma BoxWktVertices(lon: string, lat: string)
    ensures var p := lon + " " + lat;
      BoxWkt(lon, lat) == "POLYGON ((" + Join([p, p, p, p, p], ", ") + "))"
  {
    JoinFive("POLYGON ((", lon + " " + lat, ", ", "))");
  }

  lemma JoinFive(before: string, p: string, sep: string, after: string)
    ensures before + p + sep + p + sep + p + sep + p + sep + p + after
         == before + Join([p, p, p, p, p], sep) + after
  {
    assert [p, p, p, p, p][1..] == [p, p, p, p];
    assert [p, p, p, p][1..] == [p, p, p];
    assert [p, p, p][1..] == [p, p];
    assert [p, p][1..] == [p];
    var j2 := p + sep + p;
    var j3 := p + sep + j2;
    var j4 := p + sep + j3;
    var j5 := p + sep + j4;
    assert Join([p, p], sep) == j2;
    assert Join([p, p, p], sep) == j3;
    assert Join([p, p, p, p], sep) == j4;
    assert Join([p, p, p, p, p], sep) == j5;
    assert before + p + sep + p + sep + p + sep + p + sep + p + after == before + j5 + after;
  }

  /** `geometry.GetEnvelope()`: (minX, maxX, minY, maxY), already rendered. */
  datatype Envelope = Envelope(minX: string, maxX: string, minY: string, maxY: string)

  function UpperLeft(e: Envelope): string { e.minX + "," + e.maxY }
  function LowerRight(e: Envelope): string { e.maxX + "," + e.minY }

  /** The corner texts give back the envelope's coordinates when split at the
      comma, provided no coordinate text contains one: upper-left is
      (minX, maxY), lower-right is (maxX, minY). */
  lemma CornersRoundTrip(e: Envelope)
    requires ',' !in e.minX && ',' !in e.maxX && ',' !in e.minY && ',' !in e.maxY
    ensures Split(UpperLeft(e), ',') == [e.minX, e.maxY]
    ensures Split(LowerRight(e), ',') == [e.maxX, e.minY]
  {
    SplitJoin([e.minX, e.maxY], ',');
    SplitJoin([e.maxX, e.minY], ',');
    assert [e.minX, e.maxY][1..] == [e.maxY];
    assert [e.maxX, e.minY][1..] == [e.minY];
  }

  function ImageParams(width: nat, height: nat, chipFormat: string): string
  {
    "&width=" + DecimalString(width) + "&height=" + DecimalString(height) + "&format=" + chipFormat
  }

  /** `"".join([endpoint, bands, location, image, auth])` of the centroid
      request; the `&doDRA` fragment the source builds is not among them. */
  function CentroidUrl(bands: string, lat: string, lon: string, width: nat, height: nat,
                       chipFormat: string, token: string): string
  {
    Concat([CentroidEndpoint, bands, "&lat=" + lat + "&long=" + lon,
            ImageParams(width, height, chipFormat), "&token=" + token])
  }

  /** The same for the bounding-box request. */
  function BboxUrl(bands: string, e: Envelope, width: nat, height: nat,
                   chipFormat: string, token: string): string
  {
    Concat([BboxEndpoint, bands, "&upperLeft=" + UpperLeft(e) + "&lowerRight=" + LowerRight(e),
            ImageParams(width, height, chipFormat), "&token=" + token])
  }

  /** Joining five texts with nothing between them puts them in order, so
      the result starts with the first two and ends with the last. */
  lemma Concat5(a: string, b: string, c: string, d: string, e: string)
    ensures Concat([a, b, c, d, e]) == a + b + (c + d + e)
    ensures StartsWith(Concat([a, b, c, d, e]), a + b)
    ensures EndsWith(Concat([a, b, c, d, e]), e)
  {
    assert [a, b, c, d, e][1..] == [b, c, d, e];
    assert [b, c, d, e][1..] == [c, d, e];
    assert [c, d, e][1..] == [d, e];
    assert [d, e][1..] == [e];
    assert [e][1..] == [];
    assert Concat([e]) == e;
    assert Concat([d, e]) == d + e;
    assert Concat([c, d, e]) == c + (d + e);
    assert Concat([b, c, d, e]) == b + (c + (d + e));
    var all := a + b + (c + d + e);
    assert all == (a + b) + (c + d + e);
    assert all[..|a + b|] == a + b;
    assert all == (a + b + c + d) + e;
    EndsWithAppend(a + b + c + d, e);
  }

  /** The centroid URL is the endpoint, the band text, the location, the
      image size and format and the token, in that order and with nothing
      between them (no DRA fragment); so it starts with the endpoint and the
      band text and ends with the token. */
  lemma CentroidUrlLayout(bands: string, lat: string, lon: string, width: nat, height: nat,
                          chipFormat: string, token: string)
    ensures CentroidUrl(bands, lat, lon, width, height, chipFormat, token)
         == CentroidEndpoint + bands
            + (("&lat=" + lat + "&long=" + lon)
               + ("&width=" + DecimalString(width) + "&height=" + DecimalString(height) + "&format=" + chipFormat)
               + ("&token=" + token))
    ensures StartsWith(CentroidUrl(bands, lat, lon, width, height, chipFormat, token), CentroidEndpoint + bands)
    ensures EndsWith(CentroidUrl(bands, lat, lon, width, height, chipFormat, token), "&token=" + token)
  {
    Concat5(CentroidEndpoint, bands, "&lat=" + lat + "&long=" + lon, ImageParams(width, height, chipFormat),
            "&token=" + token);
  }

  /** The bounding-box URL is the endpoint, the band text, the two corners
      (upper left `minX,maxY`, lower right `maxX,minY`), the image size and
      format and the token, in that order and with nothing between them. */
  lemma BboxUrlLayout(bands: string, e: Envelope, width: nat, height: nat,
                      chipFormat: string, token: string)
    ensures BboxUrl(bands, e, width, height, chipFormat, token)
         == BboxEndpoint + bands
            + (("&upperLeft=" + UpperLeft(e) + "&lowerRight=" + LowerRight(e))
               + ("&width=" + DecimalString(width) + "&height=" + DecimalString(height) + "&format=" + chipFormat)
               + ("&token=" + token))
    ensures StartsWith(BboxUrl(bands, e, width, height, chipFormat, token), BboxEndpoint + bands)
    ensures EndsWith(BboxUrl(bands, e, width, height, chipFormat, token), "&token=" + token)
  {
    Concat5(BboxEndpoint, bands, "&upperLeft=" + UpperLeft(e) + "&lowerRight=" + LowerRight(e),
            ImageParams(width, height, chipFormat), "&token=" + token);
  }

  // ------------------------------------------------------------ the response

  datatype Response = Response(status: int, content: seq<bv8>)

  /** What the client returns: True after saving the content to the file,
      the raw content when no file name is given, False on any other status;
      and the TypeError of the as-written MS branch. */
  datatype ChipValue =
    | Saved(path: string, content: seq<bv8>)
    | Content(content: seq<bv8>)
    | Unavailable
    | TypeErrorRaised

  /** Python truthiness of the returned value (`if not content:`). */
  predicate ValueTruthy(v: ChipValue)
    requires !v.TypeErrorRaised?
  {
    v.Saved? || (v.Content? && |v.content| > 0)
  }

  function ResponseValue(r: Response, filename: Option<string>): ChipValue
  {
    if r.status == 200 then
      if Truthy(filename) then Saved(filename.value, r.content) else Content(r.content)
    else Unavailable
  }

  /** A status of 200 gives True when there is a file name and the content
      otherwise, and any other status gives False; only the first case
      writes a file, and it writes the response content to that name. */
  lemma ResponseOutcomes(r: Response, filename: Option<string>)
    ensures ResponseValue(r, filename).Saved? <==> r.status == 200 && Truthy(filename)
    ensures ResponseValue(r, filename).Content? <==> r.status == 200 && !Truthy(filename)
    ensures ResponseValue(r, filename) == Unavailable <==> r.status != 200
    ensures ResponseValue(r, filename).Saved? ==> ResponseValue(r, filename) == Saved(filename.value, r.content)
    ensures ValueTruthy(ResponseValue(r, filename)) <==> r.status == 200 && (Truthy(filename) || |r.content| > 0)
  {
  }

  /** The URL requested (if any) and the value returned. */
  datatype ChipCall = ChipCall(url: Option<string>, value: ChipValue)

  function CallWith(bands: Result<string, BandError>, url: string -> string,
                    http: string -> Response, filename: Option<string>): ChipCall
  {
    match bands
    case Err(MissingId) => ChipCall(None, Unavailable)
    case Err(NoneOperand) => ChipCall(None, TypeErrorRaised)
    case Ok(b) => ChipCall(Some(url(b)), ResponseValue(http(url(b)), filename))
  }

  /** A way of choosing the band text for a chip type and the scanned ids:
      ChipBandsAsWritten for the client as it stands, ChipBands for the
      client as intended. */
  type Selection = (string, BandIds) -> Result<string, BandError>

  /** No URL is requested exactly when the selection fails; then the value is
      False for a missing id and the TypeError otherwise. */
  lemma CallWithOutcome(bands: Result<string, BandError>, url: string -> string,
                        http: string -> Response, filename: Option<string>)
    ensures var call := CallWith(bands, url, http, filename);
      && (call.url.None? <==> bands.Err?)
      && (call.value == Unavailable && call.url.None? <==> bands == Err(MissingId))
      && (call.value.TypeErrorRaised? <==> bands == Err(NoneOperand))
      && (bands.Ok? ==> call.url == Some(url(bands.value)) && call.value == ResponseValue(http(url(bands.value)), filename))
  {
  }

  /** `get_chip_from_centroid` as a function of its inputs and oracles. */
  function CentroidChip(select: Selection, describe: (string, string) -> Description, http: string -> Response,
                        token: string, lat: string, lon: string, catid: string, height: nat, width: nat,
                        chipType: string, chipFormat: string, filename: Option<string>): ChipCall
  {
    var ids := ScannedIds(describe(catid, BoxWkt(lon, lat)));
    CallWith(select(chipType, ids), b => CentroidUrl(b, lat, lon, width, height, chipFormat, token), http, filename)
  }

  /** `get_chip_from_wkt` as a function of its inputs and oracles. */
  function WktChip(select: Selection, describe: (string, string) -> Description, envelope: string -> Envelope,
                   http: string -> Response, token: string,
                   wkt: string, catid: string, height: nat, width: nat,
                   chipType: string, chipFormat: string, filename: Option<string>): ChipCall
  {
    var ids := ScannedIds(describe(catid, wkt));
    CallWith(select(chipType, ids), b => BboxUrl(b, envelope(wkt), width, height, chipFormat, token), http, filename)
  }

  /** Downloads one chip around a centroid. The catalog lookup is asked for
      the degenerate box at the centroid. */
  method GetChipFromCentroid(select: Selection, describe: (string, string) -> Description, http: string -> Response,
                             token: string, lat: string, lon: string, catid: string, height: nat := 256, width: nat := 256,
                             chipType: string := "PS", chipFormat: string := "TIF",
                             filename: Option<string> := Some("chip.tif"))
    returns (call: ChipCall)
    ensures call == CentroidChip(select, describe, http, token, lat, lon, catid, height, width, chipType, chipFormat, filename)
  {
    var description := describe(catid, BoxWkt(lon, lat));
    var panId, msId, numBands := ScanIds(description);
    var bands := select(chipType, BandIds(panId, msId, numBands));
    if bands.Err? {
      call := ChipCall(None, if bands.error == MissingId then Unavailable else TypeErrorRaised);
    } else {
      var url := CentroidUrl(bands.value, lat, lon, width, height, chipFormat, token);
      var r := http(url);
      call := ChipCall(Some(url), ResponseValue(r, filename));
    }
  }

  /** Downloads one chip for the bounding box of a WKT geometry. */
  method GetChipFromWkt(select: Selection, describe: (string, string) -> Description, envelope: string -> Envelope,
                        http: string -> Response, token: string,
                        wkt: string, catid: string, height: nat := 768, width: nat := 768,
                        chipType: string := "PS", chipFormat: string := "TIF",
                        filename: Option<string> := Some("chip.tif"))
    returns (call: ChipCall)
    ensures call == WktChip(select, describe, envelope, http, token, wkt, catid, height, width, chipType, chipFormat, filename)
  {
    var description := describe(catid, wkt);
    var panId, msId, numBands := ScanIds(description);
    var bands := select(chipType, BandIds(panId, msId, numBands));
    if bands.Err? {
      call := ChipCall(None, if bands.error == MissingId then Unavailable else TypeErrorRaised);
    } else {
      var url := BboxUrl(bands.value, envelope(wkt), width, height, chipFormat, token);
      var r := http(url);
      call := ChipCall(Some(url), ResponseValue(r, filename));
    }
  }

  /** With the intended selection, a centroid request is sent exactly when
      the description supplies the ids the chip type needs; without them the
      client returns False and nothing is fetched or written. The intended
      client never raises. */
  lemma CentroidRequestIffIds(describe: (string, string) -> Description, http: string -> Response, token: string,
                              lat: string, lon: string, catid: string, height: nat, width: nat,
                              chipType: string, chipFormat: string, filename: Option<string>)
    requires KnownChipType(chipType)
    ensures var call := CentroidChip(ChipBands, describe, http, token, lat, lon, catid, height, width, chipType, chipFormat, filename);
      var ids := ScannedIds(describe(catid, BoxWkt(lon, lat)));
      && !call.value.TypeErrorRaised?
      && (call.url.None? <==> !Truthy(SourceImage(chipType, ids)) || ((chipType == "PS" || chipType == "PS8") && !Truthy(ids.panId)))
      && (call.url.None? ==> call.value == Unavailable)
  {
    IntendedBandsNameTheirImages(chipType, Flatten(describe(catid, BoxWkt(lon, lat))));
  }

  /** The centroid request as written: it raises exactly for an MS chip of a
      description with a panchromatic id and no multispectral one; a 4-band
      PS or PS8 chip with both ids is requested with an empty band text; and
      in every other case it is the intended request. */
  lemma CentroidRequestAsWritten(describe: (string, string) -> Description, http: string -> Response, token: string,
                                 lat: string, lon: string, catid: string, height: nat, width: nat,
                                 chipType: string, chipFormat: string, filename: Option<string>)
    ensures var call := CentroidChip(ChipBandsAsWritten, describe, http, token, lat, lon, catid, height, width, chipType, chipFormat, filename);
      var ids := ScannedIds(describe(catid, BoxWkt(lon, lat)));
      && (call.value.TypeErrorRaised? <==> chipType == "MS" && Truthy(ids.panId) && ids.msId.None?)
      && ((chipType == "PS" || chipType == "PS8") && ids.numBands == 4 && Truthy(ids.msId) && Truthy(ids.panId)
          ==> call.url == Some(CentroidUrl("", lat, lon, width, height, chipFormat, token)))
      && (chipType != "MS" && !((chipType == "PS" || chipType == "PS8") && ids.numBands == 4)
          ==> call == CentroidChip(ChipBands, describe, http, token, lat, lon, catid, height, width, chipType, chipFormat, filename))
  {
    var ids := ScannedIds(describe(catid, BoxWkt(lon, lat)));
    var url := b => CentroidUrl(b, lat, lon, width, height, chipFormat, token);
    CallWithOutcome(ChipBandsAsWritten(chipType, ids), url, http, filename);
    if chipType != "MS" && !((chipType == "PS" || chipType == "PS8") && ids.numBands == 4) {
      SelectionsAgreeOtherwise(chipType, ids);
    }
  }

  /** The same for the bounding-box request. */
  lemma WktRequestAsWritten(describe: (string, string) -> Description, envelope: string -> Envelope,
                            http: string -> Response, token: string,
                            wkt: string, catid: string, height: nat, width: nat,
                            chipType: string, chipFormat: string, filename: Option<string>)
    ensures var call := WktChip(ChipBandsAsWritten, describe, envelope, http, token, wkt, catid, height, width, chipType, chipFormat, filename);
      var ids := ScannedIds(describe(catid, wkt));
      && (call.value.TypeErrorRaised? <==> chipType == "MS" && Truthy(ids.panId) && ids.msId.None?)
      && ((chipType == "PS" || chipType == "PS8") && ids.numBands == 4 && Truthy(ids.msId) && Truthy(ids.panId)
          ==> call.url == Some(BboxUrl("", envelope(wkt), width, height, chipFormat, token)))
      && (chipType != "MS" && !((chipType == "PS" || chipType == "PS8") && ids.numBands == 4)
          ==> call == WktChip(ChipBands, describe, envelope, http, token, wkt, catid, height, width, chipType, chipFormat, filename))
  {
    var ids := ScannedIds(describe(catid, wkt));
    var url := b => BboxUrl(b, envelope(wkt), width, height, chipFormat, token);
    CallWithOutcome(ChipBandsAsWritten(chipType, ids), url, http, filename);
    if chipType != "MS" && !((chipType == "PS" || chipType == "PS8") && ids.numBands == 4) {
      SelectionsAgreeOtherwise(chipType, ids);
    }
  }

  /** The 8-band pansharpened request the download stage sends, with either
      selection: when the last multispectral part of the description is an
      8-band image and the last panchromatic id is present, the URL asks for
      that image in band order 4,2,1,0,3,5,6,7 sharpened with that
      panchromatic image. */
  lemma Ps8Request(describe: (string, string) -> Description, http: string -> Response, token: string,
                   lat: string, lon: string, catid: string, size: nat, filename: Option<string>,
                   i: nat, j: nat)
    requires var parts := Flatten(describe(catid, BoxWkt(lon, lat)));
      && i < |parts| && EightBandKey in parts[i] && parts[i][EightBandKey] != ""
      && (forall k :: i < k < |parts| ==> !HasMs(parts[k]))
      && j < |parts| && PanKey in parts[j] && parts[j][PanKey] != ""
      && (forall k :: j < k < |parts| ==> PanKey !in parts[k])
    ensures var parts := Flatten(describe(catid, BoxWkt(lon, lat)));
      && CentroidChip(ChipBands, describe, http, token, lat, lon, catid, size, size, "PS8", "TIF", filename).url
           == Some(CentroidUrl(Sharpened(parts[i][EightBandKey], "4,2,1,0,3,5,6,7", parts[j][PanKey]),
                               lat, lon, size, size, "TIF", token))
      && CentroidChip(ChipBandsAsWritten, describe, http, token, lat, lon, catid, size, size, "PS8", "TIF", filename).url
        == Some(CentroidUrl(Sharpened(parts[i][EightBandKey], "4,2,1,0,3,5,6,7", parts[j][PanKey]),
                            lat, lon, size, size, "TIF", token))
  {
    var parts := Flatten(describe(catid, BoxWkt(lon, lat)));
    ScanKeepsLastMs(parts);
    ScanKeepsLastPan(parts);
  }
}
