/** buffet_order.py: order the images of the chosen catalog ids and report
    which acquisitions are delivered and which are not yet. */
module BuffetOrder {
  import opened Common
  import opened Catalog

  /** The ids of `main`: the CATALOGID column of the shapefile at the given
      path, else `--catids`, else the lines of the id file. With none of them
      `main` raises `FileNotFoundError`, as it does for a missing id file. */
  function OrderIds(shapefile: Option<string>, catids: Option<string>, catfile: Option<string>,
                    readShapefile: string -> Shapefile, read: FileReader)
    : Result<seq<string>, IdError>
  {
    if Truthy(shapefile) then
      var master := readShapefile(shapefile.value);
      if "CATALOGID" !in master.columns then Err(NoCatalogIdColumn) else Ok(master.columns["CATALOGID"])
    else if catids.Some? then Ok(Split(catids.value, ','))
    else if Truthy(catfile) then
      match read(catfile.value)
      case Some(text) => Ok(FileLines(text))
      case None => Err(FileNotFound)
    else Err(FileNotFound)
  }

  /** Each source shadows the ones after it; the id file is read as it is,
      without looking for an `UND` companion; no source at all is reported
      as a missing file. */
  lemma OrderIdsPrecedence(path: string, catids: Option<string>, catfile: Option<string>,
                           readShapefile: string -> Shapefile, read: FileReader,
                           catids2: Option<string>, catfile2: Option<string>, read2: FileReader,
                           ids: string, file: string)
    requires path != "" && file != ""
    ensures OrderIds(Some(path), catids, catfile, readShapefile, read)
         == OrderIds(Some(path), catids2, catfile2, readShapefile, read2)
    ensures OrderIds(Some(path), catids, catfile, readShapefile, read) == Err(NoCatalogIdColumn)
        <==> "CATALOGID" !in readShapefile(path).columns
    ensures OrderIds(None, Some(ids), catfile, readShapefile, read)
         == OrderIds(None, Some(ids), catfile2, readShapefile, read2)
    ensures read(file) == read2(file) ==>
              OrderIds(None, None, Some(file), readShapefile, read) == OrderIds(None, None, Some(file), readShapefile, read2)
    ensures OrderIds(None, None, catfile, readShapefile, read) == Err(FileNotFound)
        <==> !Truthy(catfile) || read(catfile.value).None?
  {
  }

  /** What `main` reports after ordering. */
  datatype Report = Report(ordered: seq<string>, delivered: seq<Acquisition>, undelivered: seq<string>)

  /** `main` after argument parsing: `locate` answers
      `gbdx.ordering.location(ids)['acquisitions']`. */
  function RunOrder(shapefile: Option<string>, catids: Option<string>, catfile: Option<string>,
                    readShapefile: string -> Shapefile, read: FileReader, locate: seq<string> -> seq<Acquisition>)
    : Result<Report, IdError>
  {
    match OrderIds(shapefile, catids, catfile, readShapefile, read)
    case Err(e) => Err(e)
    case Ok(ids) =>
      var acqs := locate(ids);
      Ok(Report(ids, Delivered(acqs), UndeliveredLines(acqs)))
  }

  /** The report orders the chosen ids and splits their acquisitions: the
      delivered ones in order, one line per other acquisition, together as
      many as there are acquisitions. */
  lemma RunOrderReport(shapefile: Option<string>, catids: Option<string>, catfile: Option<string>,
                       readShapefile: string -> Shapefile, read: FileReader, locate: seq<string> -> seq<Acquisition>)
    ensures var r := RunOrder(shapefile, catids, catfile, readShapefile, read, locate);
      var ids := OrderIds(shapefile, catids, catfile, readShapefile, read);
      && (r.Err? <==> ids.Err?)
      && (r.Ok? ==> var acqs := locate(ids.value);
            && r.value.ordered == ids.value
            && (forall o :: o in r.value.delivered <==> o in acqs && o.state == DeliveredState)
            && |r.value.delivered| + |r.value.undelivered| == |acqs|
            && (forall k :: 0 <= k < |r.value.undelivered| ==>
                  r.value.undelivered[k] == NotDelivered(acqs)[k].acquisitionId + "\n"))
  {
    var ids := OrderIds(shapefile, catids, catfile, readShapefile, read);
    if ids.Ok? {
      DeliveryPartition(locate(ids.value));
    }
  }
}
