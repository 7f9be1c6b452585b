/** What the ordering scripts (gbdx_buffet/__init__.py, buffet_workflow.py,
    buffet_order.py) share: the acquisitions the ordering service reports,
    their split into delivered and undelivered ones, the catalog-id column of
    a shapefile, and catalog-id files (one id per line) with the `UND` file
    a previous run leaves behind. */
module Catalog {
  import opened Common

  /** One entry of `gbdx.ordering.location(ids)['acquisitions']`. */
  datatype Acquisition = Acquisition(acquisitionId: string, state: string, location: string)

  const DeliveredState := "delivered"

  predicate IsDelivered(o: Acquisition) {
    o.state == DeliveredState
  }

  /** `[o for o in acquisitions if o['state'] == 'delivered']` */
  function Delivered(acqs: seq<Acquisition>): seq<Acquisition>
  {
    Kept(IsDelivered, acqs)
  }

  /** The acquisitions in any other state, in order. */
  function NotDelivered(acqs: seq<Acquisition>): seq<Acquisition>
  {
    Dropped(IsDelivered, acqs)
  }

  function Ids(acqs: seq<Acquisition>): (r: seq<string>)
    ensures |r| == |acqs|
    ensures forall k :: 0 <= k < |acqs| ==> r[k] == acqs[k].acquisitionId
  {
    if |acqs| == 0 then [] else [acqs[0].acquisitionId] + Ids(acqs[1..])
  }

  /** `[o['acquisition_id'] + '\n' for o in acquisitions if o['state'] != 'delivered']` */
  function UndeliveredLines(acqs: seq<Acquisition>): seq<string>
  {
    NewlineTerminated(Ids(NotDelivered(acqs)))
  }

  /** Every acquisition is delivered or not, never both: the two lists
      together are the acquisitions, and each list holds exactly the
      acquisitions in its state. */
  lemma DeliveryPartition(acqs: seq<Acquisition>)
    ensures multiset(Delivered(acqs)) + multiset(NotDelivered(acqs)) == multiset(acqs)
    ensures |Delivered(acqs)| + |UndeliveredLines(acqs)| == |acqs|
    ensures forall o :: o in Delivered(acqs) <==> o in acqs && o.state == DeliveredState
    ensures forall o :: o in NotDelivered(acqs) <==> o in acqs && o.state != DeliveredState
    ensures forall k :: 0 <= k < |UndeliveredLines(acqs)| ==>
              UndeliveredLines(acqs)[k] == NotDelivered(acqs)[k].acquisitionId + "\n"
  {
    KeptDroppedPartition(IsDelivered, acqs);
    KeptDroppedTests(IsDelivered, acqs);
    assert |multiset(Delivered(acqs))| + |multiset(NotDelivered(acqs))| == |multiset(acqs)|;
    forall o
      ensures o in Delivered(acqs) <==> o in acqs && o.state == DeliveredState
      ensures o in NotDelivered(acqs) <==> o in acqs && o.state != DeliveredState
    {
      assert o in acqs <==> o in multiset(acqs);
      assert o in Delivered(acqs) <==> o in multiset(Delivered(acqs));
      assert o in NotDelivered(acqs) <==> o in multiset(NotDelivered(acqs));
    }
  }

  /** Both lists keep the order of the acquisitions: splitting two runs of
      acquisitions one after the other gives the lists of their
      concatenation. */
  lemma DeliveryAppend(a: seq<Acquisition>, b: seq<Acquisition>)
    ensures Delivered(a + b) == Delivered(a) + Delivered(b)
    ensures UndeliveredLines(a + b) == UndeliveredLines(a) + UndeliveredLines(b)
  {
    KeptDroppedAppend(IsDelivered, a, b);
    IdsAppend(NotDelivered(a), NotDelivered(b));
    NewlineTerminatedAppend(Ids(NotDelivered(a)), Ids(NotDelivered(b)));
  }

  lemma IdsAppend(a: seq<Acquisition>, b: seq<Acquisition>)
    ensures Ids(a + b) == Ids(a) + Ids(b)
  {
  }

  lemma NewlineTerminatedAppend(a: seq<string>, b: seq<string>)
    ensures NewlineTerminated(a + b) == NewlineTerminated(a) + NewlineTerminated(b)
  {
  }

  /** A shapefile, as the columns of its attribute table. */
  datatype Shapefile = Shapefile(columns: map<string, seq<string>>)

  datatype IdError =
    | NoCatalogIdColumn   // the shapefile has none of the accepted columns
    | NoIdSource          // no shapefile, ids or id file was given
    | FileNotFound        // the id file does not exist

  /** The values of the first of `names` that is a column of the shapefile. */
  function ColumnIds(shp: Shapefile, names: seq<string>): Result<seq<string>, IdError>
  {
    if |names| == 0 then Err(NoCatalogIdColumn)
    else if names[0] in shp.columns then Ok(shp.columns[names[0]])
    else ColumnIds(shp, names[1..])
  }

  /** The column lookup fails exactly when no accepted name is a column, and
      otherwise gives the column of the earliest accepted name present. */
  lemma {:induction false} ColumnIdsFirst(shp: Shapefile, names: seq<string>)
    ensures ColumnIds(shp, names).Err? <==> forall k :: 0 <= k < |names| ==> names[k] !in shp.columns
    ensures ColumnIds(shp, names).Ok? ==>
              exists i :: && 0 <= i < |names| && names[i] in shp.columns
                          && (forall j :: 0 <= j < i ==> names[j] !in shp.columns)
                          && ColumnIds(shp, names) == Ok(shp.columns[names[i]])
  {
    if |names| > 0 && names[0] !in shp.columns {
      ColumnIdsFirst(shp, names[1..]);
      if ColumnIds(shp, names).Ok? {
        var i :| && 0 <= i < |names[1..]| && names[1..][i] in shp.columns
                 && (forall j :: 0 <= j < i ==> names[1..][j] !in shp.columns)
                 && ColumnIds(shp, names[1..]) == Ok(shp.columns[names[1..][i]]);
        assert names[i + 1] in shp.columns;
        assert forall j :: 0 <= j < i + 1 ==> names[j] !in shp.columns by {
          forall j | 0 <= j < i + 1 ensures names[j] !in shp.columns {
            if j > 0 { assert names[j] == names[1..][j - 1]; }
          }
        }
      } else {
        forall k | 0 <= k < |names| ensures names[k] !in shp.columns {
          if k > 0 { assert names[k] == names[1..][k - 1]; }
        }
      }
    } else if |names| > 0 {
      assert names[0] in shp.columns;
    }
  }

  /** `open(path).read()`; `None` when the file does not exist. */
  type FileReader = string -> Option<string>

  /** `[s.strip('\n') for s in f.readlines()]` */
  function FileLines(text: string): seq<string>
  {
    StripNewlines(ReadLines(text))
  }

  /** Reading the ids of a file whose `UND` companion, when it exists, holds
      the ids a previous run could not use yet: the companion first, the
      file itself when the companion does not exist. */
  function IdsFromFile(file: string, read: FileReader): Result<seq<string>, IdError>
  {
    match read(file + "UND")
    case Some(text) => Ok(FileLines(text))
    case None =>
      match read(file)
      case Some(text) => Ok(FileLines(text))
      case None => Err(FileNotFound)
  }

  /** The file written from the undelivered lines of a run reads back as
      exactly the ids of the undelivered acquisitions, in order (when no id
      holds a line break). */
  lemma UndeliveredRoundTrip(acqs: seq<Acquisition>)
    requires forall k :: 0 <= k < |acqs| ==> '\n' !in acqs[k].acquisitionId
    ensures FileLines(Concat(UndeliveredLines(acqs))) == Ids(NotDelivered(acqs))
  {
    var und := NotDelivered(acqs);
    DeliveryPartition(acqs);
    forall k | 0 <= k < |Ids(und)| ensures '\n' !in Ids(und)[k] {
      assert und[k] in acqs;
    }
    RecordFileRoundTrip(Ids(und));
  }

  /** With the `UND` companion present, the next run reads the ids left
      undelivered by the previous one, whatever the plain file holds. */
  lemma RetryReadsUndelivered(file: string, read: FileReader, acqs: seq<Acquisition>)
    requires forall k :: 0 <= k < |acqs| ==> '\n' !in acqs[k].acquisitionId
    requires read(file + "UND") == Some(Concat(UndeliveredLines(acqs)))
    ensures IdsFromFile(file, read) == Ok(Ids(NotDelivered(acqs)))
  {
    UndeliveredRoundTrip(acqs);
  }

  /** No id read from a file holds a line break, and the file is read only
      when its `UND` companion is missing. */
  lemma IdsFromFileLines(file: string, read: FileReader)
    ensures IdsFromFile(file, read).Ok? ==> forall k :: 0 <= k < |IdsFromFile(file, read).value| ==>
              '\n' !in IdsFromFile(file, read).value[k]
    ensures IdsFromFile(file, read).Err? <==> read(file + "UND").None? && read(file).None?
  {
    match read(file + "UND")
    case Some(text) => StrippedLinesFree(text);
    case None =>
      match read(file)
      case Some(text) => StrippedLinesFree(text);
      case None =>
  }
}
