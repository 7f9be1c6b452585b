/** buffet_workflow.py: launch a processing workflow for every delivered
    acquisition of the chosen catalog ids, record the delivered ids, and
    leave the undelivered ids in a file the next run reads first. */
module BuffetWorkflow {
  import opened Common
  import opened Catalog
  import opened Workflows

  /** `type=bool` of argparse on the text of `--pansharpen`: any non-empty
      text, "False" included, enables it. */
  function BoolArgument(text: Option<string>): bool
  {
    Truthy(text)
  }

  lemma PansharpenFalseEnables()
    ensures BoolArgument(Some("False"))
    ensures !BoolArgument(None) && !BoolArgument(Some(""))
  {
  }

  /** `UNDELIVERED`: "UND", or the id file's name followed by "UND". */
  function UndeliveredFile(catfile: Option<string>): string
  {
    if catfile.None? then "UND" else catfile.value + "UND"
  }

  /** `DELIVERED`: "DELIV", or the id file's name followed by "DELIV". */
  function DeliveredFile(catfile: Option<string>): string
  {
    if catfile.None? then "DELIV" else catfile.value + "DELIV"
  }

  /** The two record files differ from each other, and the undelivered file
      of a run over an id file is the companion the next run over the same
      file reads first. */
  lemma RecordFileNames(catfile: Option<string>)
    ensures UndeliveredFile(catfile) != DeliveredFile(catfile)
    ensures catfile.Some? ==> UndeliveredFile(catfile) == catfile.value + "UND"
  {
    var u, d := UndeliveredFile(catfile), DeliveredFile(catfile);
    var n := |u| - 3;
    if catfile.Some? {
      assert u[n..] == "UND";
      assert |d| == n + 5;
    } else {
      assert |u| == 3 && |d| == 5;
    }
  }

  /** The ids of `main`: the shapefile's CATALOGID column when a shapefile
      is given, else `--catids`, else the id file with its `UND` companion
      first, else an error. */
  function CatalogIds(shapefile: Option<Shapefile>, catids: Option<string>, catfile: Option<string>, read: FileReader)
    : Result<seq<string>, IdError>
  {
    if shapefile.Some? then ColumnIds(shapefile.value, ["CATALOGID"])
    else if catids.Some? then Ok(Split(catids.value, ','))
    else if Truthy(catfile) then IdsFromFile(catfile.value, read)
    else Err(NoIdSource)
  }

  /** Each source shadows the ones after it, a shapefile without a CATALOGID
      column is an error whatever else is given, and only the absence of all
      three sources leaves no ids. */
  lemma CatalogIdsPrecedence(shp: Shapefile, catids: Option<string>, catfile: Option<string>, read: FileReader,
                             catids2: Option<string>, catfile2: Option<string>, read2: FileReader, ids: string)
    ensures CatalogIds(Some(shp), catids, catfile, read) == CatalogIds(Some(shp), catids2, catfile2, read2)
    ensures CatalogIds(Some(shp), catids, catfile, read) == Err(NoCatalogIdColumn) <==> "CATALOGID" !in shp.columns
    ensures "CATALOGID" in shp.columns ==> CatalogIds(Some(shp), catids, catfile, read) == Ok(shp.columns["CATALOGID"])
    ensures CatalogIds(None, Some(ids), catfile, read) == Ok(Split(ids, ','))
    ensures CatalogIds(None, None, catfile, read) == Err(NoIdSource) <==> !Truthy(catfile)
  {
    assert ["CATALOGID"][1..] == [];
    assert ColumnIds(shp, ["CATALOGID"]) == if "CATALOGID" in shp.columns then Ok(shp.columns["CATALOGID"]) else ColumnIds(shp, []);
  }

  /** `launch_workflow(location)`: process the strip at `location`, crop it
      to the WKT when one is given, and save the last task's output under
      `now` (the launch time in ISO format). */
  function LaunchWorkflow(location: string, pansharpen: bool, wkt: Option<string>, now: string): Workflow
  {
    var aop := Task("AOP_Strip_Processor",
                    map["data" := Text(location), "enable_acomp" := Flag(true),
                        "enable_pansharpen" := Flag(pansharpen), "enable_dra" := Flag(false)],
                    false);
    if Truthy(wkt) then
      var crop := Task("CropGeotiff", map["data" := OutputOf(0, DataPort), "wkt" := Text(wkt.value)], false);
      Workflow([aop, crop], OutputOf(1, DataPort), now)
    else
      Workflow([aop], OutputOf(0, DataPort), now)
  }

  /** The workflow processes the delivered strip, crops it exactly when a
      WKT is given, reads only earlier outputs and saves the last task's. */
  lemma LaunchWorkflowShape(location: string, pansharpen: bool, wkt: Option<string>, now: string)
    ensures var w := LaunchWorkflow(location, pansharpen, wkt, now);
      && FeedsForward(w.tasks) && SavesLastOutput(w)
      && Names(w.tasks) == ["AOP_Strip_Processor"] + (if Truthy(wkt) then ["CropGeotiff"] else [])
      && w.tasks[0].inputs["data"] == Text(location)
      && w.tasks[0].inputs["enable_acomp"] == Flag(true) && w.tasks[0].inputs["enable_dra"] == Flag(false)
      && (Truthy(wkt) ==> w.tasks[1].inputs == map["data" := OutputOf(0, DataPort), "wkt" := Text(wkt.value)])
      && w.location == now
  {
    var w := LaunchWorkflow(location, pansharpen, wkt, now);
    assert Names(w.tasks)[0] == "AOP_Strip_Processor";
  }

  /** The two files `main` leaves behind. */
  datatype Records = Records(deliveredName: string, deliveredText: string, undeliveredName: string, undeliveredText: string)

  /** Appending one more delivered id to the delivered file's text. */
  lemma DeliveredTextStep(seen: seq<Acquisition>, o: Acquisition)
    ensures Concat(Ids(seen + [o])) == Concat(Ids(seen)) + o.acquisitionId
  {
    IdsAppend(seen, [o]);
    assert Ids([o]) == [o.acquisitionId];
    ConcatAppend(Ids(seen), [o.acquisitionId]);
    assert Concat([o.acquisitionId]) == o.acquisitionId + Concat([]);
  }

  /** The loop of `main` over the delivered acquisitions, for any way
      `launch(location, k)` of launching the k-th workflow: one workflow
      per acquisition, in order, and the ids appended to the delivered
      file's text. */
  method LaunchEach(delivered: seq<Acquisition>, launch: (string, nat) -> Workflow)
    returns (workflows: seq<Workflow>, text: string)
    ensures |workflows| == |delivered|
    ensures forall k :: 0 <= k < |workflows| ==> workflows[k] == launch(delivered[k].location, k)
    ensures text == Concat(Ids(delivered))
  {
    workflows, text := [], "";
    var i := 0;
    ghost var seen: seq<Acquisition> := [];
    while i < |delivered|
      invariant 0 <= i <= |delivered|
      invariant |workflows| == i
      invariant forall k :: 0 <= k < i ==> workflows[k] == launch(delivered[k].location, k)
      invariant |seen| == i && forall k :: 0 <= k < i ==> seen[k] == delivered[k]
      invariant text == Concat(Ids(seen))
    {
      var o := delivered[i];
      workflows := workflows + [launch(o.location, i)];
      DeliveredTextStep(seen, o);
      text := text + o.acquisitionId;
      seen := seen + [o];
      i := i + 1;
    }
    assert seen == delivered;
  }

  /** `main` after the ids are chosen: for each delivered acquisition, in
      order, launch its workflow and append its id to the delivered file;
      then write the undelivered lines. `now(k)` is the launch time of the
      k-th workflow. */
  method LaunchDelivered(acqs: seq<Acquisition>, catfile: Option<string>, pansharpen: bool, wkt: Option<string>,
                         now: nat -> string)
    returns (workflows: seq<Workflow>, records: Records)
    ensures |workflows| == |Delivered(acqs)|
    ensures forall k :: 0 <= k < |workflows| ==>
              workflows[k] == LaunchWorkflow(Delivered(acqs)[k].location, pansharpen, wkt, now(k))
    ensures records.deliveredName == DeliveredFile(catfile) && records.undeliveredName == UndeliveredFile(catfile)
    ensures records.deliveredText == Concat(Ids(Delivered(acqs)))
    ensures records.undeliveredText == Concat(UndeliveredLines(acqs))
  {
    var text;
    workflows, text := LaunchEach(Delivered(acqs), (location, k: nat) => LaunchWorkflow(location, pansharpen, wkt, now(k)));
    records := Records(DeliveredFile(catfile), text, UndeliveredFile(catfile), Concat(UndeliveredLines(acqs)));
  }

  /** `main`: the chosen ids failed, or the launched
      workflows and the two files written. */
  method Run(shapefile: Option<Shapefile>, catids: Option<string>, catfile: Option<string>, read: FileReader,
              locate: seq<string> -> seq<Acquisition>, pansharpen: bool, wkt: Option<string>, now: nat -> string)
    returns (r: Result<(seq<Workflow>, Records), IdError>)
    ensures r.Err? <==> CatalogIds(shapefile, catids, catfile, read).Err?
    ensures r.Err? ==> r.error == CatalogIds(shapefile, catids, catfile, read).error
    ensures r.Ok? ==> var acqs := locate(CatalogIds(shapefile, catids, catfile, read).value);
      && |r.value.0| == |Delivered(acqs)|
      && (forall k :: 0 <= k < |r.value.0| ==>
            r.value.0[k] == LaunchWorkflow(Delivered(acqs)[k].location, pansharpen, wkt, now(k)))
      && r.value.1.deliveredName == DeliveredFile(catfile)
      && r.value.1.deliveredText == Concat(Ids(Delivered(acqs)))
      && r.value.1.undeliveredName == UndeliveredFile(catfile)
      && r.value.1.undeliveredText == Concat(UndeliveredLines(acqs))
  {
    var ids := CatalogIds(shapefile, catids, catfile, read);
    if ids.Err? {
      return Err(ids.error);
    }
    var workflows, records := LaunchDelivered(locate(ids.value), catfile, pansharpen, wkt, now);
    return Ok((workflows, records));
  }

  /** A run over an id file leaves its undelivered ids where the next run
      over the same file looks first, so the next run works on exactly
      those ids, in the order they were reported. */
  lemma NextRunRetriesUndelivered(catfile: string, acqs: seq<Acquisition>, read: FileReader,
                                  catids: Option<string>)
    requires forall k :: 0 <= k < |acqs| ==> '\n' !in acqs[k].acquisitionId
    requires read(UndeliveredFile(Some(catfile))) == Some(Concat(UndeliveredLines(acqs)))
    requires catfile != ""
    ensures CatalogIds(None, None, Some(catfile), read) == Ok(Ids(NotDelivered(acqs)))
  {
    RetryReadsUndelivered(catfile, read, acqs);
  }

  /** The delivered file joins the ids with no separator, so it does not
      determine them: two different delivered lists give the same text. */
  lemma DeliveredTextAmbiguous()
    ensures Concat(["ab", "c"]) == Concat(["a", "bc"])
  {
    assert Concat(["c"]) == "c" + Concat([]);
    assert Concat(["bc"]) == "bc" + Concat([]);
    assert Concat(["ab", "c"]) == "ab" + Concat(["c"]);
    assert Concat(["a", "bc"]) == "a" + Concat(["bc"]);
  }
}
