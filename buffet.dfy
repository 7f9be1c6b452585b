/** `workflow_cli` and `launch_workflow` of gbdx_buffet/__init__.py: choose
    where the catalog ids come from, then launch one ordering workflow per
    acquisition the ordering service reports for them. */
module Buffet {
  import opened Common
  import opened Catalog
  import opened Workflows

  /** The accepted catalog-id columns of a shapefile, in order of preference. */
  const IdColumns := ["CATALOGID", "cat_id", "catid"]

  /** The ids of `workflow_cli`: from the shapefile when one is given, else
      from `--catids` (split on commas), else from `--file`, else an error. */
  function CliCatalogIds(shapefile: Option<Shapefile>, catids: Option<string>, file: Option<string>, read: FileReader)
    : Result<seq<string>, IdError>
  {
    if shapefile.Some? then ColumnIds(shapefile.value, IdColumns)
    else if catids.Some? then Ok(Split(catids.value, ','))
    else if Truthy(file) then IdsFromFile(file.value, read)
    else Err(NoIdSource)
  }

  /** Each source shadows the ones after it: with a shapefile neither the ids
      nor the file matter, with ids the file does not matter, and only when
      none is given is there no source. A given `--catids`, even an empty
      one, always counts, since splitting never gives an empty list. */
  lemma CliSourcePrecedence(shp: Shapefile, catids: Option<string>, file: Option<string>, read: FileReader,
                            catids2: Option<string>, file2: Option<string>, read2: FileReader, ids: string)
    ensures CliCatalogIds(Some(shp), catids, file, read) == CliCatalogIds(Some(shp), catids2, file2, read2)
    ensures CliCatalogIds(None, Some(ids), file, read) == CliCatalogIds(None, Some(ids), file2, read2)
    ensures CliCatalogIds(None, Some(ids), file, read).Ok?
         && |CliCatalogIds(None, Some(ids), file, read).value| >= 1
    ensures CliCatalogIds(None, None, file, read) == Err(NoIdSource) <==> !Truthy(file)
  {
    if Truthy(file) {
      IdsFromFileLines(file.value, read);
    }
  }

  /** The shapefile branch takes the first of CATALOGID, cat_id, catid that
      is a column, and fails only when none is. */
  lemma CliColumnPrecedence(shp: Shapefile, catids: Option<string>, file: Option<string>, read: FileReader)
    ensures var r := CliCatalogIds(Some(shp), catids, file, read);
      && (r == Err(NoCatalogIdColumn) <==> "CATALOGID" !in shp.columns && "cat_id" !in shp.columns && "catid" !in shp.columns)
      && ("CATALOGID" in shp.columns ==> r == Ok(shp.columns["CATALOGID"]))
      && ("CATALOGID" !in shp.columns && "cat_id" in shp.columns ==> r == Ok(shp.columns["cat_id"]))
      && ("CATALOGID" !in shp.columns && "cat_id" !in shp.columns && "catid" in shp.columns ==> r == Ok(shp.columns["catid"]))
  {
    var rest1, rest2, rest3 := IdColumns[1..], IdColumns[2..], IdColumns[3..];
    assert rest1 == ["cat_id", "catid"] && rest1[1..] == rest2;
    assert rest2 == ["catid"] && rest2[1..] == rest3;
    assert rest3 == [];
    assert ColumnIds(shp, rest3) == Err(NoCatalogIdColumn);
    assert ColumnIds(shp, rest2) == if "catid" in shp.columns then Ok(shp.columns["catid"]) else ColumnIds(shp, rest3);
    assert ColumnIds(shp, rest1) == if "cat_id" in shp.columns then Ok(shp.columns["cat_id"]) else ColumnIds(shp, rest2);
    assert ColumnIds(shp, IdColumns) == if "CATALOGID" in shp.columns then Ok(shp.columns["CATALOGID"]) else ColumnIds(shp, rest1);
  }

  /** `launch_workflow(cat_id, name, ...)`: order the image, process the
      strip, clip it to the WKT when one is given, and save the output of
      the last task under `name/cat_id`. */
  function LaunchWorkflow(catId: string, name: string, pansharpen: bool, dra: bool, acomp: bool, wkt: Option<string>)
    : Workflow
  {
    var order := Task("Auto_Ordering", map["cat_id" := Text(catId)], true);
    var aop := Task("AOP_Strip_Processor",
                    map["data" := OutputOf(0, "s3_location"), "enable_pansharpen" := Flag(pansharpen),
                        "enable_acomp" := Flag(acomp), "enable_dra" := Flag(dra)],
                    false);
    var tasks := [order, aop];
    if Truthy(wkt) then
      var clip := Task("RasterClip_Extents", map["raster" := OutputOf(|tasks| - 1, DataPort), "wkt" := Text(wkt.value)], false);
      Workflow(tasks + [clip], OutputOf(|tasks|, DataPort), PathJoin(name, catId))
    else
      Workflow(tasks, OutputOf(|tasks| - 1, DataPort), PathJoin(name, catId))
  }

  /** The workflow orders, then processes what was ordered with the three
      processing switches as given, then clips the processed strip exactly
      when a WKT is given; each task reads only
      earlier outputs, and the saved output is always the last task's. */
  lemma LaunchWorkflowShape(catId: string, name: string, pansharpen: bool, dra: bool, acomp: bool, wkt: Option<string>)
    ensures var w := LaunchWorkflow(catId, name, pansharpen, dra, acomp, wkt);
      && FeedsForward(w.tasks) && SavesLastOutput(w)
      && Names(w.tasks) == ["Auto_Ordering", "AOP_Strip_Processor"] + (if Truthy(wkt) then ["RasterClip_Extents"] else [])
      && w.tasks[0].inputs == map["cat_id" := Text(catId)] && w.tasks[0].impersonationAllowed
      && w.tasks[1].inputs["data"] == OutputOf(0, "s3_location")
      && w.tasks[1].inputs["enable_pansharpen"] == Flag(pansharpen)
      && w.tasks[1].inputs["enable_acomp"] == Flag(acomp)
      && w.tasks[1].inputs["enable_dra"] == Flag(dra)
      && (Truthy(wkt) ==> w.tasks[2].inputs == map["raster" := OutputOf(1, DataPort), "wkt" := Text(wkt.value)])
      && w.location == PathJoin(name, catId)
  {
    var w := LaunchWorkflow(catId, name, pansharpen, dra, acomp, wkt);
    var names := Names(w.tasks);
    if Truthy(wkt) {
      assert |names| == 3 && names[0] == "Auto_Ordering" && names[1] == "AOP_Strip_Processor"
          && names[2] == "RasterClip_Extents";
    } else {
      assert |names| == 2 && names[0] == "Auto_Ordering" && names[1] == "AOP_Strip_Processor";
    }
  }

  /** `launch_workflows`: one workflow per acquisition reported for the ids,
      in the order reported. */
  function LaunchWorkflows(acqs: seq<Acquisition>, name: string, pansharpen: bool, dra: bool, acomp: bool, wkt: Option<string>)
    : (r: seq<Workflow>)
    ensures |r| == |acqs|
    ensures forall k :: 0 <= k < |acqs| ==> r[k] == LaunchWorkflow(acqs[k].acquisitionId, name, pansharpen, dra, acomp, wkt)
  {
    if |acqs| == 0 then []
    else [LaunchWorkflow(acqs[0].acquisitionId, name, pansharpen, dra, acomp, wkt)]
         + LaunchWorkflows(acqs[1..], name, pansharpen, dra, acomp, wkt)
  }

  /** `gbdx.ordering.location(ids)['acquisitions']` */
  type Locator = seq<string> -> seq<Acquisition>

  /** `workflow_cli` after argument parsing. */
  function WorkflowCli(shapefile: Option<Shapefile>, catids: Option<string>, file: Option<string>, read: FileReader,
                       locate: Locator, name: string, pansharpen: bool, dra: bool, acomp: bool, wkt: Option<string>)
    : Result<seq<Workflow>, IdError>
  {
    match CliCatalogIds(shapefile, catids, file, read)
    case Err(e) => Err(e)
    case Ok(ids) => Ok(LaunchWorkflows(locate(ids), name, pansharpen, dra, acomp, wkt))
  }

  /** Every launched workflow saves under `name/<acquisition id>` and is
      launched for an acquisition of the chosen ids, one per acquisition. */
  lemma WorkflowCliLaunches(shapefile: Option<Shapefile>, catids: Option<string>, file: Option<string>, read: FileReader,
                            locate: Locator, name: string, pansharpen: bool, dra: bool, acomp: bool, wkt: Option<string>)
    ensures var r := WorkflowCli(shapefile, catids, file, read, locate, name, pansharpen, dra, acomp, wkt);
      && (r.Err? <==> CliCatalogIds(shapefile, catids, file, read).Err?)
      && (r.Ok? ==> var acqs := locate(CliCatalogIds(shapefile, catids, file, read).value);
                    && |r.value| == |acqs|
                    && forall k :: 0 <= k < |acqs| ==>
                         SavesLastOutput(r.value[k]) && r.value[k].location == PathJoin(name, acqs[k].acquisitionId))
  {
    var r := WorkflowCli(shapefile, catids, file, read, locate, name, pansharpen, dra, acomp, wkt);
    if r.Ok? {
      var acqs := locate(CliCatalogIds(shapefile, catids, file, read).value);
      forall k | 0 <= k < |acqs|
        ensures SavesLastOutput(r.value[k]) && r.value[k].location == PathJoin(name, acqs[k].acquisitionId)
      {
        LaunchWorkflowShape(acqs[k].acquisitionId, name, pansharpen, dra, acomp, wkt);
      }
    }
  }
}
