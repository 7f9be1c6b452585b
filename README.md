# gbdx-buffet in Dafny

A model of the statable logic of gbdx-buffet, a set of command-line tools
around the GBDX imagery platform. It searches the catalog, orders imagery,
launches processing workflows, merges vector query results into GeoJSON,
reports transfer progress, and cuts training chips out of imagery. It is
modelled as twelve Dafny modules, one per component of the program:

- **Common** holds the Python text and path operations the scripts use:
  `split`, `join`, `strip`, `endswith`, `lower`, `readlines`, `'{}'.format`
  of a natural number, `os.path.join` and `os.path.basename`.
- **ChipRequest** models the `IdahoM` image client of chipper_py.py. It
  covers:
  - the scan of an image description for the panchromatic and
    multispectral ids;
  - the band composition per chip type;
  - the area text and the request URL;
  - the mapping from the HTTP response to `True`, the content or `False`.
- **ChipPipeline** models the chip pipeline of chipper_py.py, run stage by
  stage over sequences:
  - the POI rows become payloads;
  - the download worker routes each payload to one of two queues;
  - the label worker classifies each chip and writes it to its class
    directories, which `check_and_make_dir` creates;
  - the error log is flushed at the end.
- **GeoJson** models `merge_geojson`. The function exists twice with the
  same body, in gbdx_buffet/__init__.py and gbdx_buffet/fetchGBDxResults.py.
- **Detects** models the class `FetchGBDxResults` and its
  `extract_detects`, which also exists in both files.
- **Catalog** holds:
  - acquisitions and their delivered/undelivered split;
  - the catalog-id column of a shapefile;
  - the id file with its `UND` companion.
- **Workflows** holds the workflow and task values.
- **Buffet** models `workflow_cli`, `launch_workflows` and
  `launch_workflow` of gbdx_buffet/__init__.py.
- **BuffetWorkflow** models buffet_workflow.py.
- **BuffetOrder** models buffet_order.py.
- **Pipeline** models gbdx_buffet/pipeline.py:
  - the two progress callbacks, as classes whose `Call` updates their
    fields;
  - `is_wv`;
  - the key routing of `download_single`.
- **BuffetSearch** models buffet_search.py: `gen_query`, `date2utc`,
  `keep_trying`, `catalog_search` and `order_changed`.

The loops of the source are methods with loop invariants. Each is proved
against a function that specifies it, and the properties the program
promises are lemmas about those functions. Python exceptions are the `Err`
case of a `Result`. Everything outside the program is an oracle passed in
as a total function:
- the image-service catalog and HTTP calls;
- free disk space;
- the label mask;
- `gdal_translate`;
- file reads;
- the ordering service;
- the vector query;
- the regular expression that finds a catalog id in an S3 key;
- the current time.

## Model

| member | source | states |
|---|---|---|
| ChipRequest.ScanIds | chipper_py.py:154-164 | The nested loop over catalogs and parts leaves `pan_id`, `ms_id` and `num_bands` equal to the in-order scan of all parts. The WKT client has an identical loop at chipper_py.py:66-76. |
| ChipRequest.ScanStep | chipper_py.py:157-164 | One part replaces the PAN id found so far when it has one. It replaces the multispectral id with its 8-band id, else its RGBN id, setting the band count to 8 or 4. This is exactly one step of the scan. |
| ChipRequest.ScanKeepsLastPan | chipper_py.py:157-158 | `pan_id` is None exactly when no part has a PAN image. Otherwise it is the PAN id of the last part that has one. |
| ChipRequest.ScanBandShape | chipper_py.py:159-164 | `num_bands` is 0, 4 or 8. It is 0 exactly when `ms_id` is None, which holds exactly when no part has a WORLDVIEW_8_BAND or RGBN image. |
| ChipRequest.ScanKeepsLastMs | chipper_py.py:159-164 | `ms_id` and `num_bands` come from the last part that has a multispectral image. Within that part the 8-band image wins over RGBN, because of the `elif`. |
| ChipRequest.IntendedBandsNameTheirImages | chipper_py.py:166-191 | For every scanned description and every known chip type, the corrected selection never raises. It fails exactly when an id the chip type needs is missing or empty. Otherwise the band text starts with the source image id and `?`, and for PS/PS8 it ends with `&panId=` and the PAN id. |
| ChipRequest.FourBandCompositionDropped | chipper_py.py:189-190 | For a 4-band image with both ids present, the as-written PS/PS8 selection gives the empty band text. The corrected one gives `ms?bands=0,1,2&panId=pan`. |
| ChipRequest.MsBranchTestsPanId | chipper_py.py:173-177 | As written, the MS branch raises TypeError for a description with only a PAN part and returns False for one with only an RGBN part. The corrected branch returns False for the first and `M1?` for the second. |
| ChipRequest.SelectionsAgreeOtherwise | chipper_py.py:166-191 | The as-written and corrected selections are equal for every chip type except MS and every band count except 4. This covers PAN, 8-band PS/PS8 and unknown types, which give `''`. |
| ChipRequest.BoxWktVertices | chipper_py.py:148-149 | The lookup area is `POLYGON ((p, p, p, p, p))`: the point `lon lat` five times, joined by `, `. |
| ChipRequest.CornersRoundTrip | chipper_py.py:104-107 | Splitting the corner texts at the comma gives back (minX, maxY) for upper-left and (maxX, minY) for lower-right. |
| ChipRequest.CentroidUrlLayout | chipper_py.py:193-200 | The URL is the endpoint, the band text, `&lat=..&long=..`, `&width=..&height=..&format=..` and `&token=..`, in that order with nothing between them. The DRA fragment is not among them. The URL starts with the endpoint and the bands and ends with the token. |
| ChipRequest.BboxUrlLayout | chipper_py.py:106-116 | The bounding-box URL is the endpoint, the band text, `&upperLeft=minX,maxY&lowerRight=maxX,minY`, the image size and format and `&token=..`, in that order with nothing between them. It starts with the endpoint and the bands and ends with the token. |
| ChipRequest.ResponseOutcomes | chipper_py.py:204-213 | Status 200 with a truthy filename saves the content under that name and returns True. Status 200 with a falsy filename returns the content. Any other status returns False. The result is truthy exactly for status 200 with a filename or non-empty content. |
| ChipRequest.CallWithOutcome | chipper_py.py:166-213 | No URL is requested exactly when the band selection fails. A missing id then gives False and the `None + '?'` slip gives the TypeError. Otherwise the URL built from the band text is requested and its response mapped. |
| ChipRequest.GetChipFromCentroid | chipper_py.py:131-213 | For the given band selection, the call made and the value returned are those of the centroid request specification. That specification asks the catalog for the box at the centroid, scans the ids, selects the bands, and requests and maps the response. |
| ChipRequest.GetChipFromWkt | chipper_py.py:46-129 | The same for the bounding-box request built from the geometry's envelope. |
| ChipRequest.CentroidRequestIffIds | chipper_py.py:166-201 | With the corrected selection, a request is sent exactly when the description supplies the ids the chip type needs. Without them the client returns False. The corrected client never raises. |
| ChipRequest.CentroidRequestAsWritten | chipper_py.py:166-201 | The centroid client as written raises TypeError exactly for an MS chip of a description with a PAN id and no multispectral id. A 4-band PS/PS8 chip with both ids is requested with an empty band text. In every other case it makes the same call as the corrected client. |
| ChipRequest.WktRequestAsWritten | chipper_py.py:78-117 | The same for the bounding-box client as written. |
| ChipRequest.Ps8Request | chipper_py.py:183-185 | With either selection: when the last multispectral part is 8-band and the last PAN id is present, the PS8 request names that image with bands 4,2,1,0,3,5,6,7 sharpened with that PAN image. |
| ChipPipeline.CheckAndMakeDirOutcome | chipper_py.py:225-233 | On success the path exists, no directory is removed, no file is touched, and only the path and its leading directories are added. The call fails exactly for the empty path (ENOENT) or a new path below an existing file (ENOTDIR). An existing file at the path is accepted, because EEXIST is swallowed. |
| ChipPipeline.CheckAndMakeDirIdempotent | chipper_py.py:225-233 | Making the same directory twice changes nothing the second time. |
| ChipPipeline.Extrema | chipper_py.py:252-253 | `getextrema()` is None exactly for an empty image. Otherwise every pixel lies between the two extrema. |
| ChipPipeline.ClassNameIffBlack | chipper_py.py:251-256 | The class is `None` exactly when the mask has pixels and all of them are 0. Otherwise it is `Powerstations`. |
| ChipPipeline.PngNameAsWrittenNeedsNoDot | chipper_py.py:259-260 | The as-written PNG name succeeds exactly when the basename has no dot, and is then the basename followed by `.png`. |
| ChipPipeline.PngNameAgrees | chipper_py.py:259-260 | The corrected PNG name has no slash, and equals the as-written name wherever the latter succeeds. |
| ChipPipeline.ChipNamesDefeatPngName | chipper_py.py:259-260 | Every chip the pipeline writes, `<dir>/<num>.TIF`, makes the as-written naming raise. The corrected naming gives `<num>.png`. |
| ChipPipeline.LabelAndImageShareName | chipper_py.py:262-270 | The label PNG lies directly in `labels/<class>` and the image PNG directly in `data/<class>`, and both have the same file name. |
| ChipPipeline.WriteFileOutcome | chipper_py.py:265 | Writing a file fails exactly for the empty path, a path that is a directory or a path below a file. Otherwise it adds that one file, keeps the directories, and keeps the disk valid. |
| ChipPipeline.LabelItemDisk | chipper_py.py:243-277 | A successful label pass unpacked a one-element item and produced the outputs of that chip. Both class directories then exist and the disk stays valid. No directory is removed, and the only new directories are the two class paths and their leading directories. The files gain exactly the label PNG and the image PNG. |
| ChipPipeline.LabelWorker | chipper_py.py:236-277 | Items are dequeued only while free space exceeds 25e9: `done` items in all, each with enough space at its dequeue. The outputs are those of the first `done` chips in order. The loop stops for lack of space, an empty queue, or the failing pass it names. Every labelled chip's class directories exist afterwards. No directory is removed, the only new directories are the class paths of the labelled chips and their leading directories, and the files gain exactly the label and image PNGs of the labelled chips. |
| ChipPipeline.FetchedIff | chipper_py.py:294-301 | A payload counts as fetched exactly when the request is sent and answered with 200, and either the chip path is non-empty (the chip is then saved there) or the content is non-empty. |
| ChipPipeline.FetchAsWritten | chipper_py.py:294-296 | The download stage's client as written fetches the same chip as the corrected one unless the image is 4-band. For a 4-band image with both ids it requests the URL with an empty band text. |
| ChipPipeline.RoutingPartition | chipper_py.py:301-307 | Every dequeued payload lands in exactly one of the two queues. Their multisets add up to the dequeued payloads, the not-available queue holds only unfetched payloads and the label queue only fetched ones. |
| ChipPipeline.RouteDownloads | chipper_py.py:284-309 | This is the worker loop with the fetch outcome of each payload abstracted as a test. Payloads are taken in order only while free space exceeds 25e9. The loop stops when space runs out or the work runs out. Failed payloads go unchanged to the not-available queue and the others as `[chip_path]` to the label queue, both in order. |
| ChipPipeline.ChipPathItemsAt | chipper_py.py:306-307 | Item k of the label queue is the one-element list holding the chip path of the k-th fetched payload. |
| ChipPipeline.DownloadWorker | chipper_py.py:280-309 | Dequeuing happens only while free space exceeds 25e9. `done` payloads are dequeued, each counted once, for either band selection of the client. The not-available queue gets the unfetched payloads in order, unchanged. The label queue gets `[chip_path]` of each fetched payload in order. |
| ChipPipeline.ChipPathsDistinct | chipper_py.py:458 | The chip path of row `num` is named `<num>.TIF`, and distinct rows get distinct chip paths. |
| ChipPipeline.EnqueuePayloads | chipper_py.py:454-465 | Row `num` becomes `[value[3], value[1], value[0], output/tifs/<num>.TIF]`, in row order. The loop fails, with IndexError or the directory error, exactly when some row is short or `tifs` cannot be made. |
| ChipPipeline.EnqueueRows | chipper_py.py:454-465 | The same loop for any directory step that changes nothing once it has succeeded. |
| ChipPipeline.ErrorLogAppend | chipper_py.py:472-476 | The error log of two runs of payloads is the first run's log followed by the second's. |
| ChipPipeline.FlushErrorLog | chipper_py.py:472-476 | The log file, opened in `'w'` mode, ends up holding `<payload>,` for every not-available payload in dequeue order. |
| GeoJson.MergeGeojson | gbdx_buffet/__init__.py:182-194 | The merge succeeds exactly when every input has type FeatureCollection and a list of features. The result is then one FeatureCollection holding all input features in input order. Otherwise the first offending input is reported. No inputs give an empty FeatureCollection. gbdx_buffet/fetchGBDxResults.py:35-47 is the same code. |
| GeoJson.AllFeaturesAppend | gbdx_buffet/__init__.py:185-192 | The features of two runs of inputs are those of the first run followed by those of the second, so the merge keeps input order. |
| GeoJson.MergedIsFeatureCollection | gbdx_buffet/__init__.py:183-194 | A merge result passes both checks, and merging it alone gives back its features. |
| GeoJson.MergeOfMerges | gbdx_buffet/__init__.py:182-194 | Merging the merges of two input lists is merging both lists at once. |
| GeoJson.MergeOfCollections | gbdx_buffet/__init__.py:222-231 | Wrapping each result list in a FeatureCollection gives valid inputs, whose merge is the lists concatenated. Its length is the sum of the list lengths. |
| Detects.QueryItemType | gbdx_buffet/__init__.py:197-198 | The item type becomes `*` exactly when it is `all` or `*`. Any type other than `all` is kept. |
| Detects.EsQueryWords | gbdx_buffet/__init__.py:213 | With no spaces in the parts, the query splits into exactly the words `item_type:`, T, `&`, `item_date:[`S, `TO`, E`]`. |
| Detects.AoiResults | gbdx_buffet/__init__.py:217-221 | There is one vector-query answer per AOI, in order. Each is asked with the AOI, the query text, the index and the count. |
| Detects.CollectResults | gbdx_buffet/__init__.py:210-230 | The loop appends exactly one FeatureCollection per AOI, holding that AOI's answer, in AOI order. The copy at gbdx_buffet/fetchGBDxResults.py:75-91 is the same. |
| Detects.MergeAoiResults | gbdx_buffet/__init__.py:217-231 | Merging the per-AOI collections gives one FeatureCollection of all answers concatenated in AOI order. It never fails. |
| Detects.DetectsFeatureCount | gbdx_buffet/__init__.py:217-231 | The merged feature count is the sum of the per-AOI answer counts. |
| Detects.FetchGBDxResults.constructor | gbdx_buffet/__init__.py:172-180 | The object keeps its seven settings. The defaults are those of both copies: `""`, `*`, `now`, `vector-*`, `all` and 200000 (gbdx_buffet/fetchGBDxResults.py:25-32). |
| Detects.FetchGBDxResults.ExtractDetects | gbdx_buffet/__init__.py:196-239 | The item type is rewritten and kept in the object, and no other field changes. The merged result is the merge of the per-AOI answers to the query built from the rewritten type and the dates. The result is written to `<out>/<index>_<type>_<date>.geojson` exactly when the output path is a directory, and returned otherwise. The copy at gbdx_buffet/fetchGBDxResults.py:61-101 is the same. |
| Pipeline.PercentMonotone | gbdx_buffet/pipeline.py:39-40 | `(total * 100) // size` never decreases as the total grows. |
| Pipeline.Overwrite | gbdx_buffet/pipeline.py:44-45 | `seek(0)` then `write` puts the text at the start of the file and keeps any longer old tail. |
| Pipeline.ProgressPercentageFile.constructor | gbdx_buffet/pipeline.py:29-34 | Total and percent start at 0, with the file open and empty. |
| Pipeline.ProgressPercentageFile.Call | gbdx_buffet/pipeline.py:36-49 | The bytes are added to the total. A size of 0 raises ZeroDivisionError after that addition. Otherwise the percent is the new floor percentage and never decreases. An open file is rewritten to hold exactly the new percent, and a closed one is left as it was. The file is now open exactly when it was open and the total is not exactly the size. |
| Pipeline.ProgressPercentageSlack.constructor | gbdx_buffet/pipeline.py:53-58 | As for the file callback, with no posts yet. |
| Pipeline.ProgressPercentageSlack.Call | gbdx_buffet/pipeline.py:60-72 | Exactly one message `<file> is <p>% processed` is posted when the new percent enters a higher tens bracket, and none otherwise. A refused post (status other than 200, gbdx_buffet/pipeline.py:21-25) raises before the close. The file is closed exactly when the total reaches the size, and nothing is ever written to it. |
| Pipeline.SlackPostsBounded | gbdx_buffet/pipeline.py:64-69 | A transfer that never passes its size posts at most ten times. |
| Pipeline.IsWvLastTwo | gbdx_buffet/pipeline.py:75-76 | `is_wv` holds exactly when the platform's last two characters are `0` and then `3` or `4`. |
| Pipeline.RouteKeys | gbdx_buffet/pipeline.py:145-156 | The key loop starts the transfers of the fetched keys in key order. It stops at the first fetched key without a catalog id, and fails exactly when such a key exists. |
| Pipeline.DownloadSingle | gbdx_buffet/pipeline.py:133-156 | The same loop, with `tif`/`imd` keys (any case) fetched and routed by their suffix. |
| Pipeline.TransfersRouted | gbdx_buffet/pipeline.py:147-156 | Every transfer is of a tif or imd key and lands at `/pipeline/data/<catid>.tif` or `.imd`. It has a progress file exactly for tif keys, and other keys are never transferred. |
| Pipeline.KindIgnoresCase | gbdx_buffet/pipeline.py:147-154 | The suffix test gives the same answer for a key and its lower-cased form. |
| BuffetSearch.Date2UtcOfDate | buffet_search.py:61-63 | `Y/M/D` becomes `Y-M-DT00:00:00.000Z`. |
| BuffetSearch.Date2UtcRefuses | buffet_search.py:61-63 | A date raises IndexError exactly when it is non-empty and holds fewer than two `/`. A missing or empty date gives None, and IndexError is the only failure. |
| BuffetSearch.GenQuery | buffet_search.py:51-68 | The query holds exactly a start date, an end date and filters. The filters come in the order cloud cover, sensors, off-nadir, available, each present only for a truthy argument. IndexError from a date is the only failure. |
| BuffetSearch.SensorFilterReplaces | buffet_search.py:57 | The sensor filter is the sensor list in parentheses with every `;` replaced by ` OR `. |
| BuffetSearch.SensorFilterSingle | buffet_search.py:57 | A single sensor becomes `(sensor)`. |
| BuffetSearch.KeepTrying | buffet_search.py:43-49 | Every call before the returned one raised HTTPError, and the returned one did not. Its answer is returned, or its other exception propagates. |
| BuffetSearch.CatalogSearch | buffet_search.py:71-85 | The search is retried across HTTPErrors. An empty answer gives no records, and a non-empty one gives exactly one record, that of the first result, or its KeyError. |
| BuffetSearch.ImageRecordFields | buffet_search.py:77-82 | The record carries `catid`, `type` joined by `\|`, `query_aoi` (the WKT) and `geometry` (the footprint). It fails exactly when there is no footprint. Its keys are the result's properties plus these four, and every other property is kept unchanged. |
| BuffetSearch.OrderChangedIff | buffet_search.py:117-118 | The corrected test holds exactly when the two statuses differ as ordered sequences of entries. |
| BuffetSearch.OrderChangedAsWrittenKeysOnly | buffet_search.py:117-118 | The test as written holds exactly when the sequences of acquisition ids differ. |
| BuffetSearch.DeliveryMissed | buffet_search.py:117-118 | An acquisition going from submitted to delivered is not seen as a change by the test as written, but is seen by the corrected test. |
| Catalog.DeliveryPartition | buffet_order.py:60-61 | Delivered holds exactly the acquisitions in state `delivered`, and undelivered holds `id\n` for each other one, in order. Together they are a partition of the acquisitions (multisets and counts). |
| Catalog.DeliveryAppend | buffet_order.py:60-61 | Both lists of two runs of acquisitions are those of the first run followed by those of the second, so the split keeps order. |
| Catalog.ColumnIdsFirst | gbdx_buffet/__init__.py:99-106 | The ids come from the first listed column that the shapefile has, and the lookup fails exactly when it has none of them. |
| Catalog.UndeliveredRoundTrip | buffet_workflow.py:74-76 | Reading the written undelivered file back, with `\n` stripped from each line, gives the undelivered ids in order. |
| Catalog.RetryReadsUndelivered | buffet_workflow.py:54-60 | An id file whose `UND` companion is such a file yields exactly the undelivered ids. |
| Catalog.IdsFromFileLines | gbdx_buffet/__init__.py:110-117 | No id read from a file contains a newline. Reading fails exactly when neither `file+'UND'` nor `file` exists. |
| Buffet.CliSourcePrecedence | gbdx_buffet/__init__.py:97-119 | A shapefile shadows `--catids` and `--file`, and `--catids` shadows `--file`. A given `--catids` always yields at least one id. No source at all is reported exactly when no truthy file is given either. |
| Buffet.CliColumnPrecedence | gbdx_buffet/__init__.py:99-106 | The shapefile branch takes CATALOGID, else cat_id, else catid. It raises exactly when none is a column. |
| Buffet.LaunchWorkflowShape | gbdx_buffet/__init__.py:131-152 | The tasks are ordering (with impersonation) and strip processing of the ordered data with `enable_pansharpen`, `enable_acomp` and `enable_dra` as given, plus `RasterClip_Extents` of the processed data exactly when a WKT is given. Each task reads only earlier outputs. The last task's output is saved under `name/cat_id`. |
| Buffet.LaunchWorkflows | gbdx_buffet/__init__.py:124-128 | One workflow per reported acquisition, in order, each for that acquisition's id. |
| Buffet.WorkflowCliLaunches | gbdx_buffet/__init__.py:97-128 | `workflow_cli` fails exactly when no ids can be chosen. Otherwise every launched workflow saves its last output under `name/<acquisition id>`, one per acquisition. |
| BuffetWorkflow.PansharpenFalseEnables | buffet_workflow.py:25 | With `type=bool`, the text `False` enables pansharpening, and only an absent or empty text disables it. |
| BuffetWorkflow.RecordFileNames | buffet_workflow.py:28-29 | The two record files have different names. A run over an id file writes its undelivered ids to that file's `UND` companion. |
| BuffetWorkflow.CatalogIdsPrecedence | buffet_workflow.py:47-62 | A shapefile shadows the other sources and raises exactly when it lacks CATALOGID. `--catids` comes next. Only the absence of all three sources raises the "Choose" exception. |
| BuffetWorkflow.LaunchWorkflowShape | buffet_workflow.py:31-42 | The tasks are strip processing of the location (ACOMP on, DRA off), plus `CropGeotiff` of its data exactly when a WKT is given. Each task reads only earlier outputs, and the last task's output is saved under the launch time. |
| BuffetWorkflow.LaunchEach | buffet_workflow.py:67-72 | This is the loop over the delivered acquisitions for any launch function. The k-th workflow is the launch of the k-th acquisition's location, in order, one per acquisition. The file text is their ids concatenated in the same order. |
| BuffetWorkflow.LaunchDelivered | buffet_workflow.py:64-76 | One workflow per delivered acquisition, in order. The DELIVERED file holds their ids concatenated, and the UNDELIVERED file holds `id\n` per other acquisition. |
| BuffetWorkflow.Run | buffet_workflow.py:45-76 | `main` fails exactly when no ids can be chosen (with that error). Otherwise it launches and writes as above, under both file names. |
| BuffetWorkflow.NextRunRetriesUndelivered | buffet_workflow.py:54-60 | The next run over the same id file works on exactly the ids this run left undelivered, in order. |
| BuffetWorkflow.DeliveredTextAmbiguous | buffet_workflow.py:67-72 | The DELIVERED file has no separator, so two different id lists give the same text. |
| BuffetOrder.OrderIdsPrecedence | buffet_order.py:35-54 | A shapefile shadows the other sources and raises exactly when it lacks CATALOGID. `--catids` shadows the file, which is read without any `UND` companion. FileNotFoundError is raised exactly when no truthy file is given or it is missing. |
| BuffetOrder.RunOrderReport | buffet_order.py:56-61 | The report orders the chosen ids. Its delivered list holds exactly the delivered acquisitions, and its undelivered lines are `id\n` of the others in order. Together they count all acquisitions. |
| Common.RecordFileRoundTrip | buffet_workflow.py:74-76 | Lines written with `writelines` of `id\n`, then read with `readlines` and stripped of `\n`, give back the ids. |
| Common.StripLine | gbdx_buffet/__init__.py:114 | `strip('\n')` of a line as `readlines` returns it gives the line without its newline. |
| Common.DecimalRoundTrip | gbdx_buffet/pipeline.py:45 | `'{}'.format(n)` of a natural number reads back as `n`. |
| Common.BasenameOfJoin | chipper_py.py:264 | The basename of a name joined onto a directory is that name, when the name has no slash. |
| Common.KeptDroppedPartition | buffet_workflow.py:65 | The two comprehensions filtering on a test and on its negation split a list into two whose multisets add up to it. |

## Left out

- Multiprocessing is not modelled: the pools, the JoinableQueues, `task_done`/`join`, and the stage order of chipper_py.py `main`. The inline download loop there (chipper_py.py:388-412) blocks on an empty queue before anything is enqueued. Each worker is a sequential loop over a sequence, whose blocking `get` on an empty queue ends the run. `task_done` is the `done` counter.
- The inline download and label loops of chipper_py.py `main` (chipper_py.py:388-451) are left out. They repeat the two workers, except that failed payloads go to `error()`.
- `error()` (chipper_py.py:366-368) is left out: it opens its file in the invalid mode `'wa'`.
- `withhold_data` is left out: it uses random shuffling, float fractions and file copying.
- Free disk space (`os.statvfs`) is an oracle indexed by the number of items dequeued so far.
- The label mask (drago, PIL conversion) and `gdal_translate` are oracles. Saving the label PNG fails only for the empty path, a directory or a path below a file; other I/O errors are not modelled.
- `describe_images`, `get_images_by_catid_and_aoi`, the access token and `requests.get` are oracles. The geometry envelope is given as its four coordinates, already rendered as text.
- Floats are given as their rendered text: latitude/longitude, cloud cover and off-nadir angle. Whether a float is 0.0 is an explicit flag.
- Numbers in GeoJSON are integers.
- `json.dumps` of the written result and the file write itself are not modelled.
- `os.path.join` is modelled without path normalisation.
- ChipRequest.GetChipFromCentroid: takes the band selection as a parameter: ChipRequest.ChipBandsAsWritten for the code as written, ChipRequest.ChipBands as corrected (see Findings).
- ChipRequest.GetChipFromWkt: takes the band selection as a parameter, as above.
- ChipRequest.CentroidRequestIffIds: holds for the corrected client only. The client as written raises TypeError in the MS branch (chipper_py.py:177), as ChipRequest.CentroidRequestAsWritten states.
- ChipPipeline.LabelWorker: uses the corrected PNG name ChipPipeline.PngName. The as-written one raises on every chip the pipeline produces (see Findings). On a failing pass the returned disk is the one before that pass, so a label PNG saved before the failure is not in it.
- ChipPipeline.DownloadWorker: does not model the exceptions of the chip request: the HTTP call is a total oracle and saving the chip cannot fail. In the source an exception from `requests.get` (chipper_py.py:201) or from writing the chip file (chipper_py.py:205-207) ends the worker, so `!stop.Crashed?` holds of the model only. The chip files the worker writes are not tracked on the disk model. A printed payload is not modelled, nor the `Got chip` log. `gdal.Warp` is commented out in the source.
- ChipPipeline.RouteDownloads: its test is total, so its `!stop.Crashed?` likewise holds of the model only.
- ChipPipeline.FlushErrorLog: the payload rendering (`PayloadText`) quotes the two texts and shows the coordinates as given. Python's exact `repr` of floats is not modelled.
- Detects.FetchGBDxResults.ExtractDetects: the AOIs are given as the WKT texts of their geometries. Loading them (fiona, `json.load`) is not modelled; the `with (path, 'r')` of the geojson branch is broken I/O in the source. Iterating a dict AOI, which would go over its keys, is not modelled either. The `now` timestamp and the directory test are parameters. The progress bar is not modelled. The fetchGBDxResults.py copy's `if parser is not None` (line 79) is modelled in script mode, where `parser` exists. `getgbdxinterface` returning None is not modelled.
- Pipeline.ProgressPercentageSlack.Call: `post_slack`'s HTTP request is a parameter (the status Slack answers with). The webhook is not modelled.
- Pipeline.KeyTransfers: the second tif transfer (gbdx_buffet/pipeline.py:152-153) passes `callbacks=` to boto3's `Bucket.download_file`, whose parameter is `Callback`; boto3 is not part of this model, so the model follows the evident intent of two transfers with progress files.
- Pipeline.DownloadSingle: the S3 credentials, the prefix building, the bucket paging (flattened into one key sequence), and the transfers' own failures are not modelled. The catalog-id regular expression is an oracle.
- The rest of gbdx_buffet/pipeline.py is left out: `pipeline_order`, `pipeline_download`, `pipeline_deepcore` and their pandas CSV state.
- `download` of gbdx_buffet/__init__.py is left out, as are buffet_download.py, `check_workflow_cli` and the argparse set-up. These are S3 and SDK glue.
- BuffetSearch.KeepTrying: requires that some call does not raise HTTPError. The source retries for ever otherwise; endless retrying is not modelled.
- BuffetSearch.CatalogSearch: `shapely.wkt.loads` is not modelled, and the geometry is kept as the footprint text. The result count is only logged.
- The `workflow_status` and `order_status` polling loops (with `sleep`) and the `main` of buffet_search.py are left out. Only `order_changed` is modelled.
- `--sensors` is declared with `action='append'`, which gives a list, and `gen_query` calls `.split` on it. The model takes the sensors argument as one text, as `gen_query` treats it.
- The shapefile argument is modelled as present or absent. The truthiness of a GeoDataFrame in `if args.shapefile:` (pandas raises ValueError) is not modelled. In buffet_order.py the shapefile path is read through an oracle.
- `gbdx.ordering.order`, `gbdx.ordering.location` and `Workflow.execute` are oracles or left out; the order id is only logged.
- Printing and logging are not modelled.

## Findings

| source | as written | input that shows it | evidently intended | confidence | as-written member | corrected member |
|---|---|---|---|---|---|---|
| chipper_py.py:259 | `png_name, = os.path.basename(image_path).split(".")` unpacks the pieces between all dots into one name | any chip the pipeline writes, e.g. `out/tifs/0.TIF`: the basename `0.TIF` splits into two pieces and the unpack raises ValueError | the basename with its extension replaced by `.png`, e.g. `0.png` | high; not executed | ChipPipeline.ChipNamesDefeatPngName | ChipPipeline.PngNameAgrees |
| chipper_py.py:190 | the 4-band pansharpened branch assigns to `band`, so `bands` stays `''` | PS chip of a description whose last multispectral part is RGBN (ids `M`, `P`): the URL carries no image id | `bands = ms_id + '?bands=0,1,2&panId=' + pan_id` | high; not executed | ChipRequest.FourBandCompositionDropped | ChipRequest.IntendedBandsNameTheirImages |
| chipper_py.py:174 | the MS branch tests `pan_id` and then uses `ms_id` | MS chip of a description with only a PAN part: `None + '?'` raises TypeError; with only an RGBN part it returns False | test `ms_id` | high; not executed | ChipRequest.MsBranchTestsPanId | ChipRequest.IntendedBandsNameTheirImages |
| buffet_search.py:118 | `zip(prev, curr)` over two dicts pairs their keys, so only lengths and acquisition ids are compared | acquisition `104001001ED23100` going from `submitted` to `delivered`: no change is seen and no workflow is launched | compare the status entries, as the loop at buffet_search.py:143 does | medium; not executed | BuffetSearch.DeliveryMissed | BuffetSearch.OrderChangedIff |

The same two slips as at chipper_py.py:174 and chipper_py.py:190 occur in
the WKT client at chipper_py.py:86 and chipper_py.py:101.
ChipRequest.ChipBandsAsWritten models the code as written.
ChipRequest.ChipBands is the corrected selection. Both clients take the
selection as a parameter, and ChipRequest.CentroidRequestAsWritten and
ChipRequest.WktRequestAsWritten relate the two.
