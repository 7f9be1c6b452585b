/** The chip pipeline of chipper_py.py, one stage at a time and sequentially:
    POI rows become download payloads, the download worker fetches a
    pansharpened chip per payload and routes it to the label queue or the
    not-available queue, the label worker classifies each chip by its mask
    and derives the class-partitioned output paths, and the not-available
    payloads are flushed to the error log.

    Queues are sequences read from the front; a blocking `get` on an empty
    queue ends the worker's run. Free space (`os.statvfs`), the rendered
    label mask, `gdal_translate` and the image service are oracles. Directories
    on disk are a set of paths. */
module ChipPipeline {
  import opened Common
  import opened ChipRequest

  /** A worker only dequeues while more than 25 GB are free. */
  const MinFreeSpace: int := 25_000_000_000

  const DataDir := "data"
  const LabelDir := "labels"
  const ClassDir := "Powerstations"
  const NoClassDir := "None"
  const TifsDir := "tifs"

  /** Width and height of every chip the download stage asks for. */
  const ChipSize: nat := 2048

  datatype PipelineError =
    | IndexError        // a POI row with fewer than four cells
    | UnpackError       // `x, = ...` over a sequence whose length is not 1
    | NotADirectory     // a directory or file asked for below a path that is a file
    | IsADirectory      // a file written at a path that is a directory
    | NoSuchPath        // a directory asked for at the empty path
    | TranscodeFailed   // `gdal_translate` exits with an error

  /** Why a worker's loop ended: free space fell to the threshold, the queue
      ran dry (the real worker then blocks for ever), or a step raised. */
  datatype Stop = NoSpace | QueueEmpty | Crashed(error: PipelineError)

  // ------------------------------------------------------------ directories

  /** The directories that exist and the other (non-directory) paths that
      exist. */
  datatype Disk = Disk(dirs: set<string>, files: set<string>)

  /** The proper leading directories of a path: every prefix ending just
      before an inner slash. */
  function Ancestors(path: string): set<string>
    decreases |path|
  {
    if |path| == 0 then {}
    else
      var init := path[..|path| - 1];
      Ancestors(init) + if path[|path| - 1] == '/' && init != "" then {init} else {}
  }

  /** No path is both a directory and a file. */
  predicate ValidDisk(d: Disk)
  {
    d.dirs !! d.files
  }

  /** `check_and_make_dir`: an existing directory is left alone; otherwise
      `os.makedirs(path, exist_ok=True)` creates the path and its missing
      leading directories; the EEXIST it raises when the path is an existing
      file is swallowed, the ENOTDIR of a leading path that is a file and the
      ENOENT of the empty path are not. */
  function CheckAndMakeDir(d: Disk, path: string): Result<Disk, PipelineError>
  {
    if path == "" then Err(NoSuchPath)
    else if path in d.dirs then Ok(d)
    else if path in d.files then Ok(d)
    else if Ancestors(path) * d.files != {} then Err(NotADirectory)
    else Ok(Disk(d.dirs + Ancestors(path) + {path}, d.files))
  }

  /** After a successful call the path exists and the disk is still valid;
      only directories are added, and only the path and its leading
      directories; the call fails exactly for the empty path or for a new
      path below an existing file. */
  lemma CheckAndMakeDirOutcome(d: Disk, path: string)
    requires ValidDisk(d)
    ensures var r := CheckAndMakeDir(d, path);
      && (r == Err(NoSuchPath) <==> path == "")
      && (r == Err(NotADirectory) <==> path != "" && path !in d.dirs + d.files && Ancestors(path) * d.files != {})
      && (r.Err? ==> r == Err(NoSuchPath) || r == Err(NotADirectory))
      && (r.Ok? ==> && ValidDisk(r.value)
                    && path in r.value.dirs + r.value.files
                    && d.dirs <= r.value.dirs
                    && r.value.dirs - d.dirs <= Ancestors(path) + {path}
                    && r.value.files == d.files)
  {
    var r := CheckAndMakeDir(d, path);
    if r.Ok? && r.value != d {
      var e := r.value;
      assert Ancestors(path) * d.files == {};
      assert forall q :: q in Ancestors(path) && q in d.files ==> q in Ancestors(path) * d.files;
    }
  }

  /** Asking twice for the same directory changes nothing the second time. */
  lemma CheckAndMakeDirIdempotent(d: Disk, path: string)
    requires ValidDisk(d)
    requires CheckAndMakeDir(d, path).Ok?
    ensures CheckAndMakeDir(CheckAndMakeDir(d, path).value, path) == CheckAndMakeDir(d, path)
  {
    CheckAndMakeDirOutcome(d, path);
  }

  // ------------------------------------------------------------ labels

  function Min(a: int, b: int): int { if a <= b then a else b }
  function Max(a: int, b: int): int { if a <= b then b else a }

  /** `getextrema()` of a gray image given as its pixel values: the least and
      the greatest pixel, or nothing for an image without pixels. */
  function Extrema(px: seq<int>): (r: Option<(int, int)>)
    ensures r.None? <==> |px| == 0
    ensures r.Some? ==> forall k :: 0 <= k < |px| ==> r.value.0 <= px[k] <= r.value.1
  {
    if |px| == 0 then None
    else
      var rest := Extrema(px[1..]);
      assert forall k :: 1 <= k < |px| ==> px[k] == px[1..][k - 1];
      if rest.None? then Some((px[0], px[0]))
      else Some((Min(px[0], rest.value.0), Max(px[0], rest.value.1)))
  }

  /** Both extrema are pixels of the image. */
  lemma {:induction false} ExtremaAttained(px: seq<int>)
    requires |px| > 0
    ensures Extrema(px).value.0 in px && Extrema(px).value.1 in px
  {
    if |px| > 1 {
      ExtremaAttained(px[1..]);
      assert forall v :: v in px[1..] ==> v in px;
    }
  }

  /** The class directory of a chip: `None` when the label mask is black,
      `Powerstations` otherwise. */
  function ClassName(mask: seq<int>): string
  {
    if Extrema(mask) == Some((0, 0)) then NoClassDir else ClassDir
  }

  /** A chip goes to the `None` class exactly when its mask has pixels and
      every one of them is 0. */
  lemma ClassNameIffBlack(mask: seq<int>)
    ensures ClassName(mask) == NoClassDir <==> |mask| > 0 && forall k :: 0 <= k < |mask| ==> mask[k] == 0
    ensures ClassName(mask) == NoClassDir || ClassName(mask) == ClassDir
  {
    if |mask| > 0 && forall k :: 0 <= k < |mask| ==> mask[k] == 0 {
      ExtremaAttained(mask);
      var e := Extrema(mask).value;
      assert e.0 == 0 && e.1 == 0;
    }
  }

  /** The PNG name exactly as chipper_py.py derives it: the basename split at
      every dot must yield exactly one piece. */
  function PngNameAsWritten(imagePath: string): Result<string, PipelineError>
  {
    var pieces := Split(Basename(imagePath), '.');
    if |pieces| != 1 then Err(UnpackError) else Ok(pieces[0] + ".png")
  }

  /** The as-written naming succeeds exactly when the basename has no dot,
      and then appends `.png` to the whole basename. */
  lemma PngNameAsWrittenNeedsNoDot(imagePath: string)
    ensures PngNameAsWritten(imagePath).Ok? <==> '.' !in Basename(imagePath)
    ensures '.' !in Basename(imagePath) ==> PngNameAsWritten(imagePath) == Ok(Basename(imagePath) + ".png")
  {
    SplitSingle(Basename(imagePath), '.');
  }

  /** A file name without its last extension (everything before the last
      dot); a name without dot is kept whole. */
  function DropExtension(name: string): string
  {
    if '.' !in name then name
    else if name[|name| - 1] == '.' then name[..|name| - 1]
    else DropExtension(name[..|name| - 1])
  }

  /** Dropping the extension keeps a leading part of the name, and keeps a
      name without dot whole. */
  lemma {:induction false} DropExtensionPrefix(name: string)
    ensures var r := DropExtension(name);
      |r| <= |name| && r == name[..|r|] && ('.' !in name ==> r == name)
  {
    if '.' in name && name[|name| - 1] != '.' {
      var init := name[..|name| - 1];
      DropExtensionPrefix(init);
      var r := DropExtension(init);
      assert name[..|r|] == init[..|r|];
    }
  }

  /** Dropping the extension of `stem.ext` gives back the stem, whatever
      dots the stem has. */
  lemma {:induction false} DropExtensionOf(stem: string, ext: string)
    requires '.' !in ext
    ensures DropExtension(stem + "." + ext) == stem
  {
    var name := stem + "." + ext;
    assert name[|stem|] == '.';
    if |ext| == 0 {
      assert name[..|name| - 1] == stem;
    } else {
      assert name[..|name| - 1] == stem + "." + ext[..|ext| - 1];
      assert ext[|ext| - 1] in ext;
      DropExtensionOf(stem, ext[..|ext| - 1]);
    }
  }

  /** The PNG name as evidently intended: the basename with its extension
      replaced by `.png`. */
  function PngName(imagePath: string): string
  {
    DropExtension(Basename(imagePath)) + ".png"
  }

  /** The intended name never contains a slash, and agrees with the
      as-written one wherever that one succeeds. */
  lemma PngNameAgrees(imagePath: string)
    ensures '/' !in PngName(imagePath)
    ensures PngNameAsWritten(imagePath).Ok? ==> PngNameAsWritten(imagePath).value == PngName(imagePath)
  {
    var base := Basename(imagePath);
    var stem := DropExtension(base);
    DropExtensionPrefix(base);
    BasenameNoSlash(imagePath);
    assert forall k :: 0 <= k < |stem| ==> stem[k] == base[k];
    PngNameAsWrittenNeedsNoDot(imagePath);
  }

  /** `"{}.TIF".format(num)` */
  function ChipFileName(num: nat): string
  {
    DecimalString(num) + ".TIF"
  }

  lemma ChipFileNameChars(num: nat)
    ensures '/' !in ChipFileName(num) && '.' !in DecimalString(num)
    ensures !StartsWith(ChipFileName(num), "/")
    ensures ChipFileName(num) == DecimalString(num) + "." + "TIF"
  {
    var d := DecimalString(num);
    assert ChipFileName(num)[0] == d[0];
    assert forall k :: 0 <= k < |d| ==> ChipFileName(num)[k] == d[k];
  }

  /** Every chip the pipeline downloads is named `<num>.TIF`, so the
      as-written naming raises on each of them, while the intended one names
      the PNG `<num>.png`. */
  lemma ChipNamesDefeatPngName(dir: string, num: nat)
    ensures PngNameAsWritten(PathJoin(dir, ChipFileName(num))) == Err(UnpackError)
    ensures PngName(PathJoin(dir, ChipFileName(num))) == DecimalString(num) + ".png"
  {
    ChipFileNameChars(num);
    var path := PathJoin(dir, ChipFileName(num));
    BasenameOfJoin(dir, ChipFileName(num));
    assert ChipFileName(num)[|DecimalString(num)|] == '.';
    PngNameAsWrittenNeedsNoDot(path);
    DropExtensionOf(DecimalString(num), "TIF");
  }

  /** `os.path.join(output_path, area, class_name)` */
  function ClassPath(outputPath: string, area: string, className: string): string
  {
    PathJoinAll(outputPath, [area, className])
  }

  /** Where one chip's label mask and PNG image are written. */
  datatype LabelOutput = LabelOutput(className: string, labelPng: string, imagePng: string)

  function LabelItemOutput(outputPath: string, imagePath: string, className: string): LabelOutput
  {
    var name := PngName(imagePath);
    LabelOutput(className, PathJoin(ClassPath(outputPath, LabelDir, className), name),
                PathJoin(ClassPath(outputPath, DataDir, className), name))
  }

  /** The label and the image of a chip get the same file name, the PNG name
      of the chip, each directly inside its class directory (labels and data
      respectively). */
  lemma LabelAndImageShareName(outputPath: string, imagePath: string, className: string)
    ensures var o := LabelItemOutput(outputPath, imagePath, className);
      var name := PngName(imagePath);
      && Basename(o.labelPng) == name && Basename(o.imagePng) == name
      && o.labelPng == JoinPrefix(ClassPath(outputPath, LabelDir, className)) + name
      && o.imagePng == JoinPrefix(ClassPath(outputPath, DataDir, className)) + name
  {
    var name := PngName(imagePath);
    PngNameAgrees(imagePath);
    assert name[0] != '/';
    BasenameOfJoin(ClassPath(outputPath, LabelDir, className), name);
    BasenameOfJoin(ClassPath(outputPath, DataDir, className), name);
    PathJoinRelative(ClassPath(outputPath, LabelDir, className), name, name);
    PathJoinRelative(ClassPath(outputPath, DataDir, className), name, name);
  }

  /** Creating a file at a path (`label.save`, and the output file of
      `gdal_translate`): refused for the empty path, for a path that is a
      directory and for a path below a file; otherwise the path becomes a
      file (an existing file is overwritten). */
  function WriteFile(d: Disk, path: string): Result<Disk, PipelineError>
  {
    if path == "" then Err(NoSuchPath)
    else if path in d.dirs then Err(IsADirectory)
    else if Ancestors(path) * d.files != {} then Err(NotADirectory)
    else Ok(Disk(d.dirs, d.files + {path}))
  }

  /** A write fails for exactly the three reasons, and otherwise adds that one
      file and leaves the directories and the validity of the disk alone. */
  lemma WriteFileOutcome(d: Disk, path: string)
    requires ValidDisk(d)
    ensures var r := WriteFile(d, path);
      && (r.Ok? <==> path != "" && path !in d.dirs && Ancestors(path) * d.files == {})
      && (r == Err(IsADirectory) <==> path != "" && path in d.dirs)
      && (r.Ok? ==> ValidDisk(r.value) && r.value.dirs == d.dirs && r.value.files == d.files + {path})
  {
  }

  /** The directories a pass for one chip may create: both class directories
      and their leading directories. */
  function OutputDirs(outputPath: string, o: LabelOutput): set<string>
  {
    var l := ClassPath(outputPath, LabelDir, o.className);
    var i := ClassPath(outputPath, DataDir, o.className);
    Ancestors(l) + {l} + Ancestors(i) + {i}
  }

  /** One pass of the label worker's loop: unpack the one-element item,
      classify the chip, make the label class directory and save the mask
      there, make the data class directory and transcode the chip into it;
      any failure raises. A transcode whose output cannot be created fails
      like any other `gdal_translate` error. */
  function LabelItem(outputPath: string, mask: string -> seq<int>, transcode: (string, string) -> bool,
                     d: Disk, item: seq<string>): Result<(Disk, LabelOutput), PipelineError>
  {
    if |item| != 1 then Err(UnpackError)
    else
      var imagePath := item[0];
      var className := ClassName(mask(imagePath));
      var out := LabelItemOutput(outputPath, imagePath, className);
      match CheckAndMakeDir(d, ClassPath(outputPath, LabelDir, className))
      case Err(e) => Err(e)
      case Ok(d1) =>
        match WriteFile(d1, out.labelPng)
        case Err(e) => Err(e)
        case Ok(d2) =>
          match CheckAndMakeDir(d2, ClassPath(outputPath, DataDir, className))
          case Err(e) => Err(e)
          case Ok(d3) =>
            if !transcode(imagePath, out.imagePng) then Err(TranscodeFailed)
            else
              match WriteFile(d3, out.imagePng)
              case Err(_) => Err(TranscodeFailed)
              case Ok(d4) => Ok((d4, out))
  }

  /** A successful pass unpacked a one-element item and produced that chip's
      outputs. It leaves a valid disk holding both class directories, removes
      no directory and creates none outside the two class paths, and adds
      exactly the label PNG and the image PNG to the files. */
  lemma LabelItemDisk(outputPath: string, mask: string -> seq<int>, transcode: (string, string) -> bool,
                      d: Disk, item: seq<string>)
    requires ValidDisk(d)
    ensures var r := LabelItem(outputPath, mask, transcode, d, item);
      r.Ok? ==> && |item| == 1
                && r.value.1 == Labeller(outputPath, mask)(item[0])
                && ValidDisk(r.value.0)
                && d.dirs <= r.value.0.dirs
                && r.value.0.dirs - d.dirs <= OutputDirs(outputPath, r.value.1)
                && r.value.0.files == d.files + {r.value.1.labelPng, r.value.1.imagePng}
                && ClassPath(outputPath, LabelDir, r.value.1.className) in r.value.0.dirs + r.value.0.files
                && ClassPath(outputPath, DataDir, r.value.1.className) in r.value.0.dirs + r.value.0.files
  {
    if |item| == 1 {
      var className := ClassName(mask(item[0]));
      var out := LabelItemOutput(outputPath, item[0], className);
      var p1 := ClassPath(outputPath, LabelDir, className);
      var p2 := ClassPath(outputPath, DataDir, className);
      CheckAndMakeDirOutcome(d, p1);
      if CheckAndMakeDir(d, p1).Ok? {
        var d1 := CheckAndMakeDir(d, p1).value;
        WriteFileOutcome(d1, out.labelPng);
        if WriteFile(d1, out.labelPng).Ok? {
          var d2 := WriteFile(d1, out.labelPng).value;
          CheckAndMakeDirOutcome(d2, p2);
          if CheckAndMakeDir(d2, p2).Ok? {
            WriteFileOutcome(CheckAndMakeDir(d2, p2).value, out.imagePng);
          }
        }
      }
    }
  }

  /** The chips labelled so far are the first ones of the queue, each
      dequeued with more than the minimum free, with the outputs of its
      class. */
  ghost predicate LabelledPrefix<T>(queue: seq<seq<string>>, freeSpace: nat -> int, f: string -> T, written: seq<T>)
  {
    && |written| <= |queue|
    && (forall k :: 0 <= k < |written| ==> freeSpace(k) > MinFreeSpace)
    && SingleItems(queue[..|written|])
    && written == MapFirst(f, queue[..|written|])
  }

  predicate SingleItems(items: seq<seq<string>>)
  {
    forall k :: 0 <= k < |items| ==> |items[k]| == 1
  }

  /** A function applied to the one element of each item, in order. */
  function MapFirst<T>(f: string -> T, items: seq<seq<string>>): (r: seq<T>)
    requires SingleItems(items)
    ensures |r| == |items|
  {
    if |items| == 0 then [] else MapFirst(f, items[..|items| - 1]) + [f(items[|items| - 1][0])]
  }

  /** Each result belongs to the item at the same place. */
  lemma {:induction false} MapFirstAt<T>(f: string -> T, items: seq<seq<string>>)
    requires SingleItems(items)
    ensures forall k :: 0 <= k < |items| ==> MapFirst(f, items)[k] == f(items[k][0])
  {
    if |items| > 0 {
      MapFirstAt(f, items[..|items| - 1]);
    }
  }

  /** The outputs the label stage derives for a chip path. */
  function Labeller(outputPath: string, mask: string -> seq<int>): string -> LabelOutput
  {
    p => LabelItemOutput(outputPath, p, ClassName(mask(p)))
  }

  /** The class directories of everything labelled so far exist. */
  predicate ClassDirsExist(outputPath: string, d: Disk, written: seq<LabelOutput>)
  {
    forall k :: 0 <= k < |written| ==>
      && ClassPath(outputPath, LabelDir, written[k].className) in d.dirs + d.files
      && ClassPath(outputPath, DataDir, written[k].className) in d.dirs + d.files
  }

  /** A successful pass of the label loop extends the labelled prefix by one
      chip. */
  lemma LabelStep<T>(queue: seq<seq<string>>, freeSpace: nat -> int, f: string -> T, written: seq<T>, out: T)
    requires LabelledPrefix(queue, freeSpace, f, written)
    requires |written| < |queue| && freeSpace(|written|) > MinFreeSpace
    requires |queue[|written|]| == 1 && out == f(queue[|written|][0])
    ensures LabelledPrefix(queue, freeSpace, f, written + [out])
  {
    MapFirstSnoc(f, queue, |written|);
  }

  /** The class directories made by a pass join those already there. */
  lemma ClassDirsStep(outputPath: string, d: Disk, written: seq<LabelOutput>, d': Disk, out: LabelOutput)
    requires ClassDirsExist(outputPath, d, written)
    requires d.dirs <= d'.dirs && d.files <= d'.files
    requires ClassPath(outputPath, LabelDir, out.className) in d'.dirs + d'.files
    requires ClassPath(outputPath, DataDir, out.className) in d'.dirs + d'.files
    ensures ClassDirsExist(outputPath, d', written + [out])
  {
    assert forall k :: 0 <= k < |written| ==> (written + [out])[k] == written[k];
  }

  /** The directories the passes for the given chips may create. */
  function MadeDirs(outputPath: string, written: seq<LabelOutput>): set<string>
  {
    if |written| == 0 then {}
    else MadeDirs(outputPath, written[..|written| - 1]) + OutputDirs(outputPath, written[|written| - 1])
  }

  /** The label and image PNGs of the given chips. */
  function WrittenFiles(written: seq<LabelOutput>): set<string>
  {
    if |written| == 0 then {}
    else WrittenFiles(written[..|written| - 1]) + {written[|written| - 1].labelPng, written[|written| - 1].imagePng}
  }

  /** One more chip adds its own directories and files. */
  lemma MadeSnoc(outputPath: string, written: seq<LabelOutput>, out: LabelOutput)
    ensures MadeDirs(outputPath, written + [out]) == MadeDirs(outputPath, written) + OutputDirs(outputPath, out)
    ensures WrittenFiles(written + [out]) == WrittenFiles(written) + {out.labelPng, out.imagePng}
  {
    assert (written + [out])[..|written|] == written;
  }

  /** One more item extends the run of one-element items and its mapping by
      one. */
  lemma MapFirstSnoc<T>(f: string -> T, queue: seq<seq<string>>, n: nat)
    requires n < |queue| && SingleItems(queue[..n]) && |queue[n]| == 1
    ensures SingleItems(queue[..n + 1])
    ensures MapFirst(f, queue[..n + 1]) == MapFirst(f, queue[..n]) + [f(queue[n][0])]
  {
    var items := queue[..n + 1];
    assert items[..n] == queue[..n] && items[n] == queue[n];
    assert forall k :: 0 <= k < n ==> items[k] == queue[..n][k];
  }

  /** `label_worker`: while more than the minimum is free, take the next
      chip, write its label and image into their class directories, and
      mark it done. */
  method LabelWorker(queue: seq<seq<string>>, freeSpace: nat -> int, mask: string -> seq<int>,
                     transcode: (string, string) -> bool, outputPath: string, disk: Disk)
    returns (written: seq<LabelOutput>, done: nat, stop: Stop, diskOut: Disk)
    requires ValidDisk(disk)
    ensures done == |written| <= |queue|
    ensures forall k :: 0 <= k < done ==> freeSpace(k) > MinFreeSpace
    ensures SingleItems(queue[..done]) && written == MapFirst(Labeller(outputPath, mask), queue[..done])
    ensures stop == NoSpace <==> freeSpace(done) <= MinFreeSpace
    ensures stop == QueueEmpty <==> freeSpace(done) > MinFreeSpace && done == |queue|
    ensures stop.Crashed? ==> done < |queue| && LabelItem(outputPath, mask, transcode, diskOut, queue[done]) == Err(stop.error)
    ensures ValidDisk(diskOut) && disk.dirs <= diskOut.dirs
    ensures diskOut.dirs - disk.dirs <= MadeDirs(outputPath, written)
    ensures diskOut.files == disk.files + WrittenFiles(written)
    ensures forall k :: 0 <= k < done ==>
      && ClassPath(outputPath, LabelDir, written[k].className) in diskOut.dirs + diskOut.files
      && ClassPath(outputPath, DataDir, written[k].className) in diskOut.dirs + diskOut.files
  {
    written, done, diskOut := [], 0, disk;
    while done < |queue| && freeSpace(done) > MinFreeSpace
      invariant done == |written|
      invariant LabelledPrefix(queue, freeSpace, Labeller(outputPath, mask), written)
      invariant ValidDisk(diskOut) && disk.dirs <= diskOut.dirs
      invariant diskOut.dirs - disk.dirs <= MadeDirs(outputPath, written)
      invariant diskOut.files == disk.files + WrittenFiles(written)
      invariant ClassDirsExist(outputPath, diskOut, written)
      decreases |queue| - done
    {
      var step := LabelItem(outputPath, mask, transcode, diskOut, queue[done]);
      if step.Err? {
        stop := Crashed(step.error);
        return;
      }
      LabelItemDisk(outputPath, mask, transcode, diskOut, queue[done]);
      LabelStep(queue, freeSpace, Labeller(outputPath, mask), written, step.value.1);
      ClassDirsStep(outputPath, diskOut, written, step.value.0, step.value.1);
      MadeSnoc(outputPath, written, step.value.1);
      diskOut := step.value.0;
      written := written + [step.value.1];
      done := done + 1;
    }
    stop := if freeSpace(done) <= MinFreeSpace then NoSpace else QueueEmpty;
  }

  // ------------------------------------------------------------ downloads

  /** `[catalog_id, latitude, longitude, chip_path]`, coordinates as text. */
  datatype Payload = Payload(catalogId: string, latitude: string, longitude: string, chipPath: string)

  /** The image service the download stage talks to, and the band selection
      of the client it uses (as written or as intended). */
  datatype Imagery = Imagery(select: Selection, describe: (string, string) -> Description,
                             http: string -> Response, token: string)

  /** The 2048 x 2048 8-band pansharpened chip request for one payload,
      saved under the payload's chip path. */
  function FetchChip(im: Imagery, p: Payload): ChipCall
  {
    CentroidChip(im.select, im.describe, im.http, im.token, p.latitude, p.longitude, p.catalogId,
                 ChipSize, ChipSize, "PS8", "TIF", Some(p.chipPath))
  }

  /** `if not content:` fails: the chip request returned a truthy value. */
  predicate Fetched(im: Imagery, p: Payload)
  {
    var v := FetchChip(im, p).value;
    v.Saved? || (v.Content? && |v.content| > 0)
  }

  /** A payload is fetched exactly when the request is sent, answered with
      status 200, and the chip path is not empty (the chip is then saved
      there) or the content is not empty. */
  lemma FetchedIff(im: Imagery, p: Payload)
    ensures var c := FetchChip(im, p);
      Fetched(im, p) <==> c.url.Some? && im.http(c.url.value).status == 200
                          && (p.chipPath != "" || |im.http(c.url.value).content| > 0)
    ensures Fetched(im, p) && p.chipPath != "" ==> FetchChip(im, p).value.Saved? && FetchChip(im, p).value.path == p.chipPath
  {
    var ids := ScannedIds(im.describe(p.catalogId, BoxWkt(p.longitude, p.latitude)));
    CallWithOutcome(im.select("PS8", ids), b => CentroidUrl(b, p.latitude, p.longitude, ChipSize, ChipSize, "TIF", im.token),
                    im.http, Some(p.chipPath));
  }

  /** The download stage's client as written fetches the same chip as the
      intended one unless the image is a 4-band one; for a 4-band image with
      both ids it requests a URL with an empty band text. */
  lemma FetchAsWritten(im: Imagery, p: Payload)
    ensures var ids := ScannedIds(im.describe(p.catalogId, BoxWkt(p.longitude, p.latitude)));
      && (ids.numBands != 4 ==> FetchChip(im.(select := ChipBandsAsWritten), p) == FetchChip(im.(select := ChipBands), p))
      && (ids.numBands == 4 && Truthy(ids.msId) && Truthy(ids.panId) ==>
            FetchChip(im.(select := ChipBandsAsWritten), p).url
              == Some(CentroidUrl("", p.latitude, p.longitude, ChipSize, ChipSize, "TIF", im.token)))
  {
    CentroidRequestAsWritten(im.describe, im.http, im.token, p.latitude, p.longitude, p.catalogId,
                             ChipSize, ChipSize, "PS8", "TIF", Some(p.chipPath));
  }

  function FetchTest(im: Imagery): Payload -> bool
  {
    p => Fetched(im, p)
  }

  /** The payloads routed to the not-available queue, in order. */
  function Unfetched(im: Imagery, ps: seq<Payload>): seq<Payload>
  {
    Dropped(FetchTest(im), ps)
  }

  /** The payloads whose chips were fetched, in order. */
  function FetchedPayloads(im: Imagery, ps: seq<Payload>): seq<Payload>
  {
    Kept(FetchTest(im), ps)
  }

  /** `[chip_path]` for each payload, as the label queue receives them. */
  function ChipPathItems(ps: seq<Payload>): (r: seq<seq<string>>)
    ensures |r| == |ps|
  {
    if |ps| == 0 then [] else ChipPathItems(ps[..|ps| - 1]) + [[ps[|ps| - 1].chipPath]]
  }

  /** Routing splits the dequeued payloads: every one goes to exactly one of
      the two queues, so together they hold the dequeued payloads, no more
      and no fewer. */
  lemma RoutingPartition(im: Imagery, ps: seq<Payload>)
    ensures multiset(Unfetched(im, ps)) + multiset(FetchedPayloads(im, ps)) == multiset(ps)
    ensures |Unfetched(im, ps)| + |FetchedPayloads(im, ps)| == |ps|
    ensures forall k :: 0 <= k < |Unfetched(im, ps)| ==> !Fetched(im, Unfetched(im, ps)[k])
    ensures forall k :: 0 <= k < |FetchedPayloads(im, ps)| ==> Fetched(im, FetchedPayloads(im, ps)[k])
  {
    KeptDroppedPartition(FetchTest(im), ps);
    KeptDroppedTests(FetchTest(im), ps);
    assert |multiset(Unfetched(im, ps))| + |multiset(FetchedPayloads(im, ps))| == |multiset(ps)|;
    assert forall p :: FetchTest(im)(p) == Fetched(im, p);
  }

  /** The label queue item of each payload is the one-element list of its
      chip path, in the payloads' order. */
  lemma {:induction false} ChipPathItemsAt(ps: seq<Payload>)
    ensures forall k :: 0 <= k < |ps| ==> ChipPathItems(ps)[k] == [ps[k].chipPath]
  {
    if |ps| > 0 {
      var init := ps[..|ps| - 1];
      ChipPathItemsAt(init);
      assert ps == init + [ps[|ps| - 1]];
      ChipPathItemsSnoc(init, ps[|ps| - 1]);
    }
  }

  lemma ChipPathItemsSnoc(ps: seq<Payload>, p: Payload)
    ensures ChipPathItems(ps + [p]) == ChipPathItems(ps) + [[p.chipPath]]
  {
    assert (ps + [p])[..|ps|] == ps;
  }

  /** The loop of `download_worker`, for any answer `fetched` to whether a
      payload's chip request gave something: while more than the minimum is
      free, take the next payload and put it on the not-available queue if
      it was not fetched, `[chip_path]` on the label queue otherwise. */
  method RouteDownloads(work: seq<Payload>, freeSpace: nat -> int, fetched: Payload -> bool)
    returns (notAvailable: seq<Payload>, labelQueue: seq<seq<string>>, done: nat, stop: Stop)
    ensures done <= |work| && done == |notAvailable| + |labelQueue|
    ensures forall k :: 0 <= k < done ==> freeSpace(k) > MinFreeSpace
    ensures stop == NoSpace <==> freeSpace(done) <= MinFreeSpace
    ensures stop == QueueEmpty <==> freeSpace(done) > MinFreeSpace && done == |work|
    ensures !stop.Crashed?
    ensures notAvailable == Dropped(fetched, work[..done])
    ensures labelQueue == ChipPathItems(Kept(fetched, work[..done]))
  {
    notAvailable, labelQueue, done := [], [], 0;
    while freeSpace(done) > MinFreeSpace && done < |work|
      invariant done <= |work| && done == |notAvailable| + |labelQueue|
      invariant forall k :: 0 <= k < done ==> freeSpace(k) > MinFreeSpace
      invariant notAvailable == DroppedUpTo(fetched, work, done)
      invariant labelQueue == ChipPathItems(KeptUpTo(fetched, work, done))
      decreases |work| - done
    {
      var payload := work[done];
      if !fetched(payload) {
        assert KeptUpTo(fetched, work, done + 1) == KeptUpTo(fetched, work, done);
        notAvailable := notAvailable + [payload];
      } else {
        ChipPathItemsSnoc(KeptUpTo(fetched, work, done), payload);
        labelQueue := labelQueue + [[payload.chipPath]];
      }
      done := done + 1;
    }
    stop := if freeSpace(done) <= MinFreeSpace then NoSpace else QueueEmpty;
    KeptDroppedUpTo(fetched, work, done);
  }

  /** `download_worker`: the loop above with the chip request of each
      payload as the test, so the not-available queue receives the
      payloads whose request gave nothing and the label queue the chip
      paths of the others, in order. */
  method DownloadWorker(work: seq<Payload>, freeSpace: nat -> int, im: Imagery)
    returns (notAvailable: seq<Payload>, labelQueue: seq<seq<string>>, done: nat, stop: Stop)
    ensures done <= |work| && done == |notAvailable| + |labelQueue|
    ensures forall k :: 0 <= k < done ==> freeSpace(k) > MinFreeSpace
    ensures stop == NoSpace <==> freeSpace(done) <= MinFreeSpace
    ensures stop == QueueEmpty <==> freeSpace(done) > MinFreeSpace && done == |work|
    ensures !stop.Crashed?
    ensures notAvailable == Unfetched(im, work[..done])
    ensures labelQueue == ChipPathItems(FetchedPayloads(im, work[..done]))
  {
    notAvailable, labelQueue, done, stop := RouteDownloads(work, freeSpace, FetchTest(im));
  }

  // ------------------------------------------------------------ enqueue and error log

  function TifsPath(outputPath: string): string
  {
    PathJoin(outputPath, TifsDir)
  }

  /** Row `num` of the POI table: catalog id from column 3, latitude from
      column 1, longitude from column 0, and the chip path
      `<output>/tifs/<num>.TIF`. */
  function PoiPayload(row: seq<string>, outputPath: string, num: nat): Payload
    requires |row| >= 4
  {
    Payload(row[3], row[1], row[0], PathJoin(TifsPath(outputPath), ChipFileName(num)))
  }

  /** Distinct rows get distinct chip files, each named after its row. */
  lemma ChipPathsDistinct(outputPath: string, i: nat, j: nat)
    ensures Basename(PathJoin(TifsPath(outputPath), ChipFileName(i))) == ChipFileName(i)
    ensures i != j ==> PathJoin(TifsPath(outputPath), ChipFileName(i)) != PathJoin(TifsPath(outputPath), ChipFileName(j))
  {
    ChipFileNameChars(i);
    ChipFileNameChars(j);
    BasenameOfJoin(TifsPath(outputPath), ChipFileName(i));
    PathJoinRelative(TifsPath(outputPath), ChipFileName(i), ChipFileName(j));
    if ChipFileName(i) == ChipFileName(j) {
      assert DecimalString(i) == ChipFileName(i)[..|ChipFileName(i)| - 4];
      assert DecimalString(j) == ChipFileName(j)[..|ChipFileName(j)| - 4];
      DecimalInjective(i, j);
    }
  }

  /** The enqueue loop of `main` for a directory step `makeDir` that, once it
      succeeds, changes nothing when repeated: each row in turn becomes a
      payload, and the directory step runs on every pass. A short row or a
      failing step raises. */
  method EnqueueRows(rows: seq<seq<string>>, outputPath: string, disk: Disk,
                     makeDir: Disk -> Result<Disk, PipelineError>)
    returns (r: Result<(seq<Payload>, Disk), PipelineError>)
    requires makeDir(disk).Ok? ==> makeDir(makeDir(disk).value) == makeDir(disk)
    ensures r.Ok? <==> (forall k :: 0 <= k < |rows| ==> |rows[k]| >= 4) && (|rows| == 0 || makeDir(disk).Ok?)
    ensures r.Ok? ==> |r.value.0| == |rows|
                      && (forall k :: 0 <= k < |rows| ==> |rows[k]| >= 4 && r.value.0[k] == PoiPayload(rows[k], outputPath, k))
    ensures r.Ok? ==> r.value.1 == if |rows| == 0 then disk else makeDir(disk).value
    ensures r.Err? ==> |rows| > 0 && r.error == if |rows[0]| < 4 || makeDir(disk).Ok? then IndexError else makeDir(disk).error
  {
    var payloads: seq<Payload> := [];
    var d := disk;
    var num := 0;
    while num < |rows|
      invariant 0 <= num <= |rows|
      invariant |payloads| == num
      invariant forall k :: 0 <= k < num ==> |rows[k]| >= 4 && payloads[k] == PoiPayload(rows[k], outputPath, k)
      invariant num > 0 ==> makeDir(disk).Ok? && d == makeDir(disk).value
      invariant num == 0 ==> d == disk
    {
      var value := rows[num];
      if |value| < 4 {
        return Err(IndexError);
      }
      var made := makeDir(d);
      if made.Err? {
        return Err(made.error);
      }
      d := made.value;
      payloads := payloads + [PoiPayload(value, outputPath, num)];
      num := num + 1;
    }
    return Ok((payloads, d));
  }

  /** The enqueue loop of `main`, making `<output>/tifs` on every pass. */
  method EnqueuePayloads(rows: seq<seq<string>>, outputPath: string, disk: Disk)
    returns (r: Result<(seq<Payload>, Disk), PipelineError>)
    requires ValidDisk(disk)
    ensures r.Ok? <==> (forall k :: 0 <= k < |rows| ==> |rows[k]| >= 4)
                       && (|rows| == 0 || CheckAndMakeDir(disk, TifsPath(outputPath)).Ok?)
    ensures r.Ok? ==> |r.value.0| == |rows|
                      && (forall k :: 0 <= k < |rows| ==> |rows[k]| >= 4 && r.value.0[k] == PoiPayload(rows[k], outputPath, k))
    ensures r.Ok? ==> r.value.1 == if |rows| == 0 then disk else CheckAndMakeDir(disk, TifsPath(outputPath)).value
    ensures r.Err? ==> |rows| > 0 && r.error == if |rows[0]| < 4 || CheckAndMakeDir(disk, TifsPath(outputPath)).Ok?
                                                then IndexError else CheckAndMakeDir(disk, TifsPath(outputPath)).error
  {
    var tifs := TifsPath(outputPath);
    if CheckAndMakeDir(disk, tifs).Ok? {
      CheckAndMakeDirIdempotent(disk, tifs);
    }
    r := EnqueueRows(rows, outputPath, disk, dd => CheckAndMakeDir(dd, tifs));
  }

  /** `"{}".format(payload)` of the payload list: the two texts quoted, the
      coordinates as rendered. */
  function PayloadText(p: Payload): string
  {
    "['" + p.catalogId + "', " + p.latitude + ", " + p.longitude + ", '" + p.chipPath + "']"
  }

  /** One `"{},"` entry per payload, in order. */
  function LogEntries(ps: seq<Payload>): (r: seq<string>)
    ensures |r| == |ps|
    ensures forall k :: 0 <= k < |ps| ==> r[k] == PayloadText(ps[k]) + ","
  {
    if |ps| == 0 then [] else LogEntries(ps[..|ps| - 1]) + [PayloadText(ps[|ps| - 1]) + ","]
  }

  /** The text of the error log: its entries one after the other. */
  function ErrorLog(ps: seq<Payload>): string
  {
    Concat(LogEntries(ps))
  }

  /** The log of two runs of payloads is the log of the first followed by
      the log of the second: entries keep the dequeue order. */
  lemma ErrorLogAppend(a: seq<Payload>, b: seq<Payload>)
    ensures ErrorLog(a + b) == ErrorLog(a) + ErrorLog(b)
  {
    assert LogEntries(a + b) == LogEntries(a) + LogEntries(b);
    ConcatAppend(LogEntries(a), LogEntries(b));
  }

  /** A single payload is logged as its own entry. */
  lemma ErrorLogSingle(p: Payload)
    ensures ErrorLog([p]) == PayloadText(p) + ","
  {
    var e := PayloadText(p) + ",";
    assert LogEntries([p]) == [e];
    assert [e][1..] == [];
    assert Concat([e]) == e + Concat([]);
    assert e + "" == e;
  }

  /** The flush at the end of `main`: the log file is opened for writing
      (emptied) and every not-available payload is written as `"{},"` until
      the queue is empty. */
  method FlushErrorLog(notAvailable: seq<Payload>) returns (text: string)
    ensures text == ErrorLog(notAvailable)
  {
    text := "";
    var i := 0;
    while i < |notAvailable|
      invariant 0 <= i <= |notAvailable|
      invariant text == ErrorLog(notAvailable[..i])
    {
      var payload := notAvailable[i];
      ErrorLogAppend(notAvailable[..i], [payload]);
      assert notAvailable[..i + 1] == notAvailable[..i] + [payload];
      ErrorLogSingle(payload);
      text := text + (PayloadText(payload) + ",");
      i := i + 1;
    }
    assert notAvailable[..i] == notAvailable;
  }
}
