/**
  scripts/run_colmap_dronesplat.py: COLMAP with intrinsics taken from the drone's
  metadata, then a DroneSplat scene folder, optional SAM2 masks, DroneSplat
  training, rendering to a PLY, and a small web viewer.

  The hard-wired executables (COLMAP, the DroneSplat checkout, the Python
  interpreter) and the GPU switch are a `Config`. What the script looks up on the
  host is a `Host`: which of those files exist, the `*.json` files and image
  globs of the input folder, image sizes (what PIL reports), and whether the
  scene folder already holds images or poses.
 */
module DroneSplat {
  import opened Wrappers
  import opened Telemetry
  import opened Commands
  import opened Sequencer

  /** The constants at the top of the script. */
  datatype Config = Config(colmap: Path, droneSplatRoot: Path, python: Path, useGpu: bool)

  const MaxImageSide := 3200
  const SpatialNeighbors := 40
  const SpatialRadius := 12.0
  const TrainingIterations := 7000

  /** A `*.json` file of the image folder. */
  datatype JsonFile = JsonFile(name: string, content: Sidecar)

  datatype Host = Host(
    colmapPresent: bool,
    trainScriptPresent: bool,
    segScriptPresent: bool,
    jsonFiles: seq<JsonFile>,
    glob: string -> seq<Path>,
    sizeOf: Path -> (int, int),
    sceneImagesPresent: bool,
    sceneColmapPresent: bool)

  /** The sample image patterns, tried in this order. */
  const SamplePatterns := ["*.JPG", "*.jpg", "*.png", "*.jpeg"]

  /** `pick_json`: the first `*.json` of the folder, decoded. */
  function PickJson(files: seq<JsonFile>): (r: Result<Json, Error>)
    ensures |files| == 0 <==> r == Err(NoMetadata)
    ensures r.Ok? <==> |files| > 0 && files[0].content.Doc?
    ensures r.Ok? ==> r.value == files[0].content.value
    ensures |files| > 0 && files[0].content.Unreadable? ==> r == Err(Undecodable(files[0].name))
  {
    if |files| == 0 then Err(NoMetadata)
    else match files[0].content
      case Unreadable => Err(Undecodable(files[0].name))
      case Doc(v) => Ok(v)
  }

  /** The first file of the first pattern, among `patterns`, that matches anything. */
  function FirstMatch(patterns: seq<string>, glob: string -> seq<Path>): (r: Result<Path, Error>)
    ensures r.Err? <==> forall k :: 0 <= k < |patterns| ==> |glob(patterns[k])| == 0
    ensures r.Err? ==> r == Err(NoImages)
    ensures r.Ok? ==> exists k ::
      && 0 <= k < |patterns| && |glob(patterns[k])| > 0
      && r.value == glob(patterns[k])[0]
      && forall m :: 0 <= m < k ==> |glob(patterns[m])| == 0
  {
    if |patterns| == 0 then Err(NoImages)
    else if |glob(patterns[0])| > 0 then Ok(glob(patterns[0])[0])
    else
      var r := FirstMatch(patterns[1..], glob);
      assert forall k :: 1 <= k < |patterns| ==> patterns[k] == patterns[1..][k - 1];
      if r.Ok? then
        var k :| 0 <= k < |patterns[1..]| && |glob(patterns[1..][k])| > 0
          && r.value == glob(patterns[1..][k])[0]
          && forall m :: 0 <= m < k ==> |glob(patterns[1..][m])| == 0;
        assert patterns[k + 1] == patterns[1..][k];
        r
      else r
  }

  /** `pick_sample`: the first image of the first pattern that matches, upper-case JPG first. */
  function PickSample(glob: string -> seq<Path>): (r: Result<Path, Error>)
    ensures r.Err? <==> forall k :: 0 <= k < 4 ==> |glob(SamplePatterns[k])| == 0
    ensures |glob("*.JPG")| > 0 ==> r == Ok(glob("*.JPG")[0])
  {
    FirstMatch(SamplePatterns, glob)
  }

  /** What `intrinsics` derives: the SIMPLE_RADIAL parameters `fx,cx,cy,k1` and the
      focal length as a fraction of the longer image side. */
  datatype Intrinsics = Intrinsics(params: seq<real>, focalFactor: real)

  /** `meta[key1][key2]` through `float`. */
  function Required2(meta: Json, key1: string, key2: string, rd: RealReader): Result<real, Error>
  {
    var inner :- Index(meta, key1);
    var v :- Index(inner, key2);
    ToFloat(v, rd)
  }

  /** `max(w, h)`. */
  function Longer(size: (int, int)): (m: int)
    ensures m >= size.0 && m >= size.1 && (m == size.0 || m == size.1)
  {
    if size.0 >= size.1 then size.0 else size.1
  }

  /** `intrinsics`: the focal length and optical center must be present (no defaults
      here, unlike the metadata converter); k1 is 0; a zero-sized image divides by zero. */
  function ReadIntrinsics(meta: Json, size: (int, int), rd: RealReader): (r: Result<Intrinsics, Error>)
    ensures meta.JObj? && "CalibratedFocalLength" !in meta.fields ==> r == Err(MissingKey("CalibratedFocalLength"))
    ensures meta.JObj? && "CalibratedOpticalCenter" !in meta.fields && Required2(meta, "CalibratedFocalLength", "X", rd).Ok? ==>
      r == Err(MissingKey("CalibratedOpticalCenter"))
    ensures r.Ok? ==> |r.value.params| == 4 && r.value.params[3] == 0.0
    ensures r.Ok? ==> Required2(meta, "CalibratedFocalLength", "X", rd) == Ok(r.value.params[0])
    ensures r.Ok? ==> Required2(meta, "CalibratedOpticalCenter", "X", rd) == Ok(r.value.params[1])
    ensures r.Ok? ==> Required2(meta, "CalibratedOpticalCenter", "Y", rd) == Ok(r.value.params[2])
    ensures r.Ok? ==> Longer(size) != 0 && r.value.focalFactor * Longer(size) as real == r.value.params[0]
    ensures var fields := [Required2(meta, "CalibratedFocalLength", "X", rd),
                           Required2(meta, "CalibratedOpticalCenter", "X", rd),
                           Required2(meta, "CalibratedOpticalCenter", "Y", rd)];
      fields[0].Ok? && fields[1].Ok? && fields[2].Ok? ==>
        (r.Ok? <==> Longer(size) != 0) && (r.Err? ==> r.error == DivisionByZero)
  {
    var fx :- Required2(meta, "CalibratedFocalLength", "X", rd);
    var cx :- Required2(meta, "CalibratedOpticalCenter", "X", rd);
    var cy :- Required2(meta, "CalibratedOpticalCenter", "Y", rd);
    if Longer(size) == 0 then Err(DivisionByZero)
    else Ok(Intrinsics([fx, cx, cy, 0.0], fx / Longer(size) as real))
  }

  /** The folders and files under the output folder. */
  function Database(out: Path): Path { Child(out, "colmap.db") }
  function Sparse(out: Path): Path { Child(out, "sparse") }
  function Scene(out: Path): Path { Child(out, "dronesplat_scene") }
  function SceneImages(out: Path): Path { Child(Scene(out), "images") }
  function ScenePoses(out: Path): Path { Child(Scene(out), "colmap") }
  function ModelDir(out: Path): Path { Child(out, "model") }
  function Ply(out: Path): Path { Child(out, "dronesplat.ply") }
  function Viewer(out: Path): Path { Child(out, "viewer") }
  function ViewerPage(out: Path): Path { Child(Viewer(out), "index.html") }

  /** `feature_extractor` with the metadata's intrinsics as the single camera's parameters. */
  function ExtractCommand(cfg: Config, images: Path, out: Path, k: Intrinsics): (c: Command)
    ensures c.program == PathArg(cfg.colmap) && c.positional == [Word("feature_extractor")]
    ensures Passes(c, DatabasePath, PathArg(Database(out))) && Passes(c, ImagePath, PathArg(images))
    ensures Passes(c, CameraModel, Word("SIMPLE_RADIAL")) && Passes(c, SingleCamera, Word("1"))
    ensures Passes(c, CameraParams, RealList(k.params))
    ensures Passes(c, DomainSizePooling, Word("1")) && Passes(c, EstimateAffineShape, Word("1"))
    ensures Passes(c, DefaultFocalLengthFactor, Fixed(k.focalFactor, 6))
    ensures Passes(c, MaxImageSize, IntArg(MaxImageSide))
    ensures Passes(c, ExtractionGpu, Bit(cfg.useGpu))
  {
    Command(PathArg(cfg.colmap), [Word("feature_extractor")],
      map[DatabasePath := PathArg(Database(out)), ImagePath := PathArg(images),
          CameraModel := Word("SIMPLE_RADIAL"), SingleCamera := Word("1"),
          CameraParams := RealList(k.params),
          DomainSizePooling := Word("1"), EstimateAffineShape := Word("1"),
          MaxImageSize := IntArg(MaxImageSide), ExtractionGpu := Bit(cfg.useGpu),
          DefaultFocalLengthFactor := Fixed(k.focalFactor, 6)],
      {})
  }

  /** `spatial_matcher`: pairs images whose GPS priors are close. */
  function MatchCommand(cfg: Config, out: Path): (c: Command)
    ensures c.program == PathArg(cfg.colmap) && c.positional == [Word("spatial_matcher")]
    ensures Passes(c, DatabasePath, PathArg(Database(out)))
    ensures Passes(c, MaxNumNeighbors, IntArg(SpatialNeighbors)) && Passes(c, MaxDistance, RealArg(SpatialRadius))
    ensures Passes(c, MatchingGpu, Bit(cfg.useGpu))
  {
    Command(PathArg(cfg.colmap), [Word("spatial_matcher")],
      map[DatabasePath := PathArg(Database(out)), MaxNumNeighbors := IntArg(SpatialNeighbors),
          MaxDistance := RealArg(SpatialRadius), MatchingGpu := Bit(cfg.useGpu)],
      {})
  }

  /** `mapper` into `<out>/sparse`, keeping the given principal point and ignoring two-view tracks. */
  function MapperCommand(cfg: Config, images: Path, out: Path): (c: Command)
    ensures c.program == PathArg(cfg.colmap) && c.positional == [Word("mapper")]
    ensures Passes(c, DatabasePath, PathArg(Database(out))) && Passes(c, ImagePath, PathArg(images))
    ensures Passes(c, OutputPath, PathArg(Sparse(out)))
    ensures Passes(c, RefinePrincipalPoint, Word("0")) && Passes(c, IgnoreTwoViewTracks, Word("1"))
  {
    Command(PathArg(cfg.colmap), [Word("mapper")],
      map[DatabasePath := PathArg(Database(out)), ImagePath := PathArg(images), OutputPath := PathArg(Sparse(out)),
          RefinePrincipalPoint := Word("0"), IgnoreTwoViewTracks := Word("1")],
      {})
  }

  /** `seg_all_instances.py --image_dir <scene>/images`. */
  function SegCommand(cfg: Config, out: Path): (c: Command)
    ensures c.program == PathArg(cfg.python)
    ensures c.positional == [PathArg(Child(cfg.droneSplatRoot, "seg_all_instances.py"))]
    ensures Passes(c, ImageDir, PathArg(SceneImages(out)))
  {
    Command(PathArg(cfg.python), [PathArg(Child(cfg.droneSplatRoot, "seg_all_instances.py"))],
      map[ImageDir := PathArg(SceneImages(out))], {})
  }

  /** `train.py` on the scene folder, writing the model to `<out>/model`, with masks. */
  function TrainCommand(cfg: Config, out: Path): (c: Command)
    ensures c.program == PathArg(cfg.python)
    ensures c.positional == [PathArg(Child(cfg.droneSplatRoot, "train.py"))]
    ensures Passes(c, SourcePath, PathArg(Scene(out))) && Passes(c, ModelPath, PathArg(ModelDir(out)))
    ensures Passes(c, SceneName, Word("myscene")) && Passes(c, Iterations, IntArg(TrainingIterations))
    ensures UseMasks in c.switches
  {
    Command(PathArg(cfg.python), [PathArg(Child(cfg.droneSplatRoot, "train.py"))],
      map[SourcePath := PathArg(Scene(out)), ModelPath := PathArg(ModelDir(out)),
          SceneName := Word("myscene"), Iterations := IntArg(TrainingIterations)],
      {UseMasks})
  }

  /** `render.py` of the trained model at the same iteration, exporting `<out>/dronesplat.ply`. */
  function RenderCommand(cfg: Config, out: Path): (c: Command)
    ensures c.program == PathArg(cfg.python)
    ensures c.positional == [PathArg(Child(cfg.droneSplatRoot, "render.py"))]
    ensures Passes(c, SourcePath, PathArg(Scene(out))) && Passes(c, ModelPath, PathArg(ModelDir(out)))
    ensures Passes(c, Iterations, IntArg(TrainingIterations)) && Passes(c, ExportPly, PathArg(Ply(out)))
  {
    Command(PathArg(cfg.python), [PathArg(Child(cfg.droneSplatRoot, "render.py"))],
      map[SourcePath := PathArg(Scene(out)), ModelPath := PathArg(ModelDir(out)),
          Iterations := IntArg(TrainingIterations), ExportPly := PathArg(Ply(out))],
      {})
  }

  /** The six commands of a run, one per stage. */
  datatype Stages = Stages(extract: Command, matching: Command, mapper: Command,
                           seg: Command, train: Command, render: Command)

  function StagesOf(cfg: Config, images: Path, out: Path, k: Intrinsics): Stages
  {
    Stages(ExtractCommand(cfg, images, out, k), MatchCommand(cfg, out), MapperCommand(cfg, images, out),
           SegCommand(cfg, out), TrainCommand(cfg, out), RenderCommand(cfg, out))
  }

  /** The mask and training commands differ from the command of every other stage. */
  predicate Distinct(st: Stages)
  {
    && st.seg != st.extract && st.seg != st.matching && st.seg != st.mapper
    && st.seg != st.train && st.seg != st.render
    && st.train != st.extract && st.train != st.matching && st.train != st.mapper && st.train != st.render
  }

  /** COLMAP stages name a subcommand; the DroneSplat stages name scripts of different lengths. */
  lemma StagesOfDistinct(cfg: Config, images: Path, out: Path, k: Intrinsics)
    ensures Distinct(StagesOf(cfg, images, out, k))
  {
    var st := StagesOf(cfg, images, out, k);
    assert st.extract.positional[0].Word? && st.matching.positional[0].Word? && st.mapper.positional[0].Word?;
    var seg, train, render := st.seg.positional[0].p.name, st.train.positional[0].p.name, st.render.positional[0].p.name;
    assert |seg| == 20 && |train| == 8 && |render| == 9;
  }

  /** The steps between mapping and training: the image folder and its copy, then the
      pose copy, each under its own guard, and last the mask stage, whose failure is
      tolerated. None of them can abort. */
  function Middle(st: Stages, images: Path, out: Path, h: Host): (m: seq<Step>)
    ensures forall j :: 0 <= j < |m| && m[j].Invoke? ==> m[j] == Invoke(st.seg, BestEffort) && h.segScriptPresent
    ensures forall j :: 0 <= j < |m| && m[j].Perform? ==> !m[j].effect.WriteViewer?
    ensures forall i, j :: 0 <= i < |m| && 0 <= j < |m| && m[i].Perform? && m[j].Invoke? ==> i < j
    ensures !h.sceneImagesPresent ==>
      |m| >= 2 && m[..2] == [Perform(MakeDir(SceneImages(out))), Perform(CopyImages(images, SceneImages(out)))]
    ensures forall i, j ::
      (0 <= i < |m| && 0 <= j < |m| && m[i] == Perform(CopyImages(images, SceneImages(out)))
       && m[j] == Perform(CopyTree(Sparse(out), ScenePoses(out)))) ==> i < j
    ensures Perform(MakeDir(SceneImages(out))) in m <==> !h.sceneImagesPresent
    ensures Perform(CopyImages(images, SceneImages(out))) in m <==> !h.sceneImagesPresent
    ensures Perform(CopyTree(Sparse(out), ScenePoses(out))) in m <==> !h.sceneColmapPresent
    ensures Invoke(st.seg, BestEffort) in m <==> h.segScriptPresent
  {
    var copyImages := if h.sceneImagesPresent then [] else
      [Perform(MakeDir(SceneImages(out))), Perform(CopyImages(images, SceneImages(out)))];
    var copyPoses := if h.sceneColmapPresent then [] else [Perform(CopyTree(Sparse(out), ScenePoses(out)))];
    var masks := if h.segScriptPresent then [Invoke(st.seg, BestEffort)] else [];
    copyImages + copyPoses + masks
  }

  /** COLMAP: the output folder (created before the checks), then extraction,
      matching and mapping. */
  function Head(st: Stages, out: Path): (p: seq<Step>)
    ensures |p| == 5
  {
    [
      Perform(MakeDir(out)),
      Invoke(st.extract, Required),
      Invoke(st.matching, Required),
      Perform(MakeDir(Sparse(out))),
      Invoke(st.mapper, Required)
    ]
  }

  /** DroneSplat training and rendering, then the viewer. */
  function Tail(st: Stages, out: Path): (p: seq<Step>)
    ensures |p| == 4
  {
    [
      Invoke(st.train, Required),
      Invoke(st.render, Required),
      Perform(MakeDir(Viewer(out))),
      Perform(WriteViewer(ViewerPage(out)))
    ]
  }

  lemma SplitThree<T>(a: seq<T>, b: seq<T>, c: seq<T>)
    ensures var s := a + b + c;
      && s[..|a|] == a && s[|a|..|s| - |c|] == b && s[|s| - |c|..] == c
  {
  }

  /** The steps of a run, in the order `main` takes them. */
  function Layout(st: Stages, images: Path, out: Path, h: Host): (p: seq<Step>)
    ensures |p| >= 9
    ensures p[..5] == Head(st, out)
    ensures p[5..|p| - 4] == Middle(st, images, out, h)
    ensures p[|p| - 4..] == Tail(st, out)
  {
    var head, middle, tail := Head(st, out), Middle(st, images, out, h), Tail(st, out);
    SplitThree(head, middle, tail);
    head + middle + tail
  }

  /** Everything `main` does once the checks and the metadata have passed. */
  function Plan(cfg: Config, images: Path, out: Path, h: Host, k: Intrinsics): seq<Step>
  {
    Layout(StagesOf(cfg, images, out, k), images, out, h)
  }

  /** Why the script exits before running any command. */
  datatype Refusal = Usage | ColmapMissing | DroneSplatMissing | BadInput(error: Error)

  /** A refusal with what happened before it, or a run of the plan. */
  datatype Session = Refused(why: Refusal, trace: seq<Event>) | Executed(run: Run)

  /** `pick_json`, `pick_sample` and `intrinsics`, in that order: the first error wins. */
  function ReadInputs(h: Host, rd: RealReader): (r: Result<Intrinsics, Error>)
    ensures PickJson(h.jsonFiles).Err? ==> r == Err(PickJson(h.jsonFiles).error)
    ensures PickJson(h.jsonFiles).Ok? && PickSample(h.glob).Err? ==> r == Err(NoImages)
    ensures PickJson(h.jsonFiles).Ok? && PickSample(h.glob).Ok? ==>
      r == ReadIntrinsics(PickJson(h.jsonFiles).value, h.sizeOf(PickSample(h.glob).value), rd)
  {
    var meta :- PickJson(h.jsonFiles);
    var sample :- PickSample(h.glob);
    ReadIntrinsics(meta, h.sizeOf(sample), rd)
  }

  /** `main`: the argument count, `out.mkdir`, the two install checks, then the metadata
      and the sample image, in that order; the first problem ends the script. */
  function Main(argv: seq<string>, cfg: Config, h: Host, rd: RealReader, exit: ExitOracle): (s: Session)
    ensures |argv| != 3 <==> s == Refused(Usage, [])
    ensures s.Refused? && s.why != Usage ==> s.trace == [Performed(MakeDir(Root(argv[2])))]
    ensures |argv| == 3 && !h.colmapPresent ==> s.Refused? && s.why == ColmapMissing
    ensures |argv| == 3 && h.colmapPresent && !h.trainScriptPresent ==> s.Refused? && s.why == DroneSplatMissing
    ensures |argv| == 3 && h.colmapPresent && h.trainScriptPresent && ReadInputs(h, rd).Err? ==>
      s.Refused? && s.why == BadInput(ReadInputs(h, rd).error)
    ensures s.Executed? <==> |argv| == 3 && h.colmapPresent && h.trainScriptPresent && ReadInputs(h, rd).Ok?
    ensures s.Executed? ==> ObeysPolicy(Plan(cfg, Root(argv[1]), Root(argv[2]), h, ReadInputs(h, rd).value), exit, s.run)
  {
    if |argv| != 3 then Refused(Usage, [])
    else
      var images := Root(argv[1]);
      var out := Root(argv[2]);
      var made := [Performed(MakeDir(out))];
      if !h.colmapPresent then Refused(ColmapMissing, made)
      else if !h.trainScriptPresent then Refused(DroneSplatMissing, made)
      else
        match ReadInputs(h, rd)
        case Err(e) => Refused(BadInput(e), made)
        case Ok(k) => Executed(Exec(Plan(cfg, images, out, h, k), exit))
  }

  /** The run of a plan, when it gets that far. */
  function RunOf(cfg: Config, images: Path, out: Path, h: Host, k: Intrinsics, exit: ExitOracle): Run
  {
    Exec(Plan(cfg, images, out, h, k), exit)
  }

  /** The three COLMAP stages succeed. */
  predicate ColmapSucceeds(cfg: Config, images: Path, out: Path, k: Intrinsics, exit: ExitOracle)
  {
    && exit(ExtractCommand(cfg, images, out, k)) == 0
    && exit(MatchCommand(cfg, out)) == 0
    && exit(MapperCommand(cfg, images, out)) == 0
  }

  predicate ColmapOk(st: Stages, exit: ExitOracle)
  {
    exit(st.extract) == 0 && exit(st.matching) == 0 && exit(st.mapper) == 0
  }

  /** The steps at fixed places: the COLMAP part at the front, the DroneSplat part at the back. */
  lemma FixedSteps(st: Stages, images: Path, out: Path, h: Host)
    ensures var p := Layout(st, images, out, h);
      && p[0] == Perform(MakeDir(out))
      && p[1] == Invoke(st.extract, Required)
      && p[2] == Invoke(st.matching, Required)
      && p[3] == Perform(MakeDir(Sparse(out)))
      && p[4] == Invoke(st.mapper, Required)
      && p[|p| - 4] == Invoke(st.train, Required)
      && p[|p| - 3] == Invoke(st.render, Required)
      && p[|p| - 2] == Perform(MakeDir(Viewer(out)))
      && p[|p| - 1] == Perform(WriteViewer(ViewerPage(out)))
  {
    var p := Layout(st, images, out, h);
    var head, tail := p[..5], p[|p| - 4..];
    assert p[0] == head[0] && p[1] == head[1] && p[2] == head[2] && p[3] == head[3] && p[4] == head[4];
    assert p[|p| - 4] == tail[0] && p[|p| - 3] == tail[1] && p[|p| - 2] == tail[2] && p[|p| - 1] == tail[3];
  }

  /** Step `5 + j` of the plan is step `j` of the middle part. */
  lemma MiddleOfLayout(st: Stages, images: Path, out: Path, h: Host, j: int)
    requires 0 <= j < |Middle(st, images, out, h)|
    ensures 5 + j < |Layout(st, images, out, h)| - 4
    ensures Layout(st, images, out, h)[5 + j] == Middle(st, images, out, h)[j]
  {
    var p := Layout(st, images, out, h);
    assert p[5..|p| - 4][j] == p[5 + j];
  }

  /** Every step is at a fixed place or in the middle part. */
  lemma StepPosition(st: Stages, images: Path, out: Path, h: Host, i: int)
    requires 0 <= i < |Layout(st, images, out, h)|
    ensures var p := Layout(st, images, out, h);
      || i < 5 || |p| - 4 <= i
      || (5 <= i < |p| - 4 && p[i] == Middle(st, images, out, h)[i - 5])
  {
    var p := Layout(st, images, out, h);
    if 5 <= i < |p| - 4 {
      MiddleOfLayout(st, images, out, h, i - 5);
    }
  }

  /** Where each command sits: the COLMAP stages at 1, 2 and 4, the mask stage (when its
      script exists) in the middle part, training and rendering fourth and third from the end. */
  lemma InvokePosition(st: Stages, images: Path, out: Path, h: Host, i: int)
    requires 0 <= i < |Layout(st, images, out, h)| && Layout(st, images, out, h)[i].Invoke?
    ensures var p := Layout(st, images, out, h);
      || (i == 1 && p[i] == Invoke(st.extract, Required))
      || (i == 2 && p[i] == Invoke(st.matching, Required))
      || (i == 4 && p[i] == Invoke(st.mapper, Required))
      || (5 <= i < |p| - 4 && p[i] == Invoke(st.seg, BestEffort) && h.segScriptPresent)
      || (i == |p| - 4 && p[i] == Invoke(st.train, Required))
      || (i == |p| - 3 && p[i] == Invoke(st.render, Required))
  {
    var p := Layout(st, images, out, h);
    FixedSteps(st, images, out, h);
    StepPosition(st, images, out, h, i);
    if i < 5 {
      assert i != 0 && i != 3;
    } else if |p| - 4 <= i {
      assert i != |p| - 2 && i != |p| - 1;
    }
  }

  /** What each effect is: folders outside the middle part, the copies in it, and the
      viewer page at the very end. */
  lemma PerformPosition(st: Stages, images: Path, out: Path, h: Host, i: int)
    requires 0 <= i < |Layout(st, images, out, h)| && Layout(st, images, out, h)[i].Perform?
    ensures var p := Layout(st, images, out, h);
      || ((i < 5 || |p| - 4 <= i < |p| - 1) && p[i].effect.MakeDir?)
      || (5 <= i < |p| - 4 && p[i] in Middle(st, images, out, h) && !p[i].effect.WriteViewer?)
      || (i == |p| - 1 && p[i].effect == WriteViewer(ViewerPage(out)))
  {
    var p := Layout(st, images, out, h);
    FixedSteps(st, images, out, h);
    StepPosition(st, images, out, h, i);
    if i < 5 {
      assert i == 0 || i == 3;
    } else if |p| - 4 <= i {
      assert i == |p| - 2 || i == |p| - 1;
    }
  }

  /** Only the COLMAP stages, training and rendering can stop the pipeline; the mask
      stage and the copies never do. */
  lemma LayoutAborts(st: Stages, images: Path, out: Path, h: Host, exit: ExitOracle, j: int)
    requires 0 <= j < |Layout(st, images, out, h)|
    ensures var p := Layout(st, images, out, h);
      Aborts(p[j], exit) <==>
        || (j == 1 && exit(st.extract) != 0)
        || (j == 2 && exit(st.matching) != 0)
        || (j == 4 && exit(st.mapper) != 0)
        || (j == |p| - 4 && exit(st.train) != 0)
        || (j == |p| - 3 && exit(st.render) != 0)
  {
    FixedSteps(st, images, out, h);
    if Layout(st, images, out, h)[j].Invoke? {
      InvokePosition(st, images, out, h, j);
    }
  }

  /** A step after mapping, up to training, is reached exactly when the COLMAP stages succeed. */
  lemma ReachedAfterColmap(st: Stages, images: Path, out: Path, h: Host, exit: ExitOracle, i: int)
    requires 5 <= i <= |Layout(st, images, out, h)| - 4
    ensures var p := Layout(st, images, out, h);
      (forall j :: 0 <= j < i ==> !Aborts(p[j], exit)) <==> ColmapOk(st, exit)
  {
    var p := Layout(st, images, out, h);
    if ColmapOk(st, exit) {
      forall j | 0 <= j < i
        ensures !Aborts(p[j], exit)
      {
        LayoutAborts(st, images, out, h, exit, j);
      }
    } else {
      LayoutAborts(st, images, out, h, exit, 1);
      LayoutAborts(st, images, out, h, exit, 2);
      LayoutAborts(st, images, out, h, exit, 4);
    }
  }

  /** Training is the fourth step from the end and no other step runs its command. */
  lemma TrainOnlyAt(st: Stages, images: Path, out: Path, h: Host, exit: ExitOracle, i: int)
    requires Distinct(st)
    requires 0 <= i < |Layout(st, images, out, h)|
    requires EventOf(Layout(st, images, out, h)[i], exit) == Ran(st.train, exit(st.train))
    ensures i == |Layout(st, images, out, h)| - 4
  {
    InvokePosition(st, images, out, h, i);
  }

  /** Training runs exactly when the COLMAP stages succeed. */
  lemma TrainRunsIff(st: Stages, images: Path, out: Path, h: Host, exit: ExitOracle)
    requires Distinct(st)
    ensures Ran(st.train, exit(st.train)) in Exec(Layout(st, images, out, h), exit).trace <==> ColmapOk(st, exit)
  {
    var p := Layout(st, images, out, h);
    var r := Exec(p, exit);
    var e := Ran(st.train, exit(st.train));
    var t := |p| - 4;
    ReachedAfterColmap(st, images, out, h, exit, t);
    ReachesStep(p, exit, t);
    if e in r.trace {
      var i :| 0 <= i < |r.trace| && r.trace[i] == e;
      TrainOnlyAt(st, images, out, h, exit, i);
    }
    if ColmapOk(st, exit) {
      FixedSteps(st, images, out, h);
      assert r.trace[t] == EventOf(p[t], exit);
    }
  }

  /** The mask stage runs exactly when its script exists and the COLMAP stages succeed. */
  lemma SegRunsIff(st: Stages, images: Path, out: Path, h: Host, exit: ExitOracle)
    requires Distinct(st)
    ensures Ran(st.seg, exit(st.seg)) in Exec(Layout(st, images, out, h), exit).trace
      <==> h.segScriptPresent && ColmapOk(st, exit)
  {
    var p := Layout(st, images, out, h);
    var r := Exec(p, exit);
    var e := Ran(st.seg, exit(st.seg));
    if e in r.trace {
      var i :| 0 <= i < |r.trace| && r.trace[i] == e;
      assert EventOf(p[i], exit) == e;
      InvokePosition(st, images, out, h, i);
      ReachesStep(p, exit, i);
      ReachedAfterColmap(st, images, out, h, exit, i);
    }
    if h.segScriptPresent && ColmapOk(st, exit) {
      var middle := Middle(st, images, out, h);
      var j :| 0 <= j < |middle| && middle[j] == Invoke(st.seg, BestEffort);
      MiddleOfLayout(st, images, out, h, j);
      ReachedAfterColmap(st, images, out, h, exit, 5 + j);
      ReachesStep(p, exit, 5 + j);
      assert r.trace[5 + j] == EventOf(p[5 + j], exit);
    }
  }

  /** A copy that happens was planned by the middle part, after the COLMAP stages succeeded. */
  lemma CopyRanWasPlanned(st: Stages, images: Path, out: Path, h: Host, exit: ExitOracle, eff: Effect)
    requires eff.CopyTree? || eff.CopyImages?
    requires Performed(eff) in Exec(Layout(st, images, out, h), exit).trace
    ensures Perform(eff) in Middle(st, images, out, h) && ColmapOk(st, exit)
  {
    var p := Layout(st, images, out, h);
    var r := Exec(p, exit);
    var i :| 0 <= i < |r.trace| && r.trace[i] == Performed(eff);
    assert EventOf(p[i], exit) == Performed(eff);
    PerformPosition(st, images, out, h, i);
    ReachesStep(p, exit, i);
    ReachedAfterColmap(st, images, out, h, exit, i);
  }

  /** A copy the middle part plans happens once the COLMAP stages succeed. */
  lemma PlannedCopyRuns(st: Stages, images: Path, out: Path, h: Host, exit: ExitOracle, eff: Effect)
    requires Perform(eff) in Middle(st, images, out, h) && ColmapOk(st, exit)
    ensures Performed(eff) in Exec(Layout(st, images, out, h), exit).trace
  {
    var p := Layout(st, images, out, h);
    var r := Exec(p, exit);
    var middle := Middle(st, images, out, h);
    var j :| 0 <= j < |middle| && middle[j] == Perform(eff);
    MiddleOfLayout(st, images, out, h, j);
    ReachedAfterColmap(st, images, out, h, exit, 5 + j);
    ReachesStep(p, exit, 5 + j);
    assert r.trace[5 + j] == EventOf(p[5 + j], exit);
  }

  /** A copy into the scene folder happens exactly when the middle part plans it and
      the COLMAP stages succeed. */
  lemma CopyRunsIff(st: Stages, images: Path, out: Path, h: Host, exit: ExitOracle, eff: Effect)
    requires eff.CopyTree? || eff.CopyImages?
    ensures Performed(eff) in Exec(Layout(st, images, out, h), exit).trace
      <==> Perform(eff) in Middle(st, images, out, h) && ColmapOk(st, exit)
  {
    if Performed(eff) in Exec(Layout(st, images, out, h), exit).trace {
      CopyRanWasPlanned(st, images, out, h, exit, eff);
    }
    if Perform(eff) in Middle(st, images, out, h) && ColmapOk(st, exit) {
      PlannedCopyRuns(st, images, out, h, exit, eff);
    }
  }

  /** The run completes exactly when the COLMAP stages, training and rendering succeed. */
  lemma LayoutCompletesIff(st: Stages, images: Path, out: Path, h: Host, exit: ExitOracle)
    ensures Exec(Layout(st, images, out, h), exit).outcome.Completed?
      <==> ColmapOk(st, exit) && exit(st.train) == 0 && exit(st.render) == 0
  {
    var p := Layout(st, images, out, h);
    CompletesUnlessAborts(p, exit);
    if ColmapOk(st, exit) && exit(st.train) == 0 && exit(st.render) == 0 {
      forall j | 0 <= j < |p|
        ensures !Aborts(p[j], exit)
      {
        LayoutAborts(st, images, out, h, exit, j);
      }
    } else {
      var j := if exit(st.extract) != 0 then 1 else if exit(st.matching) != 0 then 2
        else if exit(st.mapper) != 0 then 4 else if exit(st.train) != 0 then |p| - 4 else |p| - 3;
      LayoutAborts(st, images, out, h, exit, j);
      assert Aborts(p[j], exit);
    }
  }

  /** The viewer page is the last step and no other step writes it. */
  lemma ViewerOnlyLast(st: Stages, images: Path, out: Path, h: Host, exit: ExitOracle, i: int)
    requires 0 <= i < |Layout(st, images, out, h)|
    requires EventOf(Layout(st, images, out, h)[i], exit) == Performed(WriteViewer(ViewerPage(out)))
    ensures i == |Layout(st, images, out, h)| - 1
  {
    PerformPosition(st, images, out, h, i);
  }

  /** The plan ends with writing the viewer page. */
  lemma LastIsViewer(st: Stages, images: Path, out: Path, h: Host)
    ensures var p := Layout(st, images, out, h);
      |p| > 0 && p[|p| - 1] == Perform(WriteViewer(ViewerPage(out)))
  {
    FixedSteps(st, images, out, h);
  }

  /** The viewer page is written exactly when the run completes. */
  lemma ViewerWrittenIff(st: Stages, images: Path, out: Path, h: Host, exit: ExitOracle)
    ensures var r := Exec(Layout(st, images, out, h), exit);
      Performed(WriteViewer(ViewerPage(out))) in r.trace <==> r.outcome.Completed?
  {
    var p := Layout(st, images, out, h);
    var r := Exec(p, exit);
    var e := Performed(WriteViewer(ViewerPage(out)));
    LastIsViewer(st, images, out, h);
    LastStepMeansCompleted(p, exit);
    if e in r.trace {
      var i :| 0 <= i < |r.trace| && r.trace[i] == e;
      ViewerOnlyLast(st, images, out, h, exit, i);
    }
    if r.outcome.Completed? {
      assert r.trace[|p| - 1] == EventOf(p[|p| - 1], exit);
    }
  }

  /** Training runs exactly when the COLMAP stages succeed, whatever the mask stage does. */
  lemma TrainsIffColmapSucceeds(cfg: Config, images: Path, out: Path, h: Host, k: Intrinsics, exit: ExitOracle)
    ensures var t := TrainCommand(cfg, out);
      Ran(t, exit(t)) in RunOf(cfg, images, out, h, k, exit).trace <==> ColmapSucceeds(cfg, images, out, k, exit)
  {
    StagesOfDistinct(cfg, images, out, k);
    TrainRunsIff(StagesOf(cfg, images, out, k), images, out, h, exit);
  }

  /** The mask stage runs exactly when its script exists and the COLMAP stages succeed;
      its exit code has no influence on what follows. */
  lemma MasksAreBestEffort(cfg: Config, images: Path, out: Path, h: Host, k: Intrinsics, exit: ExitOracle)
    ensures var m := SegCommand(cfg, out);
      (Ran(m, exit(m)) in RunOf(cfg, images, out, h, k, exit).trace)
        <==> h.segScriptPresent && ColmapSucceeds(cfg, images, out, k, exit)
  {
    StagesOfDistinct(cfg, images, out, k);
    SegRunsIff(StagesOf(cfg, images, out, k), images, out, h, exit);
  }

  /** The image copy depends only on whether `<scene>/images` exists, not on the poses. */
  lemma ImagesCopiedIff(cfg: Config, images: Path, out: Path, h: Host, k: Intrinsics, exit: ExitOracle)
    ensures Performed(CopyImages(images, SceneImages(out))) in RunOf(cfg, images, out, h, k, exit).trace
      <==> !h.sceneImagesPresent && ColmapSucceeds(cfg, images, out, k, exit)
  {
    CopyRunsIff(StagesOf(cfg, images, out, k), images, out, h, exit, CopyImages(images, SceneImages(out)));
  }

  /** The poses are copied from `<out>/sparse` exactly when `<scene>/colmap` is missing,
      whether or not the images had to be copied. */
  lemma PosesCopiedIff(cfg: Config, images: Path, out: Path, h: Host, k: Intrinsics, exit: ExitOracle)
    ensures Performed(CopyTree(Sparse(out), ScenePoses(out))) in RunOf(cfg, images, out, h, k, exit).trace
      <==> !h.sceneColmapPresent && ColmapSucceeds(cfg, images, out, k, exit)
  {
    CopyRunsIff(StagesOf(cfg, images, out, k), images, out, h, exit, CopyTree(Sparse(out), ScenePoses(out)));
  }

  /** The pipeline completes exactly when the COLMAP stages, training and rendering all
      exit with 0; the mask stage plays no part. */
  lemma CompletesIff(cfg: Config, images: Path, out: Path, h: Host, k: Intrinsics, exit: ExitOracle)
    ensures RunOf(cfg, images, out, h, k, exit).outcome.Completed? <==>
      && ColmapSucceeds(cfg, images, out, k, exit)
      && exit(TrainCommand(cfg, out)) == 0
      && exit(RenderCommand(cfg, out)) == 0
  {
    LayoutCompletesIff(StagesOf(cfg, images, out, k), images, out, h, exit);
  }

  /** The viewer page is written exactly when the whole pipeline completes. */
  lemma ViewerIffCompleted(cfg: Config, images: Path, out: Path, h: Host, k: Intrinsics, exit: ExitOracle)
    ensures var r := RunOf(cfg, images, out, h, k, exit);
      Performed(WriteViewer(ViewerPage(out))) in r.trace <==> r.outcome.Completed?
  {
    ViewerWrittenIff(StagesOf(cfg, images, out, k), images, out, h, exit);
  }
}
