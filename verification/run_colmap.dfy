/**
  scripts/run_colmap.py: COLMAP feature extraction, exhaustive matching and
  mapping into `<output>/sparse`, a copy of the images next to the model, and
  OpenSplat when it is on the PATH.

  The parsed arguments (absolute paths) are inputs; so are the two facts the
  script looks up on the host: where `shutil.which("opensplat")` points, and
  whether `<output>/images` already exists.
 */
module RunColmap {
  import opened Wrappers
  import opened Commands
  import opened Sequencer

  /** `--images`, `--output` (both made absolute) and `--use_gpu`. */
  datatype Args = Args(images: Path, output: Path, useGpu: bool)

  /** What the script finds on the host. */
  datatype Host = Host(openSplat: Option<Path>, imagesCopyPresent: bool)

  function Database(a: Args): Path { Child(a.output, "database.db") }
  function Sparse(a: Args): Path { Child(a.output, "sparse") }
  function ImagesCopy(a: Args): Path { Child(a.output, "images") }

  /** `colmap feature_extractor`: one SIMPLE_RADIAL camera for all images, GPU use
      spelled out either way. */
  function FeatureCommand(a: Args): (c: Command)
    ensures c.program == Word("colmap") && c.positional == [Word("feature_extractor")]
    ensures Passes(c, DatabasePath, PathArg(Database(a))) && Passes(c, ImagePath, PathArg(a.images))
    ensures Passes(c, SingleCamera, Word("1")) && Passes(c, CameraModel, Word("SIMPLE_RADIAL"))
    ensures Passes(c, ExtractionGpu, Word("1")) <==> a.useGpu
    ensures Passes(c, ExtractionGpu, Word("0")) <==> !a.useGpu
  {
    Command(Word("colmap"), [Word("feature_extractor")],
      map[DatabasePath := PathArg(Database(a)), ImagePath := PathArg(a.images),
          SingleCamera := Word("1"), CameraModel := Word("SIMPLE_RADIAL"),
          ExtractionGpu := Bit(a.useGpu)],
      {})
  }

  /** `colmap exhaustive_matcher`: the GPU option is added only when requested, so
      without `--use_gpu` COLMAP's own default applies. */
  function MatchCommand(a: Args): (c: Command)
    ensures c.program == Word("colmap") && c.positional == [Word("exhaustive_matcher")]
    ensures Passes(c, DatabasePath, PathArg(Database(a)))
    ensures MatchingGpu in c.options <==> a.useGpu
    ensures a.useGpu ==> Passes(c, MatchingGpu, Word("1"))
  {
    var base := map[DatabasePath := PathArg(Database(a))];
    Command(Word("colmap"), [Word("exhaustive_matcher")],
      if a.useGpu then base[MatchingGpu := Word("1")] else base,
      {})
  }

  /** `colmap mapper`, writing its models under `<output>/sparse`. */
  function MapperCommand(a: Args): (c: Command)
    ensures c.program == Word("colmap") && c.positional == [Word("mapper")]
    ensures Passes(c, DatabasePath, PathArg(Database(a))) && Passes(c, ImagePath, PathArg(a.images))
    ensures Passes(c, OutputPath, PathArg(Sparse(a)))
  {
    Command(Word("colmap"), [Word("mapper")],
      map[DatabasePath := PathArg(Database(a)), ImagePath := PathArg(a.images), OutputPath := PathArg(Sparse(a))],
      {})
  }

  /** `opensplat <output> -n 2000`: the output folder is the one holding `images/` and `sparse/`. */
  function OpenSplatCommand(exe: Path, a: Args): (c: Command)
    ensures c.program == PathArg(exe) && c.positional == [PathArg(a.output)]
    ensures Passes(c, NumIters, Word("2000"))
  {
    Command(PathArg(exe), [PathArg(a.output)], map[NumIters := Word("2000")], {})
  }

  /** Step 5: copy the images unless a copy is already there. */
  function CopyStep(a: Args, h: Host): Step
  {
    if h.imagesCopyPresent then Perform(Notice(ImagesAlreadyPresent))
    else Perform(CopyTree(a.images, ImagesCopy(a)))
  }

  /** Step 6: OpenSplat when found, otherwise only a hint. */
  function SplatStep(a: Args, h: Host): Step
  {
    match h.openSplat
    case Some(exe) => Invoke(OpenSplatCommand(exe, a), Required)
    case None => Perform(Notice(OpenSplatNotFound))
  }

  /** `main` after argument parsing, as a list of steps. Every command is checked by
      `run_cmd`, so all of them are required. */
  function Plan(a: Args, h: Host): seq<Step>
  {
    [
      Perform(MakeDir(a.output)),
      Invoke(FeatureCommand(a), Required),
      Invoke(MatchCommand(a), Required),
      Perform(MakeDir(Sparse(a))),
      Invoke(MapperCommand(a), Required),
      CopyStep(a, h),
      SplatStep(a, h)
    ]
  }

  /** The three COLMAP stages succeed. */
  predicate ColmapSucceeds(a: Args, exit: ExitOracle)
  {
    exit(FeatureCommand(a)) == 0 && exit(MatchCommand(a)) == 0 && exit(MapperCommand(a)) == 0
  }

  /** Only the three COLMAP stages and OpenSplat can stop the script, each when its
      exit code is not 0. */
  lemma AbortingSteps(a: Args, h: Host, exit: ExitOracle)
    ensures var p := Plan(a, h);
      && |p| == 7
      && forall j :: 0 <= j < |p| ==> (Aborts(p[j], exit) <==>
        || (j == 1 && exit(FeatureCommand(a)) != 0)
        || (j == 2 && exit(MatchCommand(a)) != 0)
        || (j == 4 && exit(MapperCommand(a)) != 0)
        || (j == 6 && h.openSplat.Some? && exit(OpenSplatCommand(h.openSplat.value, a)) != 0))
  {
    var p := Plan(a, h);
    forall j | 0 <= j < |p|
      ensures Aborts(p[j], exit) <==>
        || (j == 1 && exit(FeatureCommand(a)) != 0)
        || (j == 2 && exit(MatchCommand(a)) != 0)
        || (j == 4 && exit(MapperCommand(a)) != 0)
        || (j == 6 && h.openSplat.Some? && exit(OpenSplatCommand(h.openSplat.value, a)) != 0)
    {
      if j == 0 {} else if j == 1 {} else if j == 2 {} else if j == 3 {} else if j == 4 {} else if j == 5 {} else {}
    }
  }

  /** The whole script: it completes exactly when the COLMAP stages and, if it was
      found, OpenSplat all exit with 0; otherwise it stops with the first failure. */
  function Main(a: Args, h: Host, exit: ExitOracle): (r: Run)
    ensures ObeysPolicy(Plan(a, h), exit, r)
    ensures r.outcome.Completed? <==>
      ColmapSucceeds(a, exit) && (h.openSplat.Some? ==> exit(OpenSplatCommand(h.openSplat.value, a)) == 0)
  {
    var p := Plan(a, h);
    CompletesUnlessAborts(p, exit);
    AbortingSteps(a, h, exit);
    assert !ColmapSucceeds(a, exit) ==> Aborts(p[1], exit) || Aborts(p[2], exit) || Aborts(p[4], exit);
    assert h.openSplat.Some? && exit(OpenSplatCommand(h.openSplat.value, a)) != 0 ==> Aborts(p[6], exit);
    Exec(p, exit)
  }

  /** Every COLMAP stage works on the same database inside the output folder, and the
      mapper writes its model to `<output>/sparse`. */
  lemma StagesShareDatabase(a: Args)
    ensures var db := PathArg(Child(a.output, "database.db"));
      && Passes(FeatureCommand(a), DatabasePath, db)
      && Passes(MatchCommand(a), DatabasePath, db)
      && Passes(MapperCommand(a), DatabasePath, db)
      && Passes(MapperCommand(a), OutputPath, PathArg(Child(a.output, "sparse")))
  {
  }

  /** Steps 0 to 4 all happen exactly when the COLMAP stages succeed. */
  lemma ColmapGate(a: Args, h: Host, exit: ExitOracle, i: nat)
    requires i == 5 || i == 6
    ensures i < |Main(a, h, exit).trace| <==> ColmapSucceeds(a, exit)
  {
    var p := Plan(a, h);
    AbortingSteps(a, h, exit);
    ReachesStep(p, exit, i);
    if !ColmapSucceeds(a, exit) {
      assert Aborts(p[1], exit) || Aborts(p[2], exit) || Aborts(p[4], exit);
    }
  }

  /** Only step 5 of the plan (counting from 0) copies the images, and only when no
      copy exists. */
  lemma CopyOnlyAtStepFive(a: Args, h: Host, i: int)
    requires 0 <= i < |Plan(a, h)| && Plan(a, h)[i] == Perform(CopyTree(a.images, ImagesCopy(a)))
    ensures i == 5 && !h.imagesCopyPresent
  {
    if i == 0 {} else if i == 1 {} else if i == 2 {} else if i == 3 {} else if i == 4 {} else if i == 6 {}
  }

  /** The images are copied exactly when the COLMAP stages succeed and no copy exists. */
  lemma CopiesImagesIff(a: Args, h: Host, exit: ExitOracle)
    ensures Performed(CopyTree(a.images, ImagesCopy(a))) in Main(a, h, exit).trace
      <==> ColmapSucceeds(a, exit) && !h.imagesCopyPresent
  {
    var p := Plan(a, h);
    var r := Main(a, h, exit);
    var e := Performed(CopyTree(a.images, ImagesCopy(a)));
    ColmapGate(a, h, exit, 5);
    if e in r.trace {
      var i :| 0 <= i < |r.trace| && r.trace[i] == e;
      assert r.trace[i] == EventOf(p[i], exit);
      CopyOnlyAtStepFive(a, h, i);
    }
    if ColmapSucceeds(a, exit) && !h.imagesCopyPresent {
      assert r.trace[5] == EventOf(p[5], exit);
    }
  }

  /** OpenSplat runs exactly when it was found and the three COLMAP stages succeeded;
      without it, only COLMAP runs. */
  lemma OpenSplatRunsIff(a: Args, h: Host, exit: ExitOracle)
    ensures h.openSplat.Some? ==>
      ((exists code :: Ran(OpenSplatCommand(h.openSplat.value, a), code) in Main(a, h, exit).trace)
        <==> ColmapSucceeds(a, exit))
    ensures h.openSplat.None? ==>
      forall e :: e in Main(a, h, exit).trace && e.Ran? ==> e.cmd.program == Word("colmap")
  {
    if h.openSplat.Some? {
      FoundOpenSplatRunsIff(a, h, exit);
    } else {
      OnlyColmapRuns(a, h, exit);
    }
  }

  /** Before the last step, every command the plan runs is COLMAP. */
  lemma ColmapBeforeSplat(a: Args, h: Host)
    ensures var p := Plan(a, h);
      forall j :: 0 <= j < 6 && p[j].Invoke? ==> p[j].cmd.program == Word("colmap")
  {
    var p := Plan(a, h);
    forall j | 0 <= j < 6 && p[j].Invoke?
      ensures p[j].cmd.program == Word("colmap")
    {
      if j == 0 {} else if j == 1 {} else if j == 2 {} else if j == 3 {} else if j == 4 {} else {}
    }
  }

  lemma FoundOpenSplatRunsIff(a: Args, h: Host, exit: ExitOracle)
    requires h.openSplat.Some?
    ensures (exists code :: Ran(OpenSplatCommand(h.openSplat.value, a), code) in Main(a, h, exit).trace)
      <==> ColmapSucceeds(a, exit)
  {
    var p := Plan(a, h);
    var r := Main(a, h, exit);
    var c := OpenSplatCommand(h.openSplat.value, a);
    ColmapGate(a, h, exit, 6);
    if exists code :: Ran(c, code) in r.trace {
      var code :| Ran(c, code) in r.trace;
      var i :| 0 <= i < |r.trace| && r.trace[i] == Ran(c, code);
      assert r.trace[i] == EventOf(p[i], exit);
      ColmapBeforeSplat(a, h);
      assert i == 6;
    }
    if ColmapSucceeds(a, exit) {
      assert r.trace[6] == Ran(c, exit(c));
    }
  }

  lemma OnlyColmapRuns(a: Args, h: Host, exit: ExitOracle)
    requires h.openSplat.None?
    ensures forall e :: e in Main(a, h, exit).trace && e.Ran? ==> e.cmd.program == Word("colmap")
  {
    var p := Plan(a, h);
    var r := Main(a, h, exit);
    forall e | e in r.trace && e.Ran?
      ensures e.cmd.program == Word("colmap")
    {
      var i :| 0 <= i < |r.trace| && r.trace[i] == e;
      assert r.trace[i] == EventOf(p[i], exit);
      ColmapBeforeSplat(a, h);
    }
  }

  /** A failing mapper ends the script with its exit code: nothing is copied and
      OpenSplat does not run. */
  lemma MapperFailureStops(a: Args, h: Host, exit: ExitOracle)
    requires exit(FeatureCommand(a)) == 0 && exit(MatchCommand(a)) == 0
    requires exit(MapperCommand(a)) != 0
    ensures var r := Main(a, h, exit);
      && r.outcome == Failed(exit(MapperCommand(a)), MapperCommand(a))
      && |r.trace| == 5
  {
    var p := Plan(a, h);
    AbortingSteps(a, h, exit);
    ReachesStep(p, exit, 4);
    assert Aborts(p[4], exit);
  }
}
