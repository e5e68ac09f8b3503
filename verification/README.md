# Drone photogrammetry pipeline: a Dafny model

This project models the three scripts that turn a folder of drone photographs
into a sparse COLMAP reconstruction and a Gaussian-splat scene:

- `scripts/prepare_metadata.py` reads each photo's `.JSON` telemetry sidecar. It
  resolves one shared SIMPLE_RADIAL camera from the first sidecar it finds (the
  "sample"), builds one record per photo that has a sidecar, and writes
  `cameras.txt`, `images.txt` (GPS positions as pose priors) and `colmap.ini`.
- `scripts/run_colmap.py` runs COLMAP feature extraction, exhaustive matching and
  mapping. It then copies the images next to the model and runs OpenSplat when
  OpenSplat is on the PATH.
- `scripts/run_colmap_dronesplat.py` reads the intrinsics from the drone
  metadata, runs COLMAP with those intrinsics and spatial matching, and fills a
  DroneSplat scene folder. It then runs the optional SAM2 mask stage, DroneSplat
  training and rendering, and writes a small web viewer.

The modules follow that structure:

- `Wrappers`, `Text`: the `Result` and `Option` types, and the string helpers:
  `str.split`, joining, the first field before a separator and the last index of a
  character.
- `Telemetry`: decoded JSON values and Python's `dict.get`, `float`, `int` and
  truthiness. It also holds the "num/den" focal-length rule.
- `Cameras`: the camera resolved from the sample, or the fixed fallback camera.
- `Metadata`: sidecar naming (`rsplit('.', 1)` as `Stem`, `os.path.basename` as
  `Basename`), the two passes of `extract_metadata`, and the records.
- `PriorWriter`: the content of the three output files. Each writer is paired
  with a reader that inverts it.
- `Prepare`: the converter's `__main__` block.
- `Commands`: command lines, as a program, positional arguments, `--flag value`
  options and switches.
- `Sequencer`: the control flow both pipeline scripts share. Steps run in order.
  A required command that exits non-zero ends the run. A best-effort command
  (the mask stage) never does. It has a reference predicate (`ObeysPolicy`), a
  recursive interpreter and a loop.
- `RunColmap`, `DroneSplat`: each script's `main` as a list of steps. Every
  command line is built with the script's constants.

Exit codes come from an oracle (`Command -> int`). Host facts are inputs: which
files exist, what a glob returns, what PIL reports as an image size, and where
`shutil.which` points. Parsing a number's text is also an oracle, `float(str)`
and `int(str)` as partial functions.

Two behaviours of the converter are stated as lemmas:

- A sidecar that decodes to `{}` is falsy. It therefore selects the fallback
  camera (focal 3700.0), while every record still reads the default
  `"3700/1000"` from it (focal 3.7). See `EmptySampleSplitsFocal`.
- A non-empty sample without camera fields gives focal 3.7 and the image
  middle as principal point. This is not the fallback camera. See
  `SampleWithoutCameraFields`.

The records' focal length is never written to a file. So the first behaviour
leaves the output unchanged: `cameras.txt` holds the fallback camera. The second
does change it: `cameras.txt` holds focal 3.7 and principal point (2028, 1520)
instead of the fallback's 3700.0 and (2022.872267, 1512.190903).

## Model

| member | source | states |
|---|---|---|
| Text.SplitOfJoin | scripts/prepare_metadata.py:27 | splitting the join of separator-free parts gives back exactly those parts |
| Text.FirstFieldBeforeSeparator | scripts/prepare_metadata.py:37 | `split(",")[0]` of `a,rest` is `a` when `a` holds no comma |
| Text.LastIndexOfIs | scripts/prepare_metadata.py:13 | the last occurrence of a character is the position that holds it with none after it |
| Telemetry.Trunc | scripts/prepare_metadata.py:21-22 | `int()` of a float rounds toward zero: below `x` and within 1 for positives, above and within 1 for negatives |
| Telemetry.ParseFraction | scripts/prepare_metadata.py:24-30 | a value without `/` goes to `float` directly; a string with `/` succeeds only with exactly one `/`, as the quotient of its two halves read by `float`; more parts are an error |
| Telemetry.CountZeroIff | scripts/prepare_metadata.py:26 | a string has no `/` exactly when it counts zero `/` |
| Telemetry.FractionOfTwoNumbers | scripts/prepare_metadata.py:26-28 | on `a/b`: a bad numerator, then a bad denominator, then a zero denominator are the errors, in that order; otherwise the quotient |
| Telemetry.DefaultFocalIsThreePointSeven | scripts/prepare_metadata.py:25-30 | the default focal text `3700/1000` reads as 3.7, the same as the plain number 3.7 |
| Telemetry.PlainNumber | scripts/prepare_metadata.py:29-30 | a JSON number focal length is taken unchanged |
| Cameras.SampleFocal | scripts/prepare_metadata.py:25-30 | a non-object sample has no `.get`; a present `FocalLength` goes through the fraction rule |
| Cameras.Dimensions | scripts/prepare_metadata.py:21-22 | a non-object sample has no `.get`; a present pixel dimension is `int` of its value, a missing one 4056 or 3040 |
| Cameras.Principal | scripts/prepare_metadata.py:32-33 | without `CalibratedOpticalCenter` the principal point is half the width and half the height; with it, the center must be an object whose X and Y are read by `float`, each axis falling back to the half size when missing |
| Cameras.SizeFromSample | scripts/prepare_metadata.py:21-22 | a resolved camera's width and height are `int` of the sample's pixel dimensions, truncated toward zero for JSON numbers |
| Cameras.FocalFromSample | scripts/prepare_metadata.py:25-30 | a resolved camera's focal length is the sample's `FocalLength` through the fraction rule |
| Cameras.FocalFromFraction | scripts/prepare_metadata.py:26-28 | a `FocalLength` of `a/b` gives the focal length `float(a) / float(b)` |
| Cameras.CenterFromSample | scripts/prepare_metadata.py:32-33 | a calibrated optical center gives the principal point `float(X)`, `float(Y)`, the numbers themselves for JSON numbers |
| Cameras.ResolveCamera | scripts/prepare_metadata.py:20-43 | no sample or a falsy sample gives the fallback camera; a truthy non-object raises; the first failing group among size, focal length, center and distortion, in that order, gives the error; otherwise every parameter is what the sample's fields give |
| Cameras.RadialK1 | scripts/prepare_metadata.py:36-37 | a non-object sample, or a `DewarpData` that is not a string, has no `.get`/`.split`; a string gives `float` of its first comma-separated field |
| Cameras.CenterDefaultsToMiddle | scripts/prepare_metadata.py:32-33 | a resolved camera without a calibrated center has its center at the image middle |
| Cameras.K1IsFirstDewarpField | scripts/prepare_metadata.py:36-37 | k1 is `float` of the first comma-separated field of `DewarpData` |
| Cameras.SampleWithoutCameraFields | scripts/prepare_metadata.py:20-37 | a non-empty sample naming no camera field gives 4056x3040, focal 3.7, center (2028, 1520), k1 0.123224 |
| Cameras.Assembled | scripts/prepare_metadata.py:20-47 | a truthy sample whose four field groups read gives the camera made of exactly those values |
| Cameras.EmptySampleIsFallback | scripts/prepare_metadata.py:38-43 | `{}` as sample gives the fallback camera |
| Cameras.DimensionsDefault | scripts/prepare_metadata.py:21-22 | missing pixel dimensions default to 4056x3040 |
| Cameras.FocalDefault | scripts/prepare_metadata.py:25 | a missing focal length reads as 3.7 |
| Cameras.K1Default | scripts/prepare_metadata.py:36-37 | missing `DewarpData` gives k1 0.123224 |
| Metadata.Stem | scripts/prepare_metadata.py:13 | the path cut before its last dot: a prefix, followed in the path by that dot with no dot after; the whole path when it has no dot |
| Metadata.SidecarPath | scripts/prepare_metadata.py:50 | the stem followed by `.JSON`, i.e. the extension replaced |
| Metadata.SidecarKeepsStem | scripts/prepare_metadata.py:13 | a sidecar path keeps its image's stem, so naming a sidecar's sidecar changes nothing |
| Metadata.Basename | scripts/prepare_metadata.py:75 | a suffix of the path holding no `/`, preceded by a `/` when the path has one |
| Metadata.WithSidecars | scripts/prepare_metadata.py:49-51 | the listed images that have a sidecar, and only those, each one carrying a sidecar |
| Metadata.FirstWithSidecar | scripts/prepare_metadata.py:12-17 | the index of the first listed image with a sidecar, and None exactly when no image has one |
| Metadata.FirstWithSidecarHeadsRecords | scripts/prepare_metadata.py:12-17 | the image the first pass stops at is the first image the second pass reads |
| Metadata.SampleDoc | scripts/prepare_metadata.py:12-17 | no sample exactly when no image has a sidecar; otherwise the sample is the decoded sidecar of the first image that has one |
| Metadata.FirstSidecarIsSample | scripts/prepare_metadata.py:12-17 | the decoded sidecar of the first listed image with one is the sample; an unreadable one raises, naming that path |
| Metadata.ReadField | scripts/prepare_metadata.py:56-64 | a non-object has no `.get`; a missing key reads as 0; a present one is `float` of its value |
| Metadata.RecordOf | scripts/prepare_metadata.py:55-83 | a non-object sidecar raises; a record is named by the image's basename, holds the latitude, longitude and altitude read from the sidecar and the yaw, pitch and roll read from its `CameraOrientationNED`, and carries the sample's focal length, not its own |
| Metadata.RecordOfSucceeds | scripts/prepare_metadata.py:55-83 | when all seven reads succeed the record holds exactly the values read |
| Metadata.MissingFieldsAreZero | scripts/prepare_metadata.py:56-64 | a sidecar without position and orientation fields gives zeros for all six |
| Metadata.CollectRecords | scripts/prepare_metadata.py:49-85 | a successful second pass gives one record per image with a readable sidecar, in listing order, each read from that sidecar |
| Metadata.CollectRecordsOkIff | scripts/prepare_metadata.py:49-85 | the second pass succeeds exactly when every listed image with a sidecar has a readable one whose record reads |
| Metadata.OneImageOneRecord | scripts/prepare_metadata.py:49-83 | a listing of one image with a readable sidecar gives exactly that image's record |
| Metadata.UnreadableSidecarStops | scripts/prepare_metadata.py:49-53 | an undecodable sidecar anywhere in the listing makes the second pass fail |
| Metadata.NoSidecarNoRecords | scripts/prepare_metadata.py:49-51 | without sidecars the second pass yields no record |
| Metadata.ExtractMetadata | scripts/prepare_metadata.py:6-85 | no sidecars gives the fallback camera and no records; it succeeds exactly when the sample, the camera and the second pass do, and then the camera comes from the sample and the records from the second pass, each named after its image |
| Metadata.ExtractMetadataOkIff | scripts/prepare_metadata.py:6-85 | extraction succeeds exactly when the sample is readable, the camera resolves and every image with a sidecar yields a record |
| Metadata.MatchedRecordsCarryFocal | scripts/prepare_metadata.py:67-72 | records read against a sample all carry that sample's focal length |
| Metadata.FocalAgreesWithCamera | scripts/prepare_metadata.py:20-72 | with a truthy sample every record's focal length equals the camera's |
| Metadata.RecordsCarrySampleFocal | scripts/prepare_metadata.py:67-72 | every extracted record carries the focal length read from the sample |
| Metadata.EmptySampleSplitsFocal | scripts/prepare_metadata.py:20-72 | with `{}` as sample the camera's focal length is 3700.0 while every record's is 3.7 |
| PriorWriter.CamerasFile | scripts/prepare_metadata.py:92-96 | three fixed header lines, then one camera line |
| PriorWriter.CamerasRoundTrip | scripts/prepare_metadata.py:92-96 | `cameras.txt` reads back to its camera, and only the written file reads back to it |
| PriorWriter.PriorOf | scripts/prepare_metadata.py:113-117 | the pose of record `idx` has id `idx + 1`, translation longitude and latitude times 111000 and the altitude, and the record's name |
| PriorWriter.Priors | scripts/prepare_metadata.py:104-117 | one prior per record, numbered from 1 in list order |
| PriorWriter.PosesRoundTrip | scripts/prepare_metadata.py:104-118 | pose lines read back to their priors, and only written pose lines read back to given priors |
| PriorWriter.ImagesFile | scripts/prepare_metadata.py:99-118 | three fixed header lines, then two lines per record |
| PriorWriter.ImagesRoundTrip | scripts/prepare_metadata.py:99-118 | `images.txt` reads back to the records' ids, translations and names in order |
| PriorWriter.OrientationNotWritten | scripts/prepare_metadata.py:104-118 | records that agree on name and position give the same `images.txt`: yaw, pitch, roll and focal length are dropped |
| PriorWriter.IniText | scripts/prepare_metadata.py:122-135 | the fixed head, the image path, then the fixed [Mapper] tail |
| PriorWriter.IniRoundTrip | scripts/prepare_metadata.py:120-137 | the image path is the only variable part of `colmap.ini`: it reads back, and a text reading back to it is the written file |
| Prepare.SomeSidecarSomeRecord | scripts/prepare_metadata.py:149 | the record list is empty exactly when no image has a sidecar |
| Prepare.Prepare | scripts/prepare_metadata.py:148-155 | succeeds exactly when extraction does; writes nothing exactly when no image has a sidecar; otherwise the three files read back to the camera, the records' priors and the image folder |
| Prepare.PosesFollowListing | scripts/prepare_metadata.py:148-150 | pose k of the written `images.txt` has id k + 1 and the basename of the k-th image with a sidecar |
| Prepare.PrepareWrites | scripts/prepare_metadata.py:148-151 | with at least one record the three files written are those of the extraction |
| Prepare.SinglePhotoExtract | scripts/prepare_metadata.py:12-85 | one photo whose sidecar reads is both the sample and the only record |
| Prepare.SinglePhotoPose | scripts/prepare_metadata.py:49-117 | one photo gives one pose, id 1, at its longitude and latitude times 111000 and its altitude |
| Prepare.ExamplePose | scripts/prepare_metadata.py:56-117 | a photo at latitude 37, longitude -122, altitude 50 gives the pose line `1 1 0 0 0 -13542000 4107000 50 1 <basename>` |
| Commands.Bit | scripts/run_colmap.py:39-42 | the "1"/"0" text of a boolean option, "1" exactly when true |
| Sequencer.Exec | scripts/run_colmap.py:13-18 | a run obeys the reference semantics: steps happen in plan order, the first failing required command is the last step and its code is reported, otherwise the run completes |
| Sequencer.Drive | scripts/run_colmap.py:13-18 | the step loop obeys the same reference semantics |
| Sequencer.PolicyDeterminesRun | scripts/run_colmap.py:13-18 | the reference semantics allows one run per plan and exit codes, so the loop and the recursion agree |
| Sequencer.ReachesStep | scripts/run_colmap.py:16-18 | a step happens exactly when no earlier step aborts |
| Sequencer.HappensIff | scripts/run_colmap.py:16-18 | an event occurs exactly when some step producing it is reached |
| Sequencer.CompletesUnlessAborts | scripts/run_colmap.py:17-18 | a run completes exactly when no step aborts |
| Sequencer.LastStepMeansCompleted | scripts/run_colmap.py:16-18 | when the last step cannot abort, reaching it is completing |
| Sequencer.InvokedIsPrefixOfPlanned | scripts/run_colmap.py:13-18 | the commands run are a prefix of the commands planned, in order |
| RunColmap.FeatureCommand | scripts/run_colmap.py:32-43 | `colmap feature_extractor` on the output database and the image folder, one SIMPLE_RADIAL camera, and GPU "1" exactly when requested, "0" otherwise |
| RunColmap.MatchCommand | scripts/run_colmap.py:46-52 | `colmap exhaustive_matcher` on the output database, with a GPU option exactly when GPU use is requested |
| RunColmap.MapperCommand | scripts/run_colmap.py:55-63 | `colmap mapper` reading the database and the image folder and writing to `<output>/sparse` |
| RunColmap.OpenSplatCommand | scripts/run_colmap.py:79 | OpenSplat runs on the output folder with 2000 iterations |
| RunColmap.AbortingSteps | scripts/run_colmap.py:29-83 | seven steps; only the three COLMAP stages and OpenSplat can stop the script, each when its exit code is not 0 |
| RunColmap.Main | scripts/run_colmap.py:27-83 | the run obeys the reference semantics, and completes exactly when COLMAP and, if found, OpenSplat all exit with 0 |
| RunColmap.StagesShareDatabase | scripts/run_colmap.py:32-63 | all three COLMAP stages use the same database and the mapper writes to `<output>/sparse` |
| RunColmap.ColmapGate | scripts/run_colmap.py:43-63 | the copy and OpenSplat steps are reached exactly when the three COLMAP stages succeed |
| RunColmap.CopyOnlyAtStepFive | scripts/run_colmap.py:65-68 | only the step after mapping copies the images, and only when no copy exists |
| RunColmap.CopiesImagesIff | scripts/run_colmap.py:65-71 | the images are copied exactly when COLMAP succeeds and `<output>/images` does not exist |
| RunColmap.ColmapBeforeSplat | scripts/run_colmap.py:31-63 | every command before the OpenSplat step is COLMAP |
| RunColmap.OpenSplatRunsIff | scripts/run_colmap.py:75-83 | OpenSplat runs exactly when found and COLMAP succeeded; without it only COLMAP runs |
| RunColmap.FoundOpenSplatRunsIff | scripts/run_colmap.py:76-80 | a found OpenSplat runs exactly when the three COLMAP stages succeed |
| RunColmap.OnlyColmapRuns | scripts/run_colmap.py:81-83 | without OpenSplat every command run is COLMAP |
| RunColmap.MapperFailureStops | scripts/run_colmap.py:63 | a failing mapper ends the script with its code after five steps: no copy, no OpenSplat |
| DroneSplat.PickJson | scripts/run_colmap_dronesplat.py:63-66 | no metadata error exactly when there is no `*.json`; an undecodable first file is an error naming it; otherwise the first file, decoded |
| DroneSplat.FirstMatch | scripts/run_colmap_dronesplat.py:68-73 | the first file of the first pattern that matches anything, and an error exactly when none matches |
| DroneSplat.PickSample | scripts/run_colmap_dronesplat.py:68-73 | no image error exactly when all four patterns match nothing; an upper-case JPG wins |
| DroneSplat.Longer | scripts/run_colmap_dronesplat.py:81 | `max(w, h)`: at least both sides and equal to one of them |
| DroneSplat.ReadIntrinsics | scripts/run_colmap_dronesplat.py:75-81 | a missing focal length, then a missing optical center, is a KeyError; the parameters are fx, cx, cy read from the metadata and k1 = 0; the factor times the longer side is fx; with all fields present, it fails exactly on a zero-sized image |
| DroneSplat.ReadInputs | scripts/run_colmap_dronesplat.py:102-104 | a metadata error comes before an image error, which comes before an intrinsics error |
| DroneSplat.Main | scripts/run_colmap_dronesplat.py:89-104 | a wrong argument count refuses with nothing done; otherwise the output folder is made, then the COLMAP check, the DroneSplat check and the inputs refuse in that order; otherwise the plan runs under the reference semantics |
| DroneSplat.ExtractCommand | scripts/run_colmap_dronesplat.py:108-120 | the COLMAP executable with `feature_extractor`, passing the metadata intrinsics as camera parameters, domain-size pooling and affine shape estimation on, the focal factor to six decimals, the image size cap 3200 and the GPU switch |
| DroneSplat.MatchCommand | scripts/run_colmap_dronesplat.py:122-128 | the COLMAP executable with `spatial_matcher`: 40 neighbours within 12.0 on the same database |
| DroneSplat.MapperCommand | scripts/run_colmap_dronesplat.py:130-138 | the COLMAP executable with `mapper`, into `<out>/sparse`, keeping the principal point and ignoring two-view tracks |
| DroneSplat.SegCommand | scripts/run_colmap_dronesplat.py:151-154 | the mask script runs on the scene's image folder |
| DroneSplat.TrainCommand | scripts/run_colmap_dronesplat.py:159-165 | training reads the scene folder and writes `<out>/model`, 7000 iterations, with masks |
| DroneSplat.RenderCommand | scripts/run_colmap_dronesplat.py:168-173 | rendering uses the same model and iteration count and exports `<out>/dronesplat.ply` |
| DroneSplat.StagesOfDistinct | scripts/run_colmap_dronesplat.py:108-173 | the mask and training commands differ from every other stage's command |
| DroneSplat.Middle | scripts/run_colmap_dronesplat.py:140-156 | the image folder and copy, the pose copy and the mask stage are each planned exactly under their own guard, in that order: the image folder and copy come first, the image copy before the pose copy, and every copy before the mask stage, which is best effort |
| DroneSplat.Layout | scripts/run_colmap_dronesplat.py:106-178 | the plan is the five steps before the scene copy, then the guarded middle, then the four steps from training on, at least nine steps in all; what the parts hold is stated by `FixedSteps`, `Middle` and `LayoutAborts` |
| DroneSplat.FixedSteps | scripts/run_colmap_dronesplat.py:106-178 | the steps at fixed places: output folder, three COLMAP stages and the sparse folder first; training, rendering, viewer folder and viewer page last |
| DroneSplat.InvokePosition | scripts/run_colmap_dronesplat.py:106-173 | every command of the plan sits at its stage's place, the mask stage only in the middle and only when its script exists |
| DroneSplat.PerformPosition | scripts/run_colmap_dronesplat.py:140-178 | every effect is a folder outside the middle, a planned copy in it, or the viewer page at the very end |
| DroneSplat.LayoutAborts | scripts/run_colmap_dronesplat.py:106-173 | only the COLMAP stages, training and rendering can stop the pipeline; the mask stage and the copies never do |
| DroneSplat.ReachedAfterColmap | scripts/run_colmap_dronesplat.py:106-158 | a step between mapping and training is reached exactly when the three COLMAP stages succeed |
| DroneSplat.TrainOnlyAt | scripts/run_colmap_dronesplat.py:160-165 | only the training step runs the training command |
| DroneSplat.TrainRunsIff | scripts/run_colmap_dronesplat.py:150-165 | training runs exactly when COLMAP succeeds |
| DroneSplat.SegRunsIff | scripts/run_colmap_dronesplat.py:150-156 | the mask stage runs exactly when its script exists and COLMAP succeeds |
| DroneSplat.CopyRanWasPlanned | scripts/run_colmap_dronesplat.py:140-148 | a copy that happens was planned, after COLMAP succeeded |
| DroneSplat.PlannedCopyRuns | scripts/run_colmap_dronesplat.py:140-148 | a planned copy happens once COLMAP succeeds |
| DroneSplat.CopyRunsIff | scripts/run_colmap_dronesplat.py:140-148 | a copy happens exactly when it is planned and COLMAP succeeds |
| DroneSplat.LayoutCompletesIff | scripts/run_colmap_dronesplat.py:106-196 | the run completes exactly when COLMAP, training and rendering all exit with 0 |
| DroneSplat.ViewerOnlyLast | scripts/run_colmap_dronesplat.py:176-178 | only the last step writes the viewer page |
| DroneSplat.LastIsViewer | scripts/run_colmap_dronesplat.py:176-178 | the plan ends with writing the viewer page |
| DroneSplat.ViewerWrittenIff | scripts/run_colmap_dronesplat.py:175-196 | the viewer page is written exactly when the run completes |
| DroneSplat.TrainsIffColmapSucceeds | scripts/run_colmap_dronesplat.py:150-165 | training runs exactly when the three COLMAP stages succeed, whatever the mask stage does |
| DroneSplat.MasksAreBestEffort | scripts/run_colmap_dronesplat.py:150-156 | the mask stage runs exactly when its script exists and COLMAP succeeds |
| DroneSplat.ImagesCopiedIff | scripts/run_colmap_dronesplat.py:142-146 | the images are copied exactly when `<scene>/images` is missing and COLMAP succeeds |
| DroneSplat.PosesCopiedIff | scripts/run_colmap_dronesplat.py:148 | the poses are copied exactly when `<scene>/colmap` is missing and COLMAP succeeds, whatever happened to the images |
| DroneSplat.CompletesIff | scripts/run_colmap_dronesplat.py:106-196 | the pipeline completes exactly when COLMAP, training and rendering exit with 0; the mask stage plays no part |
| DroneSplat.ViewerIffCompleted | scripts/run_colmap_dronesplat.py:175-196 | the viewer page is written exactly when the whole pipeline completes |

## Left out

- JSON decoding is not modelled. A sidecar or `*.json` file is given either decoded or as unreadable, and every decoding failure is one error.
- Number spellings are not modelled. `float(str)` and `int(str)` are oracle parameters, and so is each image's size as PIL reports it (`Image.open(...).size`).
- How Python prints a float is not modelled. `cameras.txt` and `images.txt` are lines of typed fields, and the command arguments keep the type they had before `str()`.
- Directory listings are not modelled. `glob("*.JP*G")` is the input image list, `glob('*.json')` is the input file list, and the sample patterns go through a glob oracle. The DroneSplat image copy (`*.[jJ][pP][gG]`, one `copy2` per file) is one `CopyImages` effect.
- Filesystem effects always succeed. Failing mkdir, copy or write calls, and `os.path.abspath` / `Path.resolve`, are not modelled. Paths are given already absolute.
- Missing programs are not modelled. A command whose program cannot be started raises `FileNotFoundError`, which is not modelled. `shutil.which("opensplat")` is a host input.
- Exit statuses are recorded, not reproduced. A failed command is recorded with its own exit code. The scripts actually exit with status 1: `SystemExit` with a message in `run_colmap.py`, and an uncaught `CalledProcessError` in the DroneSplat script.
- Option order is not modelled. A command keeps its `--flag value` options in a map, because the programs read options by name.
- The viewer page's HTML is not modelled. The HTML text, all printed messages and argparse usage errors are left out.
- The `PIL` import check (lines 45-48 of the DroneSplat script) is not modelled. It happens at import time, before `main`.
- Python floats are modelled as exact reals. There is no rounding in `longitude * 111000` or in `num / denom`, and no `inf` or `nan`.
- Metadata.Basename: splits on `/` only, as POSIX `os.path.basename` does. On Windows `ntpath` also splits on `\` and after a drive letter, which is not modelled.
- Sequencer.Drive: states the reference semantics (`ObeysPolicy`) of the loop, not that it equals `Exec` term for term. Equality follows from `Sequencer.PolicyDeterminesRun`.
