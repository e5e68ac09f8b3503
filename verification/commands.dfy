/**
  External command lines as the pipeline scripts build them (scripts/run_colmap.py,
  scripts/run_colmap_dronesplat.py): a program, its positional arguments, its
  `--flag value` options and its bare switches.

  The programs read options by name, so a command keeps its options in a map from
  flag to value; the order in which the scripts list them is not modelled. Every
  argument keeps the Python type it had before `str()` turned it into text.
 */
module Commands {

  /** A filesystem path: a root the caller supplies, or a child joined onto a path. */
  datatype Path = Root(name: string) | Child(parent: Path, name: string)

  /** Every option and switch the scripts pass. */
  datatype Flag =
    // COLMAP
    | DatabasePath | ImagePath | OutputPath
    | CameraModel | SingleCamera | CameraParams | DefaultFocalLengthFactor
    | DomainSizePooling | EstimateAffineShape | MaxImageSize | ExtractionGpu
    | MatchingGpu | MaxNumNeighbors | MaxDistance
    | RefinePrincipalPoint | IgnoreTwoViewTracks
    // OpenSplat
    | NumIters
    // DroneSplat scripts
    | ImageDir | SourcePath | ModelPath | SceneName | Iterations | UseMasks | ExportPly

  /** How a flag is spelled on the command line. */
  function Spelling(f: Flag): string
  {
    match f
    case DatabasePath => "--database_path"
    case ImagePath => "--image_path"
    case OutputPath => "--output_path"
    case CameraModel => "--ImageReader.camera_model"
    case SingleCamera => "--ImageReader.single_camera"
    case CameraParams => "--ImageReader.camera_params"
    case DefaultFocalLengthFactor => "--ImageReader.default_focal_length_factor"
    case DomainSizePooling => "--SiftExtraction.domain_size_pooling"
    case EstimateAffineShape => "--SiftExtraction.estimate_affine_shape"
    case MaxImageSize => "--SiftExtraction.max_image_size"
    case ExtractionGpu => "--SiftExtraction.use_gpu"
    case MatchingGpu => "--SiftMatching.use_gpu"
    case MaxNumNeighbors => "--SpatialMatching.max_num_neighbors"
    case MaxDistance => "--SpatialMatching.max_distance"
    case RefinePrincipalPoint => "--Mapper.ba_refine_principal_point"
    case IgnoreTwoViewTracks => "--Mapper.tri_ignore_two_view_tracks"
    case NumIters => "-n"
    case ImageDir => "--image_dir"
    case SourcePath => "-s"
    case ModelPath => "-m"
    case SceneName => "--scene"
    case Iterations => "--iter"
    case UseMasks => "--use_masks"
    case ExportPly => "--export_ply"
  }

  /** One argument, before `str()`: literal text, a path, an int, a float, a float
      formatted with a fixed number of decimals, or a comma-separated list of floats. */
  datatype Token =
    | Word(s: string)
    | PathArg(p: Path)
    | IntArg(n: int)
    | RealArg(x: real)
    | Fixed(x: real, places: nat)
    | RealList(xs: seq<real>)

  datatype Command = Command(program: Token, positional: seq<Token>, options: map<Flag, Token>, switches: set<Flag>)

  /** The command gives `flag` the value `v`. */
  predicate Passes(cmd: Command, flag: Flag, v: Token)
  {
    flag in cmd.options && cmd.options[flag] == v
  }

  /** The text of a "0"/"1" boolean option. */
  function Bit(b: bool): (t: Token)
    ensures t == Word("1") <==> b
    ensures t == Word("0") <==> !b
  {
    if b then Word("1") else Word("0")
  }
}
