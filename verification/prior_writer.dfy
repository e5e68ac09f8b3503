/**
  The three files the converter writes for COLMAP (scripts/prepare_metadata.py,
  lines 87-137): `cameras.txt` with the one shared camera, `images.txt` with one
  pose line and one empty line per record, and `colmap.ini`.

  The two `.txt` files are modelled as lines of space-separated fields; how Python
  spells a float inside an f-string is not modelled, so a real-valued field holds
  the real itself. Each writer has a reader that inverts it.
 */
module PriorWriter {
  import opened Wrappers
  import opened Cameras
  import opened Metadata

  /** One space-separated field of a line. */
  datatype Field = Text(s: string) | Int(n: int) | Real(x: real)

  type Line = seq<Field>

  /** The crude GPS-to-metres factor applied to both latitude and longitude. */
  const MetersPerDegree := 111000.0

  const CamerasHeader: seq<Line> := [
    [Text("# Camera list with one line of data per camera:")],
    [Text("#   CAMERA_ID, MODEL, WIDTH, HEIGHT, PARAMS[]")],
    [Text("# Number of cameras: 1")]
  ]

  const ImagesHeader: seq<Line> := [
    [Text("# Image list with two lines of data per image:")],
    [Text("#   IMAGE_ID, QW, QX, QY, QZ, TX, TY, TZ, CAMERA_ID, NAME")],
    [Text("#   POINTS2D[] as (X, Y, POINT3D_ID)")]
  ]

  /** `1 SIMPLE_RADIAL width height focal cx cy k1`: camera 1, the only one. */
  function CameraLine(c: Camera): Line
  {
    [Int(1), Text("SIMPLE_RADIAL"), Int(c.width), Int(c.height), Real(c.focal), Real(c.cx), Real(c.cy), Real(c.k1)]
  }

  /** The content of `cameras.txt`. */
  function CamerasFile(c: Camera): (r: seq<Line>)
    ensures |r| == 4 && r[..3] == CamerasHeader
  {
    CamerasHeader + [CameraLine(c)]
  }

  /** Reads the camera back from a `cameras.txt`, or None when the lines do not have its shape. */
  function ReadCamera(lines: seq<Line>): Option<Camera>
  {
    if |lines| != 4 || lines[..3] != CamerasHeader then None
    else
      var l := lines[3];
      if |l| == 8 && l[0] == Int(1) && l[1] == Text("SIMPLE_RADIAL") && l[2].Int? && l[3].Int?
         && l[4].Real? && l[5].Real? && l[6].Real? && l[7].Real?
      then Some(Camera(l[2].n, l[3].n, l[4].x, l[5].x, l[6].x, l[7].x))
      else None
  }

  /** `cameras.txt` determines the camera, and only a written camera file reads back. */
  lemma CamerasRoundTrip(c: Camera, lines: seq<Line>)
    ensures ReadCamera(CamerasFile(c)) == Some(c)
    ensures ReadCamera(lines) == Some(c) ==> lines == CamerasFile(c)
  {
    var f := CamerasFile(c);
    assert f[3] == CameraLine(c);
    if ReadCamera(lines) == Some(c) {
      assert lines[3] == CameraLine(c);
      assert lines == lines[..3] + [lines[3]];
    }
  }

  /** What one pose line of `images.txt` states: the image id, the translation and the name.
      The rotation is always the identity quaternion and the camera always 1. */
  datatype Prior = Prior(id: int, tx: real, ty: real, tz: real, name: string)

  /** The prior of the record at position `idx` of the list: id `idx + 1`, longitude and
      latitude scaled by the metres factor, altitude as it is. */
  function PriorOf(idx: nat, rec: ImageRecord): (p: Prior)
    ensures p.id == idx + 1 && p.name == rec.name
    ensures p.tx / MetersPerDegree == rec.longitude && p.ty / MetersPerDegree == rec.latitude
    ensures p.tz == rec.altitude
  {
    Prior(idx + 1, rec.longitude * MetersPerDegree, rec.latitude * MetersPerDegree, rec.altitude, rec.name)
  }

  /** The priors of a record list, numbered from 1 in list order (`enumerate`). */
  function Priors(recs: seq<ImageRecord>): (ps: seq<Prior>)
    ensures |ps| == |recs|
    ensures forall k :: 0 <= k < |recs| ==> ps[k] == PriorOf(k, recs[k])
  {
    seq(|recs|, k requires 0 <= k < |recs| => PriorOf(k, recs[k]))
  }

  /** `id 1 0 0 0 tx ty tz 1 name`. */
  function PoseLine(p: Prior): Line
  {
    [Int(p.id), Int(1), Int(0), Int(0), Int(0), Real(p.tx), Real(p.ty), Real(p.tz), Int(1), Text(p.name)]
  }

  function ReadPoseLine(l: Line): (r: Option<Prior>)
  {
    if |l| == 10 && l[0].Int? && l[1] == Int(1) && l[2] == Int(0) && l[3] == Int(0) && l[4] == Int(0)
       && l[5].Real? && l[6].Real? && l[7].Real? && l[8] == Int(1) && l[9].Text?
    then Some(Prior(l[0].n, l[5].x, l[6].x, l[7].x, l[9].s))
    else None
  }

  /** Each prior as its pose line followed by the empty line left for the 2D points. */
  function PoseLines(ps: seq<Prior>): (r: seq<Line>)
    ensures |r| == 2 * |ps|
  {
    if |ps| == 0 then [] else [PoseLine(ps[0]), []] + PoseLines(ps[1..])
  }

  /** Reads pose/blank pairs back; None when a pair is malformed or a line is left over. */
  function ReadPoses(lines: seq<Line>): Option<seq<Prior>>
    decreases |lines|
  {
    if |lines| == 0 then Some([])
    else if |lines| == 1 || lines[1] != [] then None
    else
      match ReadPoseLine(lines[0])
      case None => None
      case Some(p) =>
        match ReadPoses(lines[2..])
        case None => None
        case Some(rest) => Some([p] + rest)
  }

  /** Pose lines read back to the priors they were written from, and only written pose
      lines read back to a given list of priors. */
  lemma {:induction false} PosesRoundTrip(ps: seq<Prior>, lines: seq<Line>)
    ensures ReadPoses(PoseLines(ps)) == Some(ps)
    ensures ReadPoses(lines) == Some(ps) ==> lines == PoseLines(ps)
    decreases |ps|
  {
    if |ps| > 0 {
      var w := PoseLines(ps);
      assert w[2..] == PoseLines(ps[1..]);
      assert ReadPoseLine(PoseLine(ps[0])) == Some(ps[0]);
      if ReadPoses(lines) == Some(ps) {
        PosesRoundTrip(ps[1..], lines[2..]);
        var l := lines[0];
        assert ReadPoseLine(l) == Some(ps[0]);
        assert l == PoseLine(ps[0]);
        assert lines == [lines[0], lines[1]] + lines[2..];
      } else {
        PosesRoundTrip(ps[1..], []);
      }
      assert ps == [ps[0]] + ps[1..];
    } else if ReadPoses(lines) == Some(ps) {
      assert |lines| == 0;
    }
  }

  /** The content of `images.txt`. */
  function ImagesFile(recs: seq<ImageRecord>): (r: seq<Line>)
    ensures |r| == 3 + 2 * |recs| && r[..3] == ImagesHeader
  {
    ImagesHeader + PoseLines(Priors(recs))
  }

  function ReadImages(lines: seq<Line>): Option<seq<Prior>>
  {
    if |lines| < 3 || lines[..3] != ImagesHeader then None else ReadPoses(lines[3..])
  }

  /** `images.txt` gives back, in list order, the id, translation and name of every record. */
  lemma ImagesRoundTrip(recs: seq<ImageRecord>)
    ensures ReadImages(ImagesFile(recs)) == Some(Priors(recs))
  {
    var f := ImagesFile(recs);
    assert f[3..] == PoseLines(Priors(recs));
    PosesRoundTrip(Priors(recs), []);
  }

  /** Yaw, pitch, roll and the focal length are read but never written: records that agree
      on name and position give the same `images.txt`. */
  lemma OrientationNotWritten(a: seq<ImageRecord>, b: seq<ImageRecord>)
    requires |a| == |b|
    requires forall k :: 0 <= k < |a| ==>
      a[k].name == b[k].name && a[k].latitude == b[k].latitude
      && a[k].longitude == b[k].longitude && a[k].altitude == b[k].altitude
    ensures ImagesFile(a) == ImagesFile(b)
  {
    assert Priors(a) == Priors(b);
  }

  /** Fixed text of `colmap.ini` before the image path: a leading empty line, the
      [General] section with the database next to the file. */
  const IniHead := "\n[General]\ndatabase_path=database.db\nimage_path="

  /** Fixed text of `colmap.ini` after the image path: the [Mapper] settings. */
  const IniTail := "\n[Mapper]\ninit_min_tri_angle=4\nmultiple_models=0\nextract_colors=1\nba_refine_focal_length=1\nba_refine_extra_params=1\nmin_focal_length_ratio=0.1\nmax_focal_length_ratio=10\nmax_extra_param=1\n"

  /** The content of `colmap.ini` for an image folder. */
  function IniText(imagePath: string): (r: string)
    ensures |r| == |IniHead| + |imagePath| + |IniTail|
    ensures r[..|IniHead|] == IniHead && r[|r| - |IniTail|..] == IniTail
  {
    IniHead + imagePath + IniTail
  }

  /** The image path of a `colmap.ini`, or None when the text is not one. */
  function IniImagePath(text: string): Option<string>
  {
    if |text| < |IniHead| + |IniTail| then None
    else if text[..|IniHead|] != IniHead || text[|text| - |IniTail|..] != IniTail then None
    else Some(text[|IniHead|..|text| - |IniTail|])
  }

  /** The image path is the only variable part of `colmap.ini`: it reads back, and a text
      that reads back to a path is the file written for it. */
  lemma IniRoundTrip(imagePath: string, text: string)
    ensures IniImagePath(IniText(imagePath)) == Some(imagePath)
    ensures IniImagePath(text) == Some(imagePath) ==> text == IniText(imagePath)
  {
    var t := IniText(imagePath);
    assert t[|IniHead|..|t| - |IniTail|] == imagePath;
    if IniImagePath(text) == Some(imagePath) {
      assert text == text[..|IniHead|] + text[|IniHead|..|text| - |IniTail|] + text[|text| - |IniTail|..];
    }
  }
}
