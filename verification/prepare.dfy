/**
  The converter's entry point (scripts/prepare_metadata.py, lines 139-155):
  extract the metadata of an image folder and, only when at least one record
  came out, produce `cameras.txt`, `images.txt` and `colmap.ini`.

  Argument parsing, `os.path.abspath` (the absolute folder path is an input
  here) and the writes themselves are not modelled; the result is the content
  of the three files.
 */
module Prepare {
  import opened Wrappers
  import opened Telemetry
  import opened Cameras
  import opened Metadata
  import opened PriorWriter

  /** The contents of the three files written to the output directory. */
  datatype Outputs = Outputs(cameras: seq<Line>, images: seq<Line>, ini: string)

  /** Writing happens only when at least one image has a sidecar: with none, the record
      list is empty (falsy) and nothing is written. */
  lemma SomeSidecarSomeRecord(images: seq<string>, sidecars: map<string, Sidecar>)
    ensures |WithSidecars(images, sidecars)| == 0 <==> forall i :: 0 <= i < |images| ==> !HasSidecar(images[i], sidecars)
  {
    if exists i :: 0 <= i < |images| && HasSidecar(images[i], sidecars) {
      var i :| 0 <= i < |images| && HasSidecar(images[i], sidecars);
      assert images[i] in WithSidecars(images, sidecars);
    }
    if |WithSidecars(images, sidecars)| > 0 {
      var x := WithSidecars(images, sidecars)[0];
      assert x in images && HasSidecar(x, sidecars);
    }
  }

  /** `extract_metadata` then, if the list is non-empty, the three writers. Ok(None) is
      the "No metadata found!" outcome; an error is an exception escaping the script. */
  function Prepare(images: seq<string>, sidecars: map<string, Sidecar>, rd: RealReader, ri: IntReader,
                   imagesDir: string): (r: Result<Option<Outputs>, Error>)
    ensures r.Ok? <==> ExtractMetadata(images, sidecars, rd, ri).Ok?
    ensures r.Ok? ==> (r.value.None? <==> forall i :: 0 <= i < |images| ==> !HasSidecar(images[i], sidecars))
    ensures r.Ok? && r.value.Some? ==>
      var e := ExtractMetadata(images, sidecars, rd, ri).value;
      && ReadCamera(r.value.value.cameras) == Some(e.camera)
      && ReadImages(r.value.value.images) == Some(Priors(e.records))
      && IniImagePath(r.value.value.ini) == Some(imagesDir)
  {
    var metadata :- ExtractMetadata(images, sidecars, rd, ri);
    SomeSidecarSomeRecord(images, sidecars);
    if |metadata.records| == 0 then Ok(None)
    else
      CamerasRoundTrip(metadata.camera, []);
      ImagesRoundTrip(metadata.records);
      IniRoundTrip(imagesDir, "");
      Ok(Some(Outputs(CamerasFile(metadata.camera), ImagesFile(metadata.records), IniText(imagesDir))))
  }

  /** One photo with a readable sidecar that serves as its own sample: `images.txt` holds
      exactly one pose, id 1, at longitude and latitude times 111000 and the altitude. */
  lemma SinglePhotoPose(image: string, doc: Json, rd: RealReader, ri: IntReader, imagesDir: string,
                        lat: real, lon: real, alt: real)
    requires doc.JObj?
    requires ReadField(doc, "Latitude", rd) == Ok(lat)
    requires ReadField(doc, "Longitude", rd) == Ok(lon)
    requires ReadField(doc, "AbsoluteAltitude", rd) == Ok(alt)
    requires RecordOf(image, doc, Some(doc), rd).Ok?
    requires ResolveCamera(Some(doc), rd, ri).Ok?
    ensures var r := Prepare([image], map[SidecarPath(image) := Doc(doc)], rd, ri, imagesDir);
      && r.Ok? && r.value.Some?
      && r.value.value.images ==
        ImagesHeader + [PoseLine(Prior(1, lon * MetersPerDegree, lat * MetersPerDegree, alt, Basename(image))), []]
  {
    var record := RecordOf(image, doc, Some(doc), rd).value;
    var e := SinglePhotoExtract(image, doc, rd, ri);
    PrepareWrites([image], map[SidecarPath(image) := Doc(doc)], rd, ri, imagesDir, e);
    SinglePoseLines(record);
    assert record.latitude == lat && record.longitude == lon && record.altitude == alt && record.name == Basename(image);
    FirstPrior(record, lat, lon, alt, Basename(image));
  }

  lemma FirstPrior(record: ImageRecord, lat: real, lon: real, alt: real, name: string)
    requires record.latitude == lat && record.longitude == lon && record.altitude == alt && record.name == name
    ensures PriorOf(0, record) == Prior(1, lon * MetersPerDegree, lat * MetersPerDegree, alt, name)
  {
  }

  /** With at least one record the script writes the three files of that extraction. */
  lemma PrepareWrites(images: seq<string>, sidecars: map<string, Sidecar>, rd: RealReader, ri: IntReader,
                      imagesDir: string, e: Extracted)
    requires ExtractMetadata(images, sidecars, rd, ri) == Ok(e) && |e.records| > 0
    ensures Prepare(images, sidecars, rd, ri, imagesDir) ==
      Ok(Some(Outputs(CamerasFile(e.camera), ImagesFile(e.records), IniText(imagesDir))))
  {
  }

  /** The extraction of one photo whose sidecar is its own sample. */
  lemma SinglePhotoExtract(image: string, doc: Json, rd: RealReader, ri: IntReader) returns (e: Extracted)
    requires RecordOf(image, doc, Some(doc), rd).Ok?
    requires ResolveCamera(Some(doc), rd, ri).Ok?
    ensures ExtractMetadata([image], map[SidecarPath(image) := Doc(doc)], rd, ri) == Ok(e)
    ensures e.records == [RecordOf(image, doc, Some(doc), rd).value]
  {
    var images := [image];
    var sidecars := map[SidecarPath(image) := Doc(doc)];
    var record := RecordOf(image, doc, Some(doc), rd).value;
    FirstSidecarIsSample(images, sidecars, 0);
    OneImageOneRecord(images, sidecars, Some(doc), rd);
    e := ExtractMetadata(images, sidecars, rd, ri).value;
  }

  lemma SinglePoseLines(record: ImageRecord)
    ensures ImagesFile([record]) == ImagesHeader + [PoseLine(PriorOf(0, record)), []]
  {
    assert Priors([record]) == [PriorOf(0, record)];
    assert PoseLines([PriorOf(0, record)]) == [PoseLine(PriorOf(0, record)), []];
  }

  /** A worked photo at latitude 37, longitude -122 and altitude 50, with no camera
      fields: its pose line is `1 1 0 0 0 -13542000 4107000 50 1 <basename>`. */
  lemma ExamplePose(image: string, doc: Json, rd: RealReader, ri: IntReader, imagesDir: string)
    requires doc.JObj?
    requires "Latitude" in doc.fields && doc.fields["Latitude"] == JNum(37.0)
    requires "Longitude" in doc.fields && doc.fields["Longitude"] == JNum(-122.0)
    requires "AbsoluteAltitude" in doc.fields && doc.fields["AbsoluteAltitude"] == JNum(50.0)
    requires "CameraOrientationNED" !in doc.fields
    requires "PixelXDimension" !in doc.fields && "PixelYDimension" !in doc.fields && "FocalLength" !in doc.fields
    requires "CalibratedOpticalCenter" !in doc.fields && "DewarpData" !in doc.fields
    requires rd("3700") == Some(3700.0) && rd("1000") == Some(1000.0) && rd("0.123224") == Some(0.123224)
    ensures var r := Prepare([image], map[SidecarPath(image) := Doc(doc)], rd, ri, imagesDir);
      && r.Ok? && r.value.Some? && |r.value.value.images| == 5
      && r.value.value.images[3] ==
        [Int(1), Int(1), Int(0), Int(0), Int(0), Real(-13542000.0), Real(4107000.0), Real(50.0), Int(1), Text(Basename(image))]
  {
    assert "Latitude" in doc.fields.Keys;
    SampleWithoutCameraFields(doc.fields, rd, ri);
    FocalDefault(doc.fields, rd);
    var empty: map<string, Json> := map[];
    assert Orientation(doc) == JObj(empty);
    RecordOfSucceeds(image, doc, doc, rd, 37.0, -122.0, 50.0, 0.0, 0.0, 0.0, 3.7);
    SinglePhotoPose(image, doc, rd, ri, imagesDir, 37.0, -122.0, 50.0);
  }

  /** The k-th pose of `images.txt` is the k-th listed image that has a sidecar: id k + 1,
      named by its basename. */
  lemma PosesFollowListing(images: seq<string>, sidecars: map<string, Sidecar>, rd: RealReader, ri: IntReader,
                           imagesDir: string, out: Outputs)
    requires Prepare(images, sidecars, rd, ri, imagesDir) == Ok(Some(out))
    ensures ReadImages(out.images).Some?
    ensures var ps := ReadImages(out.images).value;
      && |ps| == |WithSidecars(images, sidecars)|
      && forall k :: 0 <= k < |ps| ==> ps[k].id == k + 1 && ps[k].name == Basename(WithSidecars(images, sidecars)[k])
  {
    var e := ExtractMetadata(images, sidecars, rd, ri).value;
    assert ReadImages(out.images) == Some(Priors(e.records));
  }
}
