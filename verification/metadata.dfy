/**
  `extract_metadata` (scripts/prepare_metadata.py, lines 6-85): pick the sample
  sidecar, resolve the camera from it, and build one record per image that has a
  sidecar, in the order the image listing gives.

  The image listing (`glob("*.JP*G")`) is the input sequence `images`; both passes
  of the source walk the same listing. The files that exist next to the images are
  the map `sidecars`, from path to decoded content.
 */
module Metadata {
  import opened Wrappers
  import opened Text
  import opened Telemetry
  import opened Cameras

  /** What the script keeps of one image: yaw, pitch and roll are read but never written out. */
  datatype ImageRecord = ImageRecord(
    name: string,
    latitude: real, longitude: real, altitude: real,
    yaw: real, pitch: real, roll: real,
    focalLength: real)

  datatype Extracted = Extracted(camera: Camera, records: seq<ImageRecord>)

  /** `path.rsplit('.', 1)[0]`: the path without the text from its last dot on. */
  function Stem(path: string): (r: string)
    ensures |r| <= |path| && r == path[..|r|]
    ensures '.' !in path ==> r == path
    ensures '.' in path ==> |r| < |path| && path[|r|] == '.' && '.' !in path[|r| + 1..]
  {
    match LastIndexOf(path, '.')
    case Some(i) => path[..i]
    case None => path
  }

  /** The sidecar of an image: the text after the image path's last dot replaced by "JSON". */
  function SidecarPath(image: string): (r: string)
    ensures r == Stem(image) + ".JSON"
    ensures '.' in image ==> r == image[..|Stem(image)| + 1] + "JSON"
  {
    Stem(image) + ".JSON"
  }

  /** A sidecar path keeps its image's stem, so naming the sidecar of a sidecar changes nothing. */
  lemma SidecarKeepsStem(image: string)
    ensures Stem(SidecarPath(image)) == Stem(image)
    ensures SidecarPath(SidecarPath(image)) == SidecarPath(image)
  {
    var st := Stem(image);
    var sc := SidecarPath(image);
    assert sc[|st|] == '.';
    assert sc[|st| + 1..] == "JSON";
    LastIndexOfIs(sc, '.', |st|);
  }

  /** `os.path.basename`: the text after the last `/`. */
  function Basename(path: string): (r: string)
    ensures '/' !in r
    ensures |r| <= |path| && r == path[|path| - |r|..]
    ensures '/' in path ==> |r| < |path| && path[|path| - |r| - 1] == '/'
    ensures '/' !in path ==> r == path
  {
    match LastIndexOf(path, '/')
    case Some(i) => path[i + 1..]
    case None => path
  }

  predicate HasSidecar(image: string, sidecars: map<string, Sidecar>)
  {
    SidecarPath(image) in sidecars
  }

  /** The images that have a sidecar, in listing order: the reference for the records. */
  function WithSidecars(images: seq<string>, sidecars: map<string, Sidecar>): (r: seq<string>)
    ensures |r| <= |images|
    ensures forall k :: 0 <= k < |r| ==> HasSidecar(r[k], sidecars)
    ensures forall x :: x in r <==> x in images && HasSidecar(x, sidecars)
  {
    if |images| == 0 then []
    else
      var rest := WithSidecars(images[1..], sidecars);
      assert forall x :: x in images <==> x == images[0] || x in images[1..];
      if HasSidecar(images[0], sidecars) then [images[0]] + rest else rest
  }

  /** Index of the first listed image whose sidecar exists (the first pass's `break`). */
  function FirstWithSidecar(images: seq<string>, sidecars: map<string, Sidecar>): (r: Option<nat>)
    ensures r.None? <==> forall i :: 0 <= i < |images| ==> !HasSidecar(images[i], sidecars)
    ensures r.Some? ==> r.value < |images| && HasSidecar(images[r.value], sidecars)
    ensures r.Some? ==> forall j :: 0 <= j < r.value ==> !HasSidecar(images[j], sidecars)
  {
    if |images| == 0 then None
    else if HasSidecar(images[0], sidecars) then Some(0)
    else
      match FirstWithSidecar(images[1..], sidecars)
      case None =>
        assert forall i :: 0 <= i < |images| ==> !HasSidecar(images[i], sidecars) by {
          forall i | 0 < i < |images| ensures !HasSidecar(images[i], sidecars) {
            assert images[i] == images[1..][i - 1];
          }
        }
        None
      case Some(k) =>
        assert HasSidecar(images[k + 1], sidecars) by {
          assert images[k + 1] == images[1..][k];
        }
        assert forall j :: 0 <= j < k + 1 ==> !HasSidecar(images[j], sidecars) by {
          forall j | 0 < j < k + 1 ensures !HasSidecar(images[j], sidecars) {
            assert images[j] == images[1..][j - 1];
          }
        }
        Some(k + 1)
  }

  /** The first image with a sidecar is also the first image that gets a record. */
  lemma {:induction false} FirstWithSidecarHeadsRecords(images: seq<string>, sidecars: map<string, Sidecar>)
    requires FirstWithSidecar(images, sidecars).Some?
    ensures |WithSidecars(images, sidecars)| > 0
    ensures WithSidecars(images, sidecars)[0] == images[FirstWithSidecar(images, sidecars).value]
  {
    if HasSidecar(images[0], sidecars) {
      assert FirstWithSidecar(images, sidecars) == Some(0);
    } else {
      var k := FirstWithSidecar(images[1..], sidecars).value;
      assert FirstWithSidecar(images, sidecars) == Some(k + 1);
      assert WithSidecars(images, sidecars) == WithSidecars(images[1..], sidecars);
      FirstWithSidecarHeadsRecords(images[1..], sidecars);
      assert images[1..][k] == images[k + 1];
    }
  }

  /** The first pass: the decoded sidecar of the first listed image that has one, or
      None when no image has a sidecar. */
  function SampleDoc(images: seq<string>, sidecars: map<string, Sidecar>): (r: Result<Option<Json>, Error>)
    ensures r == Ok(None) <==> forall i :: 0 <= i < |images| ==> !HasSidecar(images[i], sidecars)
    ensures r.Ok? && r.value.Some? ==>
      exists i :: 0 <= i < |images| && HasSidecar(images[i], sidecars)
        && (forall j :: 0 <= j < i ==> !HasSidecar(images[j], sidecars))
        && sidecars[SidecarPath(images[i])] == Doc(r.value.value)
  {
    match FirstWithSidecar(images, sidecars)
    case None => Ok(None)
    case Some(i) =>
      match sidecars[SidecarPath(images[i])]
      case Unreadable => Err(Undecodable(SidecarPath(images[i])))
      case Doc(doc) =>
        assert 0 <= i < |images| && HasSidecar(images[i], sidecars)
          && (forall j :: 0 <= j < i ==> !HasSidecar(images[j], sidecars))
          && sidecars[SidecarPath(images[i])] == Doc(doc);
        Ok(Some(doc))
  }

  /** The first listed image with a sidecar decides the first pass: its decoded
      document is the sample, and an unreadable one stops the script. */
  lemma FirstSidecarIsSample(images: seq<string>, sidecars: map<string, Sidecar>, i: int)
    requires 0 <= i < |images| && HasSidecar(images[i], sidecars)
    requires forall j :: 0 <= j < i ==> !HasSidecar(images[j], sidecars)
    ensures sidecars[SidecarPath(images[i])].Doc? ==>
      SampleDoc(images, sidecars) == Ok(Some(sidecars[SidecarPath(images[i])].value))
    ensures sidecars[SidecarPath(images[i])].Unreadable? ==>
      SampleDoc(images, sidecars) == Err(Undecodable(SidecarPath(images[i])))
  {
    var first := FirstWithSidecar(images, sidecars);
    assert first.Some?;
    assert first.value == i;
  }

  /** `float(doc.get(key, 0))`: a missing key reads as 0, a present one through `float`,
      and a document that is not an object has no `.get`. */
  function ReadField(doc: Json, key: string, rd: RealReader): (r: Result<real, Error>)
    ensures !doc.JObj? ==> r == Err(NoSuchMethod)
    ensures doc.JObj? && key !in doc.fields ==> r == Ok(0.0)
    ensures doc.JObj? && key in doc.fields ==> r == ToFloat(doc.fields[key], rd)
  {
    var v :- Get(doc, key, JNum(0.0));
    ToFloat(v, rd)
  }

  /** `metadata.get("CameraOrientationNED", {})` of an object. */
  function Orientation(doc: Json): Json
    requires doc.JObj?
  {
    FieldOr(doc.fields, "CameraOrientationNED", JObj(map[]))
  }

  /** One record, in the source's order of reads: position from the document,
      angles from its orientation object, and the focal length from the sample,
      not from the image's own metadata. */
  function RecordOf(image: string, doc: Json, sample: Option<Json>, rd: RealReader): (r: Result<ImageRecord, Error>)
    ensures !doc.JObj? ==> r == Err(NoSuchMethod)
    ensures r.Ok? ==> doc.JObj?
    ensures r.Ok? ==> r.value.name == Basename(image)
    ensures r.Ok? ==>
      && ReadField(doc, "Latitude", rd) == Ok(r.value.latitude)
      && ReadField(doc, "Longitude", rd) == Ok(r.value.longitude)
      && ReadField(doc, "AbsoluteAltitude", rd) == Ok(r.value.altitude)
    ensures r.Ok? ==>
      && ReadField(Orientation(doc), "Yaw", rd) == Ok(r.value.yaw)
      && ReadField(Orientation(doc), "Pitch", rd) == Ok(r.value.pitch)
      && ReadField(Orientation(doc), "Roll", rd) == Ok(r.value.roll)
    ensures r.Ok? ==> sample.Some? && SampleFocal(sample.value, rd) == Ok(r.value.focalLength)
  {
    if !doc.JObj? then Err(NoSuchMethod)
    else
      var lat :- ReadField(doc, "Latitude", rd);
      var lon :- ReadField(doc, "Longitude", rd);
      var alt :- ReadField(doc, "AbsoluteAltitude", rd);
      var orientation := Orientation(doc);
      var yaw :- ReadField(orientation, "Yaw", rd);
      var pitch :- ReadField(orientation, "Pitch", rd);
      var roll :- ReadField(orientation, "Roll", rd);
      var focal :- if sample.Some? then SampleFocal(sample.value, rd) else Err(NoSuchMethod);
      Ok(ImageRecord(Basename(image), lat, lon, alt, yaw, pitch, roll, focal))
  }

  /** When every read succeeds the record holds exactly the values read. */
  lemma RecordOfSucceeds(image: string, doc: Json, sample: Json, rd: RealReader,
                         lat: real, lon: real, alt: real, yaw: real, pitch: real, roll: real, focal: real)
    requires doc.JObj?
    requires ReadField(doc, "Latitude", rd) == Ok(lat)
    requires ReadField(doc, "Longitude", rd) == Ok(lon)
    requires ReadField(doc, "AbsoluteAltitude", rd) == Ok(alt)
    requires ReadField(Orientation(doc), "Yaw", rd) == Ok(yaw)
    requires ReadField(Orientation(doc), "Pitch", rd) == Ok(pitch)
    requires ReadField(Orientation(doc), "Roll", rd) == Ok(roll)
    requires SampleFocal(sample, rd) == Ok(focal)
    ensures RecordOf(image, doc, Some(sample), rd) == Ok(ImageRecord(Basename(image), lat, lon, alt, yaw, pitch, roll, focal))
  {
  }

  /** `records` holds, in order, the record of each listed image that has a sidecar,
      read from that sidecar. */
  predicate RecordsMatch(images: seq<string>, sidecars: map<string, Sidecar>, sample: Option<Json>, rd: RealReader,
                         records: seq<ImageRecord>)
  {
    && |records| == |WithSidecars(images, sidecars)|
    && forall k :: 0 <= k < |records| ==>
      var image := WithSidecars(images, sidecars)[k];
      && sidecars[SidecarPath(image)].Doc?
      && RecordOf(image, sidecars[SidecarPath(image)].value, sample, rd) == Ok(records[k])
  }

  /** The second pass: one record per listed image whose sidecar exists, in listing
      order; the first failure (an unreadable sidecar, a bad field) stops it. */
  function CollectRecords(images: seq<string>, sidecars: map<string, Sidecar>, sample: Option<Json>, rd: RealReader)
    : (r: Result<seq<ImageRecord>, Error>)
    ensures r.Ok? ==> RecordsMatch(images, sidecars, sample, rd, r.value)
  {
    if |images| == 0 then Ok([])
    else if !HasSidecar(images[0], sidecars) then
      var r := CollectRecords(images[1..], sidecars, sample, rd);
      if r.Ok? then SkipWithoutSidecar(images, sidecars, sample, rd, r.value); r
      else r
    else
      match sidecars[SidecarPath(images[0])]
      case Unreadable => Err(Undecodable(SidecarPath(images[0])))
      case Doc(doc) =>
        var record :- RecordOf(images[0], doc, sample, rd);
        var others :- CollectRecords(images[1..], sidecars, sample, rd);
        RecordBeforeOthers(images, sidecars, sample, rd, record, others);
        Ok([record] + others)
  }

  lemma SkipWithoutSidecar(images: seq<string>, sidecars: map<string, Sidecar>, sample: Option<Json>, rd: RealReader,
                           records: seq<ImageRecord>)
    requires |images| > 0 && !HasSidecar(images[0], sidecars)
    requires RecordsMatch(images[1..], sidecars, sample, rd, records)
    ensures RecordsMatch(images, sidecars, sample, rd, records)
  {
    assert WithSidecars(images, sidecars) == WithSidecars(images[1..], sidecars);
  }

  lemma RecordBeforeOthers(images: seq<string>, sidecars: map<string, Sidecar>, sample: Option<Json>, rd: RealReader,
                           record: ImageRecord, others: seq<ImageRecord>)
    requires |images| > 0 && HasSidecar(images[0], sidecars) && sidecars[SidecarPath(images[0])].Doc?
    requires RecordOf(images[0], sidecars[SidecarPath(images[0])].value, sample, rd) == Ok(record)
    requires RecordsMatch(images[1..], sidecars, sample, rd, others)
    ensures RecordsMatch(images, sidecars, sample, rd, [record] + others)
  {
    var w := WithSidecars(images[1..], sidecars);
    var all := WithSidecars(images, sidecars);
    var records := [record] + others;
    assert all == [images[0]] + w;
    forall k | 0 <= k < |records|
      ensures sidecars[SidecarPath(all[k])].Doc?
      ensures RecordOf(all[k], sidecars[SidecarPath(all[k])].value, sample, rd) == Ok(records[k])
    {
      if k > 0 {
        assert |others| == |w|;
        assert all[k] == w[k - 1];
        assert records[k] == others[k - 1];
      }
    }
  }

  /** An unreadable sidecar anywhere in the listing makes the second pass fail. */
  lemma {:induction false} UnreadableSidecarStops(images: seq<string>, sidecars: map<string, Sidecar>,
                                                 sample: Option<Json>, rd: RealReader, i: int)
    requires 0 <= i < |images| && HasSidecar(images[i], sidecars)
    requires sidecars[SidecarPath(images[i])] == Unreadable
    ensures CollectRecords(images, sidecars, sample, rd).Err?
  {
    if i > 0 {
      assert images[1..][i - 1] == images[i];
      UnreadableSidecarStops(images[1..], sidecars, sample, rd, i - 1);
    }
  }

  /** Without sidecars the second pass reads nothing and yields no record. */
  lemma {:induction false} NoSidecarNoRecords(images: seq<string>, sidecars: map<string, Sidecar>, sample: Option<Json>, rd: RealReader)
    requires forall i :: 0 <= i < |images| ==> !HasSidecar(images[i], sidecars)
    ensures CollectRecords(images, sidecars, sample, rd) == Ok([])
  {
    if |images| > 0 {
      assert forall i :: 0 <= i < |images| - 1 ==> images[1..][i] == images[i + 1];
      NoSidecarNoRecords(images[1..], sidecars, sample, rd);
    }
  }

  /** A listing of one image with a readable sidecar gives that image's record alone. */
  lemma OneImageOneRecord(images: seq<string>, sidecars: map<string, Sidecar>, sample: Option<Json>, rd: RealReader)
    requires |images| == 1 && HasSidecar(images[0], sidecars) && sidecars[SidecarPath(images[0])].Doc?
    requires RecordOf(images[0], sidecars[SidecarPath(images[0])].value, sample, rd).Ok?
    ensures CollectRecords(images, sidecars, sample, rd) ==
      Ok([RecordOf(images[0], sidecars[SidecarPath(images[0])].value, sample, rd).value])
  {
    assert AllRecordsRead(images, sidecars, sample, rd) by {
      forall i | 0 <= i < |images| && HasSidecar(images[i], sidecars)
        ensures sidecars[SidecarPath(images[i])].Doc?
        ensures RecordOf(images[i], sidecars[SidecarPath(images[i])].value, sample, rd).Ok?
      {
        assert i == 0;
      }
    }
    AllReadMeansOk(images, sidecars, sample, rd);
    var records := CollectRecords(images, sidecars, sample, rd).value;
    assert WithSidecars(images[1..], sidecars) == [];
    assert WithSidecars(images, sidecars) == [images[0]];
    assert records == [records[0]];
  }

  /** Every listed image with a sidecar has a readable sidecar whose record reads. */
  predicate AllRecordsRead(images: seq<string>, sidecars: map<string, Sidecar>, sample: Option<Json>, rd: RealReader)
  {
    forall i :: 0 <= i < |images| && HasSidecar(images[i], sidecars) ==>
      && sidecars[SidecarPath(images[i])].Doc?
      && RecordOf(images[i], sidecars[SidecarPath(images[i])].value, sample, rd).Ok?
  }

  /** The second pass succeeds exactly when every image with a sidecar yields a record. */
  lemma CollectRecordsOkIff(images: seq<string>, sidecars: map<string, Sidecar>, sample: Option<Json>, rd: RealReader)
    ensures CollectRecords(images, sidecars, sample, rd).Ok? <==> AllRecordsRead(images, sidecars, sample, rd)
  {
    if CollectRecords(images, sidecars, sample, rd).Ok? {
      OkMeansAllRead(images, sidecars, sample, rd);
    }
    if AllRecordsRead(images, sidecars, sample, rd) {
      AllReadMeansOk(images, sidecars, sample, rd);
    }
  }

  lemma OkMeansAllRead(images: seq<string>, sidecars: map<string, Sidecar>, sample: Option<Json>, rd: RealReader)
    requires CollectRecords(images, sidecars, sample, rd).Ok?
    ensures AllRecordsRead(images, sidecars, sample, rd)
  {
    var records := CollectRecords(images, sidecars, sample, rd).value;
    var w := WithSidecars(images, sidecars);
    forall i | 0 <= i < |images| && HasSidecar(images[i], sidecars)
      ensures sidecars[SidecarPath(images[i])].Doc?
      ensures RecordOf(images[i], sidecars[SidecarPath(images[i])].value, sample, rd).Ok?
    {
      assert images[i] in w;
      var k :| 0 <= k < |w| && w[k] == images[i];
      assert RecordOf(w[k], sidecars[SidecarPath(w[k])].value, sample, rd) == Ok(records[k]);
    }
  }

  lemma {:induction false} AllReadMeansOk(images: seq<string>, sidecars: map<string, Sidecar>, sample: Option<Json>, rd: RealReader)
    requires AllRecordsRead(images, sidecars, sample, rd)
    ensures CollectRecords(images, sidecars, sample, rd).Ok?
  {
    if |images| > 0 {
      assert AllRecordsRead(images[1..], sidecars, sample, rd) by {
        forall i | 0 <= i < |images[1..]| && HasSidecar(images[1..][i], sidecars)
          ensures sidecars[SidecarPath(images[1..][i])].Doc?
          ensures RecordOf(images[1..][i], sidecars[SidecarPath(images[1..][i])].value, sample, rd).Ok?
        {
          assert images[1..][i] == images[i + 1];
        }
      }
      AllReadMeansOk(images[1..], sidecars, sample, rd);
      if HasSidecar(images[0], sidecars) {
        assert sidecars[SidecarPath(images[0])].Doc?;
        assert RecordOf(images[0], sidecars[SidecarPath(images[0])].value, sample, rd).Ok?;
      }
    }
  }

  /** `extract_metadata`: the sample, the camera it determines, then the records. */
  function ExtractMetadata(images: seq<string>, sidecars: map<string, Sidecar>, rd: RealReader, ri: IntReader)
    : (r: Result<Extracted, Error>)
    ensures (forall i :: 0 <= i < |images| ==> !HasSidecar(images[i], sidecars)) ==>
      r == Ok(Extracted(FallbackCamera, []))
    ensures r.Ok? ==> |r.value.records| == |WithSidecars(images, sidecars)|
    ensures r.Ok? <==>
      && SampleDoc(images, sidecars).Ok?
      && ResolveCamera(SampleDoc(images, sidecars).value, rd, ri).Ok?
      && CollectRecords(images, sidecars, SampleDoc(images, sidecars).value, rd).Ok?
    ensures r.Ok? ==>
      && SampleDoc(images, sidecars).Ok?
      && ResolveCamera(SampleDoc(images, sidecars).value, rd, ri) == Ok(r.value.camera)
      && CollectRecords(images, sidecars, SampleDoc(images, sidecars).value, rd) == Ok(r.value.records)
    ensures r.Ok? ==> forall k :: 0 <= k < |r.value.records| ==>
      r.value.records[k].name == Basename(WithSidecars(images, sidecars)[k])
  {
    var sample :- SampleDoc(images, sidecars);
    var camera :- ResolveCamera(sample, rd, ri);
    assert (forall i :: 0 <= i < |images| ==> !HasSidecar(images[i], sidecars)) ==>
      CollectRecords(images, sidecars, sample, rd) == Ok([]) by {
      if forall i :: 0 <= i < |images| ==> !HasSidecar(images[i], sidecars) {
        NoSidecarNoRecords(images, sidecars, sample, rd);
      }
    }
    var records :- CollectRecords(images, sidecars, sample, rd);
    assert forall k :: 0 <= k < |records| ==> records[k].name == Basename(WithSidecars(images, sidecars)[k]) by {
      forall k | 0 <= k < |records|
        ensures records[k].name == Basename(WithSidecars(images, sidecars)[k])
      {
        var image := WithSidecars(images, sidecars)[k];
        assert RecordOf(image, sidecars[SidecarPath(image)].value, sample, rd) == Ok(records[k]);
      }
    }
    Ok(Extracted(camera, records))
  }

  /** The conversion succeeds exactly when the sample is readable, the camera resolves
      from it, and every image with a sidecar yields a record. */
  lemma ExtractMetadataOkIff(images: seq<string>, sidecars: map<string, Sidecar>, rd: RealReader, ri: IntReader)
    ensures ExtractMetadata(images, sidecars, rd, ri).Ok? <==>
      && SampleDoc(images, sidecars).Ok?
      && ResolveCamera(SampleDoc(images, sidecars).value, rd, ri).Ok?
      && AllRecordsRead(images, sidecars, SampleDoc(images, sidecars).value, rd)
  {
    if SampleDoc(images, sidecars).Ok? {
      CollectRecordsOkIff(images, sidecars, SampleDoc(images, sidecars).value, rd);
    }
  }

  /** A sidecar without any of the fields gives zeros for position and orientation. */
  lemma MissingFieldsAreZero(image: string, doc: Json, sample: Json, focal: real, rd: RealReader)
    requires doc.JObj?
    requires "Latitude" !in doc.fields && "Longitude" !in doc.fields && "AbsoluteAltitude" !in doc.fields
    requires "CameraOrientationNED" !in doc.fields
    requires SampleFocal(sample, rd) == Ok(focal)
    ensures RecordOf(image, doc, Some(sample), rd) == Ok(ImageRecord(Basename(image), 0.0, 0.0, 0.0, 0.0, 0.0, 0.0, focal))
  {
    var empty: map<string, Json> := map[];
    assert Orientation(doc) == JObj(empty);
    RecordOfSucceeds(image, doc, sample, rd, 0.0, 0.0, 0.0, 0.0, 0.0, 0.0, focal);
  }

  /** Records read against a sample all carry the focal length the sample gives. */
  lemma MatchedRecordsCarryFocal(images: seq<string>, sidecars: map<string, Sidecar>, sample: Json, rd: RealReader,
                                 records: seq<ImageRecord>)
    requires RecordsMatch(images, sidecars, Some(sample), rd, records)
    ensures forall k :: 0 <= k < |records| ==> SampleFocal(sample, rd) == Ok(records[k].focalLength)
  {
    forall k | 0 <= k < |records|
      ensures SampleFocal(sample, rd) == Ok(records[k].focalLength)
    {
      var image := WithSidecars(images, sidecars)[k];
      assert RecordOf(image, sidecars[SidecarPath(image)].value, Some(sample), rd) == Ok(records[k]);
    }
  }

  /** When the sample sidecar is a non-empty object, every record carries the camera's
      focal length: both are read from the sample. */
  lemma FocalAgreesWithCamera(images: seq<string>, sidecars: map<string, Sidecar>, rd: RealReader, ri: IntReader)
    requires SampleDoc(images, sidecars).Ok? && SampleDoc(images, sidecars).value.Some?
    requires Truthy(SampleDoc(images, sidecars).value.value)
    requires ExtractMetadata(images, sidecars, rd, ri).Ok?
    ensures var e := ExtractMetadata(images, sidecars, rd, ri).value;
      forall k :: 0 <= k < |e.records| ==> e.records[k].focalLength == e.camera.focal
  {
    var sample := SampleDoc(images, sidecars).value.value;
    var e := ExtractMetadata(images, sidecars, rd, ri).value;
    assert ResolveCamera(Some(sample), rd, ri) == Ok(e.camera);
    RecordsCarrySampleFocal(images, sidecars, sample, e.camera.focal, rd, ri, e);
  }

  /** Every record carries the focal length read from the sample. */
  lemma RecordsCarrySampleFocal(images: seq<string>, sidecars: map<string, Sidecar>, sample: Json, focal: real,
                                rd: RealReader, ri: IntReader, e: Extracted)
    requires SampleDoc(images, sidecars) == Ok(Some(sample))
    requires SampleFocal(sample, rd) == Ok(focal)
    requires ExtractMetadata(images, sidecars, rd, ri) == Ok(e)
    ensures forall k :: 0 <= k < |e.records| ==> e.records[k].focalLength == focal
  {
    assert CollectRecords(images, sidecars, Some(sample), rd) == Ok(e.records);
    MatchedRecordsCarryFocal(images, sidecars, sample, rd, e.records);
  }

  /** When the sample sidecar is `{}` (falsy), the camera falls back to focal 3700.0
      while every record still reads the default "3700/1000" from the sample: 3.7. */
  lemma EmptySampleSplitsFocal(images: seq<string>, sidecars: map<string, Sidecar>, rd: RealReader, ri: IntReader)
    requires SampleDoc(images, sidecars) == Ok(Some(JObj(map[])))
    requires rd("3700") == Some(3700.0) && rd("1000") == Some(1000.0)
    requires ExtractMetadata(images, sidecars, rd, ri).Ok?
    ensures var e := ExtractMetadata(images, sidecars, rd, ri).value;
      && e.camera == FallbackCamera && e.camera.focal == 3700.0
      && forall k :: 0 <= k < |e.records| ==> e.records[k].focalLength == 3.7
  {
    var e := ExtractMetadata(images, sidecars, rd, ri).value;
    EmptySampleIsFallback(JObj(map[]), rd, ri);
    assert SampleDoc(images, sidecars).value == Some(JObj(map[]));
    FocalDefault(map[], rd);
    RecordsCarrySampleFocal(images, sidecars, JObj(map[]), 3.7, rd, ri, e);
  }
}
