/**
  The single shared SIMPLE_RADIAL camera of a run (scripts/prepare_metadata.py,
  lines 19-47): read from the sample sidecar when there is a truthy one, otherwise
  the fixed camera of the drone's sensor.
 */
module Cameras {
  import opened Wrappers
  import opened Text
  import opened Telemetry

  /** Width, height, focal length, optical center and the one radial coefficient. */
  datatype Camera = Camera(width: int, height: int, focal: real, cx: real, cy: real, k1: real)

  /** The camera used when no truthy sample sidecar exists. */
  const FallbackCamera := Camera(4056, 3040, 3700.0, 2022.872267, 1512.190903, 0.123224)

  const DewarpDefaultText := "0.123224,0,0"

  /** `sample.get("FocalLength", "3700/1000")` through the fraction rule. */
  function SampleFocal(sample: Json, rd: RealReader): (r: Result<real, Error>)
    ensures !sample.JObj? ==> r == Err(NoSuchMethod)
    ensures sample.JObj? && "FocalLength" in sample.fields ==> r == ParseFraction(sample.fields["FocalLength"], rd)
  {
    var raw :- Get(sample, "FocalLength", JStr(FocalDefaultText));
    ParseFraction(raw, rd)
  }

  /** `int(sample.get("PixelXDimension", 4056))` and the same for the height. */
  function Dimensions(sample: Json, ri: IntReader): (r: Result<(int, int), Error>)
    ensures !sample.JObj? ==> r == Err(NoSuchMethod)
    ensures r.Ok? ==> sample.JObj?
    ensures r.Ok? && "PixelXDimension" in sample.fields ==> ToInt(sample.fields["PixelXDimension"], ri) == Ok(r.value.0)
    ensures r.Ok? && "PixelYDimension" in sample.fields ==> ToInt(sample.fields["PixelYDimension"], ri) == Ok(r.value.1)
    ensures r.Ok? && "PixelXDimension" !in sample.fields ==> r.value.0 == 4056
    ensures r.Ok? && "PixelYDimension" !in sample.fields ==> r.value.1 == 3040
  {
    if !sample.JObj? then Err(NoSuchMethod)
    else
      var width :- ToInt(FieldOr(sample.fields, "PixelXDimension", JNum(4056.0)), ri);
      var height :- ToInt(FieldOr(sample.fields, "PixelYDimension", JNum(3040.0)), ri);
      Ok((width, height))
  }

  /** `float(sample.get("CalibratedOpticalCenter", {}).get(axis, fallback))` for both axes,
      with the middle of the image as the fallback. */
  function Principal(sample: Json, width: int, height: int, rd: RealReader): (r: Result<(real, real), Error>)
    ensures sample.JObj? && "CalibratedOpticalCenter" !in sample.fields ==>
      r == Ok((width as real / 2.0, height as real / 2.0))
    ensures r.Ok? ==> sample.JObj?
    ensures r.Ok? && "CalibratedOpticalCenter" in sample.fields ==>
      var center := sample.fields["CalibratedOpticalCenter"];
      && center.JObj?
      && ("X" in center.fields ==> ToFloat(center.fields["X"], rd) == Ok(r.value.0))
      && ("Y" in center.fields ==> ToFloat(center.fields["Y"], rd) == Ok(r.value.1))
      && ("X" !in center.fields ==> r.value.0 == width as real / 2.0)
      && ("Y" !in center.fields ==> r.value.1 == height as real / 2.0)
  {
    var center :- Get(sample, "CalibratedOpticalCenter", JObj(map[]));
    if !center.JObj? then Err(NoSuchMethod)
    else
      var cx :- ToFloat(FieldOr(center.fields, "X", JNum(width as real / 2.0)), rd);
      var cy :- ToFloat(FieldOr(center.fields, "Y", JNum(height as real / 2.0)), rd);
      Ok((cx, cy))
  }

  /** `float(sample.get("DewarpData", "0.123224,0,0").split(",")[0])`. */
  function RadialK1(sample: Json, rd: RealReader): (r: Result<real, Error>)
    ensures !sample.JObj? ==> r == Err(NoSuchMethod)
    ensures sample.JObj? && "DewarpData" in sample.fields && !sample.fields["DewarpData"].JStr? ==> r == Err(NoSuchMethod)
    ensures sample.JObj? && "DewarpData" in sample.fields && sample.fields["DewarpData"].JStr? ==>
      r == ReadReal(FirstField(sample.fields["DewarpData"].s, ','), rd)
  {
    var dewarp :- Get(sample, "DewarpData", JStr(DewarpDefaultText));
    if dewarp.JStr? then ReadReal(FirstField(dewarp.s, ','), rd) else Err(NoSuchMethod)
  }

  /** The camera of the run. A missing or falsy sample (no sidecar, or `{}`) gives
      the fallback camera; a truthy sample that is not an object has no `.get`;
      otherwise every parameter comes from the sample, in source order. */
  function ResolveCamera(sample: Option<Json>, rd: RealReader, ri: IntReader): (r: Result<Camera, Error>)
    ensures sample.None? ==> r == Ok(FallbackCamera)
    ensures sample.Some? && !Truthy(sample.value) ==> r == Ok(FallbackCamera)
    ensures sample.Some? && Truthy(sample.value) && !sample.value.JObj? ==> r == Err(NoSuchMethod)
    ensures sample.Some? && Truthy(sample.value) && Dimensions(sample.value, ri).Err? ==>
      r == Err(Dimensions(sample.value, ri).error)
    ensures sample.Some? && Truthy(sample.value) && Dimensions(sample.value, ri).Ok? && SampleFocal(sample.value, rd).Err? ==>
      r == Err(SampleFocal(sample.value, rd).error)
    ensures sample.Some? && Truthy(sample.value) && Dimensions(sample.value, ri).Ok? && SampleFocal(sample.value, rd).Ok? ==>
      var size := Dimensions(sample.value, ri).value;
      && (Principal(sample.value, size.0, size.1, rd).Err? ==> r == Err(Principal(sample.value, size.0, size.1, rd).error))
      && (Principal(sample.value, size.0, size.1, rd).Ok? && RadialK1(sample.value, rd).Err? ==>
            r == Err(RadialK1(sample.value, rd).error))
    ensures r.Ok? && sample.Some? && Truthy(sample.value) ==>
      && Dimensions(sample.value, ri) == Ok((r.value.width, r.value.height))
      && SampleFocal(sample.value, rd) == Ok(r.value.focal)
      && Principal(sample.value, r.value.width, r.value.height, rd) == Ok((r.value.cx, r.value.cy))
      && RadialK1(sample.value, rd) == Ok(r.value.k1)
  {
    if sample.None? || !Truthy(sample.value) then Ok(FallbackCamera)
    else
      var s := sample.value;
      var size :- Dimensions(s, ri);
      var focal :- SampleFocal(s, rd);
      var center :- Principal(s, size.0, size.1, rd);
      var k1 :- RadialK1(s, rd);
      Ok(Camera(size.0, size.1, focal, center.0, center.1, k1))
  }

  /** The image size is `int` of the sample's pixel dimensions: a JSON number is
      truncated toward zero, a string goes through `int`. */
  lemma SizeFromSample(fields: map<string, Json>, rd: RealReader, ri: IntReader)
    requires "PixelXDimension" in fields && "PixelYDimension" in fields
    requires ResolveCamera(Some(JObj(fields)), rd, ri).Ok?
    ensures var c := ResolveCamera(Some(JObj(fields)), rd, ri).value;
      && ToInt(fields["PixelXDimension"], ri) == Ok(c.width)
      && ToInt(fields["PixelYDimension"], ri) == Ok(c.height)
      && (fields["PixelXDimension"].JNum? ==> c.width == Trunc(fields["PixelXDimension"].n))
      && (fields["PixelYDimension"].JNum? ==> c.height == Trunc(fields["PixelYDimension"].n))
  {
    assert "PixelXDimension" in fields.Keys;
    assert Truthy(JObj(fields));
  }

  /** The focal length is the sample's `FocalLength` through the fraction rule. */
  lemma FocalFromSample(fields: map<string, Json>, rd: RealReader, ri: IntReader)
    requires "FocalLength" in fields
    requires ResolveCamera(Some(JObj(fields)), rd, ri).Ok?
    ensures ParseFraction(fields["FocalLength"], rd) == Ok(ResolveCamera(Some(JObj(fields)), rd, ri).value.focal)
  {
    assert "FocalLength" in fields.Keys;
    assert Truthy(JObj(fields));
  }

  /** A `FocalLength` of `a/b` with both halves readable and `b` non-zero gives `a / b`. */
  lemma FocalFromFraction(fields: map<string, Json>, a: string, b: string, rd: RealReader, ri: IntReader)
    requires "FocalLength" in fields && fields["FocalLength"] == JStr(a + "/" + b)
    requires '/' !in a && '/' !in b
    requires rd(a).Some? && rd(b).Some? && rd(b).value != 0.0
    requires ResolveCamera(Some(JObj(fields)), rd, ri).Ok?
    ensures ResolveCamera(Some(JObj(fields)), rd, ri).value.focal == rd(a).value / rd(b).value
  {
    FocalFromSample(fields, rd, ri);
    FractionOfTwoNumbers(a, b, rd);
  }

  /** A calibrated optical center gives the principal point: `float` of its X and Y. */
  lemma CenterFromSample(fields: map<string, Json>, center: map<string, Json>, rd: RealReader, ri: IntReader)
    requires "CalibratedOpticalCenter" in fields && fields["CalibratedOpticalCenter"] == JObj(center)
    requires "X" in center && "Y" in center
    requires ResolveCamera(Some(JObj(fields)), rd, ri).Ok?
    ensures var c := ResolveCamera(Some(JObj(fields)), rd, ri).value;
      && ToFloat(center["X"], rd) == Ok(c.cx) && ToFloat(center["Y"], rd) == Ok(c.cy)
      && (center["X"].JNum? ==> c.cx == center["X"].n)
      && (center["Y"].JNum? ==> c.cy == center["Y"].n)
  {
    assert "CalibratedOpticalCenter" in fields.Keys;
    assert Truthy(JObj(fields));
  }

  /** Without a calibrated optical center the principal point is the image middle. */
  lemma CenterDefaultsToMiddle(fields: map<string, Json>, rd: RealReader, ri: IntReader)
    requires |fields| > 0 && "CalibratedOpticalCenter" !in fields
    requires ResolveCamera(Some(JObj(fields)), rd, ri).Ok?
    ensures var c := ResolveCamera(Some(JObj(fields)), rd, ri).value;
      c.cx == c.width as real / 2.0 && c.cy == c.height as real / 2.0
  {
  }

  /** A DewarpData string `a,rest` gives k1 = float(a): only the first field counts. */
  lemma K1IsFirstDewarpField(fields: map<string, Json>, a: string, rest: string, rd: RealReader, ri: IntReader)
    requires "DewarpData" in fields && fields["DewarpData"] == JStr(a + "," + rest)
    requires ',' !in a
    requires ResolveCamera(Some(JObj(fields)), rd, ri).Ok?
    ensures rd(a) == Some(ResolveCamera(Some(JObj(fields)), rd, ri).value.k1)
  {
    FirstFieldBeforeSeparator(a, rest, ',');
    assert a + "," + rest == a + [','] + rest;
  }

  /** A non-empty sample that names none of the camera fields still differs from the
      fallback camera: focal 3.7 (from "3700/1000"), center at the middle of
      4056x3040, k1 from "0.123224,0,0". */
  lemma SampleWithoutCameraFields(fields: map<string, Json>, rd: RealReader, ri: IntReader)
    requires |fields| > 0
    requires "PixelXDimension" !in fields && "PixelYDimension" !in fields && "FocalLength" !in fields
    requires "CalibratedOpticalCenter" !in fields && "DewarpData" !in fields
    requires rd("3700") == Some(3700.0) && rd("1000") == Some(1000.0) && rd("0.123224") == Some(0.123224)
    ensures ResolveCamera(Some(JObj(fields)), rd, ri) == Ok(Camera(4056, 3040, 3.7, 2028.0, 1520.0, 0.123224))
  {
    DimensionsDefault(fields, ri);
    FocalDefault(fields, rd);
    K1Default(fields, rd);
    Assembled(JObj(fields), Camera(4056, 3040, 3.7, 2028.0, 1520.0, 0.123224), rd, ri);
  }

  /** A truthy sample whose four parameter groups all read yields exactly those values. */
  lemma Assembled(s: Json, c: Camera, rd: RealReader, ri: IntReader)
    requires Truthy(s)
    requires Dimensions(s, ri) == Ok((c.width, c.height))
    requires SampleFocal(s, rd) == Ok(c.focal)
    requires Principal(s, c.width, c.height, rd) == Ok((c.cx, c.cy))
    requires RadialK1(s, rd) == Ok(c.k1)
    ensures ResolveCamera(Some(s), rd, ri) == Ok(c)
  {
  }

  /** `{}` is falsy, so it selects the fallback camera. */
  lemma EmptySampleIsFallback(sample: Json, rd: RealReader, ri: IntReader)
    requires sample == JObj(map[])
    ensures ResolveCamera(Some(sample), rd, ri) == Ok(FallbackCamera)
  {
    EmptyObjectIsFalsy(sample);
  }

  lemma EmptyObjectIsFalsy(sample: Json)
    requires sample == JObj(map[])
    ensures !Truthy(sample)
  {
  }

  lemma DimensionsDefault(fields: map<string, Json>, ri: IntReader)
    requires "PixelXDimension" !in fields && "PixelYDimension" !in fields
    ensures Dimensions(JObj(fields), ri) == Ok((4056, 3040))
  {
  }

  lemma FocalDefault(fields: map<string, Json>, rd: RealReader)
    requires "FocalLength" !in fields
    requires rd("3700") == Some(3700.0) && rd("1000") == Some(1000.0)
    ensures SampleFocal(JObj(fields), rd) == Ok(3.7)
  {
    DefaultFocalIsThreePointSeven(rd);
  }

  lemma K1Default(fields: map<string, Json>, rd: RealReader)
    requires "DewarpData" !in fields
    requires rd("0.123224") == Some(0.123224)
    ensures RadialK1(JObj(fields), rd) == Ok(0.123224)
  {
    DefaultDewarpFirstField(DewarpDefaultText);
  }

  /** The first field of the default DewarpData text is the fallback k1. */
  lemma DefaultDewarpFirstField(t: string)
    requires t == DewarpDefaultText
    ensures FirstField(t, ',') == "0.123224"
  {
    assert ',' !in "0.123224";
    FirstFieldBeforeSeparator("0.123224", "0,0", ',');
    assert t == "0.123224" + [','] + "0,0";
  }
}
