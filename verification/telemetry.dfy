/**
  Telemetry values as the scripts see them after `json.load`, and the conversions
  they apply to them: `dict.get` with a default, `float(...)`, `int(...)`, Python
  truthiness, and the "num/den" fraction rule used for the focal length
  (scripts/prepare_metadata.py).

  Decoding JSON text and parsing number spellings are not modelled: a sidecar is
  given already decoded (or as unreadable), and `float(str)` / `int(str)` are the
  oracles `RealReader` / `IntReader`, partial functions supplied by the caller.
 */
module Telemetry {
  import opened Wrappers
  import opened Text

  /** A decoded JSON value. Integer and fractional JSON numbers are both `JNum`. */
  datatype Json =
    | JNull
    | JBool(b: bool)
    | JNum(n: real)
    | JStr(s: string)
    | JArr(items: seq<Json>)
    | JObj(fields: map<string, Json>)

  /** A sidecar file that exists on disk: either it decodes, or `json.load` raises. */
  datatype Sidecar = Unreadable | Doc(value: Json)

  /** The exceptions the scripts can raise while reading metadata. */
  datatype Error =
    | NotANumber(text: string)        // float()/int() rejects a string (ValueError)
    | WrongType                       // float()/int() of null, a list or an object; indexing a non-object (TypeError)
    | NoSuchMethod                    // .get or .split on a value that lacks it (AttributeError)
    | MissingKey(key: string)         // meta['key'] on an object without the key (KeyError)
    | TooManyParts(count: nat)        // "a/b/c" unpacked into two names (ValueError)
    | DivisionByZero                  // ZeroDivisionError
    | Undecodable(path: string) // json.load failed on an existing file
    | NoMetadata                      // no *.json file in the image folder
    | NoImages                        // no image file in the image folder

  /** Python's `float(text)` on a string: the parsed value, or None when it raises. */
  type RealReader = string -> Option<real>

  /** Python's `int(text)` on a string. */
  type IntReader = string -> Option<int>

  const FocalDefaultText := "3700/1000"

  /** Python truthiness of a decoded JSON value. */
  predicate Truthy(v: Json)
  {
    match v
    case JNull => false
    case JBool(b) => b
    case JNum(n) => n != 0.0
    case JStr(s) => |s| > 0
    case JArr(items) => |items| > 0
    case JObj(fields) => |fields| > 0
  }

  /** The value under `key`, or `default` when the key is absent. */
  function FieldOr(fields: map<string, Json>, key: string, default: Json): Json
  {
    if key in fields then fields[key] else default
  }

  /** `v.get(key, default)`: only objects have `.get`. */
  function Get(v: Json, key: string, default: Json): Result<Json, Error>
  {
    if !v.JObj? then Err(NoSuchMethod)
    else Ok(FieldOr(v.fields, key, default))
  }

  /** `v[key]`: a missing key is a KeyError, a non-object a TypeError. */
  function Index(v: Json, key: string): Result<Json, Error>
  {
    if !v.JObj? then Err(WrongType)
    else if key in v.fields then Ok(v.fields[key])
    else Err(MissingKey(key))
  }

  function ReadReal(text: string, rd: RealReader): Result<real, Error>
  {
    match rd(text)
    case Some(x) => Ok(x)
    case None => Err(NotANumber(text))
  }

  /** `float(v)`: numbers and booleans convert, strings go through the reader. */
  function ToFloat(v: Json, rd: RealReader): Result<real, Error>
  {
    match v
    case JNum(n) => Ok(n)
    case JBool(b) => Ok(if b then 1.0 else 0.0)
    case JStr(s) => ReadReal(s, rd)
    case _ => Err(WrongType)
  }

  /** `int(x)` of a float truncates toward zero. */
  function Trunc(x: real): (r: int)
    ensures x >= 0.0 ==> 0 <= r && r as real <= x < r as real + 1.0
    ensures x < 0.0 ==> r <= 0 && r as real - 1.0 < x <= r as real
  {
    if x >= 0.0 then x.Floor else -((-x).Floor)
  }

  /** `int(v)`: numbers truncate, booleans are 0/1, strings go through the reader. */
  function ToInt(v: Json, ri: IntReader): Result<int, Error>
  {
    match v
    case JNum(n) => Ok(Trunc(n))
    case JBool(b) => Ok(if b then 1 else 0)
    case JStr(s) =>
      (match ri(s)
       case Some(k) => Ok(k)
       case None => Err(NotANumber(s)))
    case _ => Err(WrongType)
  }

  /** A value the fraction rule splits: a string holding a `/`. */
  predicate IsFraction(v: Json)
  {
    v.JStr? && '/' in v.s
  }

  /** The focal-length rule: a string with a `/` is `num/den` (both halves through
      `float`, in order); anything else goes to `float` directly. Two names receive
      the halves, so a third part is an error once it, too, has been converted. */
  function ParseFraction(v: Json, rd: RealReader): (r: Result<real, Error>)
    ensures !IsFraction(v) ==> r == ToFloat(v, rd)
    ensures IsFraction(v) && r.Ok? ==> Count(v.s, '/') == 1
    ensures v.JStr? && Count(v.s, '/') > 1 ==> r.Err?
    ensures IsFraction(v) && r.Ok? ==>
      exists num, den :: v.s == num + "/" + den && rd(num).Some? && rd(den).Some? &&
        rd(den).value != 0.0 && r.value == rd(num).value / rd(den).value
  {
    if !IsFraction(v) then
      assert v.JStr? ==> Count(v.s, '/') == 0 by {
        if v.JStr? { CountZeroIff(v.s, '/'); }
      }
      ToFloat(v, rd)
    else
      var parts := Split(v.s, '/');
      assert Count(v.s, '/') > 0 by { CountZeroIff(v.s, '/'); }
      var num :- ReadReal(parts[0], rd);
      var den :- ReadReal(parts[1], rd);
      if |parts| > 2 then
        var _ :- ReadReal(parts[2], rd);
        Err(TooManyParts(|parts|))
      else if den == 0.0 then Err(DivisionByZero)
      else
        assert Join(parts[1..], '/') == parts[1];
        assert v.s == parts[0] + ['/'] + parts[1];
        assert rd(parts[0]) == Some(num) && rd(parts[1]) == Some(den);
        Ok(num / den)
  }

  lemma {:induction false} CountZeroIff(s: string, c: char)
    ensures Count(s, c) == 0 <==> c !in s
    decreases |s|
  {
    if |s| > 0 {
      assert s == [s[0]] + s[1..];
      CountZeroIff(s[1..], c);
    }
  }

  /** The fraction rule on `a/b`: the quotient of the two halves, with the errors
      Python raises in the order it raises them. */
  lemma FractionOfTwoNumbers(a: string, b: string, rd: RealReader)
    requires '/' !in a && '/' !in b
    ensures rd(a).None? ==> ParseFraction(JStr(a + "/" + b), rd) == Err(NotANumber(a))
    ensures rd(a).Some? && rd(b).None? ==> ParseFraction(JStr(a + "/" + b), rd) == Err(NotANumber(b))
    ensures rd(a).Some? && rd(b) == Some(0.0) ==> ParseFraction(JStr(a + "/" + b), rd) == Err(DivisionByZero)
    ensures rd(a).Some? && rd(b).Some? && rd(b).value != 0.0 ==>
      ParseFraction(JStr(a + "/" + b), rd) == Ok(rd(a).value / rd(b).value)
  {
    SplitInTwo(a, b, '/');
    assert a + "/" + b == a + ['/'] + b;
    assert (a + "/" + b)[|a|] == '/';
  }

  /** The default focal text "3700/1000" reads as 3.7, the same value the plain
      number 3.7 gives: the fraction and plain spellings agree. */
  lemma DefaultFocalIsThreePointSeven(rd: RealReader)
    requires rd("3700") == Some(3700.0) && rd("1000") == Some(1000.0)
    ensures ParseFraction(JStr(FocalDefaultText), rd) == Ok(3.7)
    ensures ParseFraction(JStr(FocalDefaultText), rd) == ParseFraction(JNum(3.7), rd)
  {
    DefaultFocalSplits(FocalDefaultText, "3700", "1000", rd);
    PlainNumber(3.7, rd);
  }

  lemma DefaultFocalSplits(t: string, a: string, b: string, rd: RealReader)
    requires a == "3700" && b == "1000" && t == a + "/" + b
    requires rd(a) == Some(3700.0) && rd(b) == Some(1000.0)
    ensures ParseFraction(JStr(t), rd) == Ok(3.7)
  {
    assert '/' !in a && '/' !in b;
    FractionOfTwoNumbers(a, b, rd);
  }

  /** A JSON number is taken as it is. */
  lemma PlainNumber(x: real, rd: RealReader)
    ensures ParseFraction(JNum(x), rd) == Ok(x)
  {
  }
}
