/**
 * Unit conversions, the dominant-bearing calculation and line-ending
 * detection (Utils.cs). The configured units are passed in explicitly:
 * `tempUnit` is Units.Temp (0 = C, 1 = F) and `windUnit` is Units.Wind
 * (0 = m/s, 1 = mph, 2 = km/h, 3 = knots).
 */
module Utils {
  import opened MeteoLib

  // ------------------------------------------------------- temperature

  /** A user temperature in Celsius: Fahrenheit is converted, anything else is kept. */
  function ConvertUserTempToC(tempUnit: int, value: real): (r: real)
    ensures tempUnit == 1 ==> r == FtoC(value) && CToF(r) == value
    ensures tempUnit != 1 ==> r == value
  {
    if tempUnit == 1 then FtoC(value) else value
  }

  // -------------------------------------------------------------- wind

  /** 3.6F: the single-precision literal the source divides by, widened to double. */
  const Float3_6: real := 3.5999999046325684

  /** Wind in the user's unit to km/h; an unknown unit is passed through. */
  function ConvertUserWindToKPH(windUnit: int, wind: real): (r: real)
    ensures windUnit == 0 ==> r == wind * 3.6
    ensures windUnit == 1 ==> r == wind * 1.609344
    ensures windUnit == 3 ==> r == wind * 1.852
    ensures windUnit !in {0, 1, 3} ==> r == wind
  {
    match windUnit
    case 0 => wind * 3.6
    case 1 => wind * 1.609344
    case 2 => wind
    case 3 => wind * 1.852
    case _ => wind
  }

  /** Wind in the user's unit to m/s; an unknown unit gives 0. */
  function ConvertUserWindToMS(windUnit: int, value: real): (r: real)
    ensures windUnit == 0 ==> r == value
    ensures windUnit == 1 ==> r * 2.23693629 == value
    ensures windUnit == 2 ==> r * Float3_6 == value
    ensures windUnit == 3 ==> r * 1.94384449 == value
    ensures windUnit !in {0, 1, 2, 3} ==> r == 0.0
  {
    match windUnit
    case 0 => value
    case 1 => value / 2.23693629
    case 2 => value / Float3_6
    case 3 => value / 1.94384449
    case _ => 0.0
  }

  /**
   * For m/s and km/h stations the two conversions agree: km/h is 3.6 times
   * m/s (for km/h up to the single-precision 3.6F the source divides by).
   */
  lemma WindConversionsAgree(windUnit: int, value: real)
    requires windUnit == 0 || windUnit == 2
    ensures windUnit == 0 ==> ConvertUserWindToKPH(windUnit, value) == 3.6 * ConvertUserWindToMS(windUnit, value)
    ensures windUnit == 2 ==> ConvertUserWindToKPH(windUnit, value) == Float3_6 * ConvertUserWindToMS(windUnit, value)
  {
  }

  // ---------------------------------------------------------- bearing

  /**
   * Compass bearing from the mathematical angle (degrees, counter-clockwise
   * from east) of the wind vector: 90 minus the truncated angle, wrapped
   * into [0, 360) when negative.
   */
  function BearingFromDegrees(deg: real): (r: int)
    ensures -180.0 <= deg <= 180.0 ==> 0 <= r < 360
    ensures r == 90 - Truncate(deg) || r == 450 - Truncate(deg)
  {
    var avg := 90 - Truncate(deg);
    if avg < 0 then 360 + avg else avg
  }

  /** Degrees in one radian, 180 / pi. */
  const DegreesPerRadian: real := 180.0 / Pi

  /** Dominant bearing of the summed wind vector (x east, y north). */
  function CalcAvgBearing(m: MathFns, x: real, y: real): (r: int)
    ensures -180.0 <= DegreesPerRadian * m.atan2(y, x) <= 180.0 ==> 0 <= r < 360
  {
    BearingFromDegrees(DegreesPerRadian * m.atan2(y, x))
  }

  /** A vector pointing due north (x = 0, y > 0) has bearing 0. */
  lemma NorthVectorBearing(m: MathFns, speed: real)
    requires speed > 0.0 && m.atan2(speed, 0.0) == Pi / 2.0
    ensures CalcAvgBearing(m, 0.0, speed) == 0
  {
    assert 180.0 / Pi * (Pi / 2.0) == 90.0;
  }

  /** A vector pointing due east (x > 0, y = 0) has bearing 90. */
  lemma EastVectorBearing(m: MathFns, speed: real)
    requires speed > 0.0 && m.atan2(0.0, speed) == 0.0
    ensures CalcAvgBearing(m, speed, 0.0) == 90
  {
  }

  // ------------------------------------------------------ line endings

  newtype byte = b: int | 0 <= b < 256

  const LineFeed: byte := 10
  const CarriageReturn: byte := 13

  /** How many leading bytes the detector looks at. */
  const ScanLimit: nat := 1000

  /** `k` is the first line feed within the scanned prefix of `bytes`. */
  predicate IsFirstLineFeed(bytes: seq<byte>, k: int) {
    0 <= k < |bytes| && k < ScanLimit && bytes[k] == LineFeed
    && forall j :: 0 <= j < k ==> bytes[j] != LineFeed
  }

  /** The convention a line feed at `k` reveals: CR LF when a CR precedes it. */
  function EndingAt(bytes: seq<byte>, k: nat): string
    requires k < |bytes|
  {
    if k > 0 && bytes[k - 1] == CarriageReturn then "\r\n" else "\n"
  }

  /**
   * Looks for the first line feed among the first 1000 bytes. When there is
   * one it reports CR LF if the byte before it is a CR and LF otherwise;
   * when there is none it reports failure and the platform's convention.
   */
  method TryDetectNewLine(bytes: seq<byte>, platformNewLine: string) returns (found: bool, newLine: string)
    ensures found ==> exists k :: IsFirstLineFeed(bytes, k) && newLine == EndingAt(bytes, k)
    ensures !found ==> newLine == platformNewLine
    ensures !found <==> forall j :: 0 <= j < |bytes| && j < ScanLimit ==> bytes[j] != LineFeed
  {
    var prevChar: byte := 0;
    var i := 0;
    while i < ScanLimit
      invariant 0 <= i <= ScanLimit
      invariant forall j :: 0 <= j < i && j < |bytes| ==> bytes[j] != LineFeed
      invariant i > 0 && i <= |bytes| ==> prevChar == bytes[i - 1]
      invariant i == 0 ==> prevChar == 0
    {
      if i >= |bytes| {
        break;
      }
      var curChar := bytes[i];
      if curChar == LineFeed {
        newLine := if prevChar == CarriageReturn then "\r\n" else "\n";
        assert IsFirstLineFeed(bytes, i) && newLine == EndingAt(bytes, i);
        return true, newLine;
      }
      prevChar := curChar;
      i := i + 1;
    }
    return false, platformNewLine;
  }
}
