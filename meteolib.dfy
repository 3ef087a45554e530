/**
 * The meteorological formula library (MeteoLib.cs).
 *
 * All quantities are `real`. The transcendental functions of System.Math
 * (Exp, Pow, Log, Sqrt, Atan, Atan2, Sin, Cos) are not interpreted: they are
 * fields of a `MathFns` value handed to every formula that needs one, so the
 * properties proved below hold whatever those functions return. What is
 * proved is the piecewise structure of each formula: its guards, clamps,
 * blends and floors.
 */
module MeteoLib {

  /** The uninterpreted System.Math functions the formulas call. */
  datatype MathFns = MathFns(
    exp: real -> real,
    pow: (real, real) -> real,
    log: real -> real,
    sqrt: real -> real,
    atan: real -> real,
    atan2: (real, real) -> real,
    sin: real -> real,
    cos: real -> real,
    divByZero: real -> real)

  /**
   * Double division. Division by zero does not throw in C#: it yields an
   * infinity or NaN, which the reals cannot hold, so that value is left to
   * `divByZero`.
   */
  function Div(m: MathFns, a: real, b: real): (r: real)
    ensures b != 0.0 ==> r == a / b
  {
    if b != 0.0 then a / b else m.divByZero(a)
  }

  /** Math.PI as a double. */
  const Pi: real := 3.141592653589793

  function Abs(x: real): (r: real)
    ensures r >= 0.0 && (r == x || r == -x)
  {
    if x < 0.0 then -x else x
  }

  function Min(a: real, b: real): real { if a <= b then a else b }
  function Max(a: real, b: real): real { if a >= b then a else b }

  // ---------------------------------------------------------------- units

  function CToF(tempC: real): real {
    tempC * 9.0 / 5.0 + 32.0
  }

  function FtoC(tempF: real): real {
    (tempF - 32.0) * 5.0 / 9.0
  }

  /** Celsius to Fahrenheit and back is the identity (over the reals). */
  lemma CelsiusRoundTrip(tempC: real)
    ensures FtoC(CToF(tempC)) == tempC
  {
  }

  /** Fahrenheit to Celsius and back is the identity (over the reals). */
  lemma FahrenheitRoundTrip(tempF: real)
    ensures CToF(FtoC(tempF)) == tempF
  {
  }

  // ---------------------------------------------------------- wind chill

  /** The JAG/TI wind-chill polynomial, without its guards. */
  function ChillPolynomial(m: MathFns, tempC: real, windSpeedKph: real): real {
    var windPow := m.pow(windSpeedKph, 0.16);
    13.12 + 0.6215 * tempC - 11.37 * windPow + 0.3965 * tempC * windPow
  }

  /**
   * Wind chill in Celsius: the temperature itself at 10 C and above or at
   * 4.8 km/h and below; otherwise the polynomial, never above the
   * temperature.
   */
  function WindChill(m: MathFns, tempC: real, windSpeedKph: real): (r: real)
    ensures tempC >= 10.0 || windSpeedKph <= 4.8 ==> r == tempC
    ensures r <= tempC
    ensures r == tempC || r == ChillPolynomial(m, tempC, windSpeedKph)
  {
    if tempC >= 10.0 || windSpeedKph <= 4.8 then tempC
    else
      var wc := ChillPolynomial(m, tempC, windSpeedKph);
      if wc > tempC then tempC else wc
  }

  // ------------------------------------------------- vapour pressures

  function SaturationVapourPressure1980(m: MathFns, tempC: real): real {
    6.112 * m.exp(Div(m, 17.67 * tempC, tempC + 243.5))
  }

  function SaturationVapourPressure2008(m: MathFns, tempC: real): real {
    6.112 * m.exp(Div(m, 17.62 * tempC, 243.12 + tempC))
  }

  function ActualVapourPressure2008(m: MathFns, tempC: real, humidity: int): (r: real)
    ensures humidity == 100 ==> r == SaturationVapourPressure2008(m, tempC)
    ensures humidity == 0 ==> r == 0.0
  {
    humidity as real / 100.0 * SaturationVapourPressure2008(m, tempC)
  }

  // ------------------------------------------------ apparent temperature

  /** Australian apparent temperature; wind in m/s. */
  function ApparentTemperature(m: MathFns, tempC: real, windspeedMS: real, humidity: int): (r: real)
    ensures humidity == 0 ==> r == tempC - 0.7 * windspeedMS - 4.0
  {
    var avp := (humidity as real / 100.0) * 6.105 * m.exp(Div(m, 17.27 * tempC, 237.7 + tempC));
    tempC + 0.33 * avp - 0.7 * windspeedMS - 4.0
  }

  // --------------------------------------------------------- feels like

  /** The chill term of FeelsLike: no upper clamp, and a 4.828 km/h guard. */
  function FeelsLikeChill(m: MathFns, tempC: real, windSpeedKph: real): real {
    if windSpeedKph < 4.828 then tempC
    else 13.12 + 0.6215 * tempC - 11.37 * m.pow(windSpeedKph, 0.16)
         + 0.3965 * tempC * m.pow(windSpeedKph, 0.16)
  }

  /** The apparent-temperature term of FeelsLike, for an already capped wind. */
  function FeelsLikeApparent(m: MathFns, tempC: real, cappedKph: real, humidity: int): real {
    var svp := SaturationVapourPressure1980(m, tempC);
    var avp := humidity as real / 100.0 * svp / 10.0;
    1.04 * tempC + 2.0 * avp - cappedKph * 0.1805553 - 2.7
  }

  /** The wind speed FeelsLike uses for its apparent term: at most 72 km/h. */
  function CapWind(windSpeedKph: real): (r: real)
    ensures r <= 72.0
    ensures windSpeedKph <= 72.0 ==> r == windSpeedKph
  {
    if windSpeedKph > 72.0 then 72.0 else windSpeedKph
  }

  /**
   * Feels-like temperature: the chill term below 10 C, the apparent term
   * above 20 C, and in between the blend A*apparent + B*chill with
   * A = (t - 10) / 10 and B = 1 - A. The chill term sees the uncapped wind;
   * only the apparent term sees the wind capped at 72 km/h.
   */
  function FeelsLike(m: MathFns, tempC: real, windSpeedKph: real, humidity: int): (r: real)
    ensures tempC < 10.0 ==> r == FeelsLikeChill(m, tempC, windSpeedKph)
    ensures tempC > 20.0 ==> r == FeelsLikeApparent(m, tempC, CapWind(windSpeedKph), humidity)
    ensures 10.0 <= tempC <= 20.0 ==>
      var a := (tempC - 10.0) / 10.0;
      r == FeelsLikeApparent(m, tempC, CapWind(windSpeedKph), humidity) * a
           + FeelsLikeChill(m, tempC, windSpeedKph) * (1.0 - a)
  {
    var chill := FeelsLikeChill(m, tempC, windSpeedKph);
    var apptemp := FeelsLikeApparent(m, tempC, CapWind(windSpeedKph), humidity);
    if tempC < 10.0 then chill
    else if tempC > 20.0 then apptemp
    else
      var a := (tempC - 10.0) / 10.0;
      var b := 1.0 - a;
      apptemp * a + chill * b
  }

  /** A convex blend a*x + (1-a)*y with 0 <= a <= 1 lies between x and y. */
  lemma ConvexBlendBetween(x: real, y: real, a: real)
    requires 0.0 <= a <= 1.0
    ensures Min(x, y) <= x * a + y * (1.0 - a) <= Max(x, y)
  {
    var d := x - y;
    var r := x * a + y * (1.0 - a);
    assert r == y + a * d;
    assert r == x + (1.0 - a) * (0.0 - d);
    if d <= 0.0 {
      MulNonNegNonPos(a, d);
      MulNonNeg(1.0 - a, 0.0 - d);
    } else {
      MulNonNeg(a, d);
      MulNonNegNonPos(1.0 - a, 0.0 - d);
    }
  }

  lemma MulNonNeg(a: real, b: real)
    requires a >= 0.0 && b >= 0.0
    ensures a * b >= 0.0
  {
  }

  lemma MulNonNegNonPos(a: real, b: real)
    requires a >= 0.0 && b <= 0.0
    ensures a * b <= 0.0
  {
  }

  /**
   * In the 10-20 C band the feels-like value never leaves the interval
   * spanned by its chill and apparent terms.
   */
  lemma FeelsLikeBetweenTerms(m: MathFns, tempC: real, windSpeedKph: real, humidity: int)
    requires 10.0 <= tempC <= 20.0
    ensures var chill := FeelsLikeChill(m, tempC, windSpeedKph);
            var app := FeelsLikeApparent(m, tempC, CapWind(windSpeedKph), humidity);
            Min(app, chill) <= FeelsLike(m, tempC, windSpeedKph, humidity) <= Max(app, chill)
  {
    var chill := FeelsLikeChill(m, tempC, windSpeedKph);
    var app := FeelsLikeApparent(m, tempC, CapWind(windSpeedKph), humidity);
    ConvexBlendBetween(app, chill, (tempC - 10.0) / 10.0);
  }

  // --------------------------------------------------------- heat index

  /** The NOAA Rothfusz regression in Fahrenheit. */
  function Rothfusz(tempF: real, humidity: int): real {
    var h := humidity as real;
    var tempSqrd := tempF * tempF;
    var humSqrd := h * h;
    0.0 - 42.379 + 2.04901523 * tempF + 10.14333127 * h - 0.22475541 * tempF * h
    - 0.00683783 * tempSqrd - 0.05481717 * humSqrd + 0.00122874 * tempSqrd * h
    + 0.00085282 * tempF * humSqrd - 0.00000199 * tempSqrd * humSqrd
  }

  /** The low-humidity Rothfusz adjustment applies (humidity < 13, 80-112 F). */
  predicate LowHumidityAdjustment(tempF: real, humidity: int) {
    humidity < 13 && tempF >= 80.0 && tempF <= 112.0
  }

  /** The high-humidity Rothfusz adjustment applies (humidity > 85, 80-87 F). */
  predicate HighHumidityAdjustment(tempF: real, humidity: int) {
    humidity > 85 && tempF >= 80.0 && tempF <= 87.0
  }

  /**
   * North American heat index in Celsius: the temperature itself below
   * 80 F; otherwise the regression converted to Celsius, adjusted down for
   * dry air or up for humid air.
   */
  function HeatIndex(m: MathFns, tempC: real, humidity: int): (r: real)
    ensures CToF(tempC) < 80.0 ==> r == tempC
    ensures CToF(tempC) >= 80.0 && !LowHumidityAdjustment(CToF(tempC), humidity)
            && !HighHumidityAdjustment(CToF(tempC), humidity)
            ==> r == FtoC(Rothfusz(CToF(tempC), humidity))
    ensures HighHumidityAdjustment(CToF(tempC), humidity)
            ==> r >= FtoC(Rothfusz(CToF(tempC), humidity))
  {
    var tempF := CToF(tempC);
    if tempF < 80.0 then tempC
    else
      var result := FtoC(Rothfusz(tempF, humidity));
      if LowHumidityAdjustment(tempF, humidity) then
        result - ((13 - humidity) as real / 4.0) * m.sqrt((17.0 - Abs(tempF - 95.0)) / 17.0)
      else if HighHumidityAdjustment(tempF, humidity) then
        result + ((humidity - 85) as real / 10.0) * ((87.0 - tempF) / 5.0)
      else result
  }

  /** The two Rothfusz adjustments never apply together. */
  lemma HeatIndexAdjustmentsExclusive(tempF: real, humidity: int)
    ensures !(LowHumidityAdjustment(tempF, humidity) && HighHumidityAdjustment(tempF, humidity))
  {
  }

  // ---------------------------------------------------------- humidex

  /** Canadian humidex: the temperature itself below 10 C. */
  function Humidex(m: MathFns, tempC: real, humidity: int): (r: real)
    ensures tempC < 10.0 ==> r == tempC
    ensures tempC >= 10.0 ==> r == tempC + 5.0 / 9.0 * (ActualVapourPressure2008(m, tempC, humidity) - 10.0)
  {
    if tempC < 10.0 then tempC
    else tempC + (5.0 / 9.0) * (ActualVapourPressure2008(m, tempC, humidity) - 10.0)
  }

  // --------------------------------------------------------- dew point

  /** C#'s (int) cast of a double: truncation toward zero. */
  function Truncate(x: real): (r: int)
    ensures Abs(r as real) <= Abs(x) < Abs(r as real) + 1.0
    ensures x >= 0.0 ==> r >= 0
    ensures x <= 0.0 ==> r <= 0
  {
    if x >= 0.0 then x.Floor else -((-x).Floor)
  }

  /** The (int) cast keeps order. */
  lemma TruncateMonotone(x: real, y: real)
    requires x <= y
    ensures Truncate(x) <= Truncate(y)
  {
    if x >= 0.0 {
      assert x.Floor as real <= x <= y;
    } else if y >= 0.0 {
    } else {
      assert (-y).Floor as real <= -y <= -x;
    }
  }

  /** Davis dew point; the temperature itself at humidity 0 or 100. */
  function DewPoint(m: MathFns, tempC: real, humidity: real): (r: real)
    ensures humidity == 0.0 || humidity == 100.0 ==> r == tempC
  {
    if humidity == 0.0 || humidity == 100.0 then tempC
    else
      var lnVapor := m.log(ActualVapourPressure2008(m, tempC, Truncate(humidity)));
      Div(m, 243.12 * lnVapor - 440.1, 19.43 - lnVapor)
  }

  // ---------------------------------------------------------- wet bulb

  function Sqr(num: real): real { num * num }

  /** Wet bulb from temperature, dew point and pressure (no guard in the source). */
  function CalculateWetBulbC(m: MathFns, tempC: real, dewPointC: real, pressureMb: real): real {
    var svpDP := SaturationVapourPressure1980(m, dewPointC);
    var slope := Div(m, 4098.0 * svpDP, Sqr(dewPointC + 237.7));
    Div(m, (0.00066 * pressureMb) * tempC + slope * dewPointC, (0.00066 * pressureMb) + slope)
  }

  /**
   * Stull's wet-bulb fit; the temperature itself at humidity 100. The
   * source's exponent `3/2` is an integer division, so the power is 1.
   */
  function CalculateWetBulbC2(m: MathFns, tempC: real, humidity: int): (r: real)
    ensures humidity == 100 ==> r == tempC
  {
    if humidity == 100 then tempC
    else
      var h := humidity as real;
      tempC * m.atan(0.151977 * m.sqrt(h + 8.313659)) + m.atan(tempC + h)
      - m.atan(h - 1.676331) + 0.00391838 * m.pow(h, (3 / 2) as real) * m.atan(0.023101 * h)
      - 4.686035
  }

  /**
   * Iterative wet bulb; the temperature itself at humidity 100. The
   * convergence loop is not modelled: `converge` stands for its result.
   */
  function CalculateWetBulbCIterative(tempC: real, humidity: int, pressureHpa: real,
                                      converge: (real, int, real) -> real): (r: real)
    ensures humidity == 100 ==> r == tempC
    ensures humidity != 100 ==> r == converge(tempC, humidity, pressureHpa)
  {
    if humidity == 100 then tempC else converge(tempC, humidity, pressureHpa)
  }

  // --------------------------------------------------- evapotranspiration

  /**
   * Cloudiness from measured against clear-sky radiation: their ratio capped
   * at 1 in daylight, and 0.5 at night (no clear-sky radiation).
   */
  function CloudFactor(radMeasured: real, radClearSky: real): (r: real)
    ensures radClearSky > 0.0 ==> r <= 1.0
    ensures radClearSky > 0.0 && radMeasured >= 0.0 ==> r >= 0.0
    ensures radClearSky > 0.0 && radMeasured <= radClearSky ==> r == radMeasured / radClearSky
    ensures radClearSky <= 0.0 ==> r == 0.5
  {
    if radClearSky > 0.0 then
      var f := radMeasured / radClearSky;
      if f > 1.0 then 1.0 else f
    else 0.5
  }

  /** Net long-wave radiation in MJ/m^2/hour (FAO-56 equation 39, per hour). */
  function LongwaveRadiation(m: MathFns, tempAvgC: real, vapPresskPa: real,
                             radMeasured: real, radClearSky: real): real
  {
    var avgK := tempAvgC + 273.16;
    var sigma := 4.903e-09 / 24.0;
    var part1 := sigma * m.pow(avgK, 4.0);
    var part2 := 0.34 - 0.14 * m.sqrt(vapPresskPa);
    var part3 := 1.35 * CloudFactor(radMeasured, radClearSky) - 0.35;
    part1 * part2 * part3
  }

  /** The hourly FAO Penman-Monteith reference ET before its floor at zero. */
  function PenmanMonteith(m: MathFns, tempAvgC: real, humAvg: int, radMean: real,
                          maxRadMean: real, windAvgMs: real, pressKpa: real): real
  {
    var windHeightM := 2.0;
    var albedo := 0.23;
    var u2 := Div(m, 4.87 * windAvgMs, m.log(67.8 * windHeightM - 5.42));
    var gamma := 0.665e-03 * pressKpa;
    var e0T := 0.6108 * m.exp(Div(m, 17.27 * tempAvgC, tempAvgC + 237.3));
    var delta := Div(m, 4098.0 * (0.6108 * m.exp(Div(m, 17.27 * tempAvgC, tempAvgC + 237.3))),
                     (tempAvgC + 237.3) * (tempAvgC + 237.3));
    // C# evaluates e0T * humAvg / 100 left to right in double arithmetic
    var ea := e0T * humAvg as real / 100.0;
    var rs := radMean * 0.0036;
    var rns := (1.0 - albedo) * rs;
    var rso := maxRadMean * 0.0036;
    var rnl := LongwaveRadiation(m, tempAvgC, ea, rs, rso);
    var rn := rns - rnl;
    var ghr := (if rs > 0.0 then 0.1 else 0.5) * rn;
    Div(m, 0.408 * delta * (rn - ghr) + Div(m, gamma * 37.0, tempAvgC + 273.0) * u2 * (e0T - ea),
        delta + gamma * (1.0 + 0.34 * u2))
  }

  /** Hourly reference evapotranspiration in mm, floored at zero. */
  function Evapotranspiration(m: MathFns, tempAvgC: real, humAvg: int, radMean: real,
                              maxRadMean: real, windAvgMs: real, pressKpa: real): (r: real)
    ensures r >= 0.0
    ensures var raw := PenmanMonteith(m, tempAvgC, humAvg, radMean, maxRadMean, windAvgMs, pressKpa);
            r == Max(raw, 0.0)
  {
    var et0 := PenmanMonteith(m, tempAvgC, humAvg, radMean, maxRadMean, windAvgMs, pressKpa);
    if et0 < 0.0 then 0.0 else et0
  }
}
