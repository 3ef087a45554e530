/**
 * Rebuilding one meteorological day from the monthly logs (Program.cs
 * GetDayRecFromMonthly, ExtractSolarData, LastHourData).
 *
 * A monthly log is a sequence of already-split lines; each line is either
 * unreadable (its date and time do not parse, which is fatal) or an entry
 * at a time in minutes with the readings of fields 2-11 (None when one of
 * them does not parse, fatal for an entry inside the day) and the optional
 * fields read with TryParse (None when absent or unparsable). Which log
 * file holds a date, whether it exists and what it holds are parameters.
 */
module DayBuilder {
  import opened Wrappers
  import opened MeteoLib
  import Utils
  import MeteoDay
  import opened DayFile

  /** Fields 2-11 of a log line, which must parse for an entry inside the day. */
  datatype Readings = Readings(
    temp: real, hum: int, dewPoint: real, speed: real, gust: real, avgBearing: int,
    rainRate: real, rainToday: real, pressure: real, rainCounter: real)

  /** The optional fields of a log line, by field number. */
  datatype Extras = Extras(
    currentGust: Option<real>,   // 14
    windChill: Option<real>,     // 15
    heatIndex: Option<real>,     // 16
    uv: Option<real>,            // 17
    solar: Option<int>,          // 18
    et: Option<real>,            // 19
    apparent: Option<real>,      // 21
    sunshine: Option<real>,      // 23
    bearing: Option<int>,        // 24
    feelsLike: Option<real>,     // 27
    humidex: Option<real>,       // 28
    humidexAsInt: Option<int>)   // 28, read with int.TryParse

  datatype LogLine =
    | Unreadable
    | Entry(time: int, readings: Option<Readings>, extras: Extras)

  /** One entry of the rain-in-the-last-hour list. */
  datatype LastHourData = LastHourData(timestamp: int, rainfall: real)

  /** The station settings the aggregator reads. */
  datatype DayConfig = DayConfig(
    tempUnit: int, windUnit: int, heatingThreshold: real, coolingThreshold: real, m: MathFns)

  /**
   * The day [start, end] and the window the solar statistics are taken
   * from.
   */
  datatype DayWindow = DayWindow(start: int, end: int, solarStart: int, solarEnd: int)

  /**
   * The window for the meteorological day starting at `date`. When the day
   * does not start at midnight the solar values are taken from the
   * calendar day instead, midnight to midnight.
   */
  function Window(ro: MeteoDay.Rollover, date: int): (w: DayWindow)
    ensures w.start == date && w.end == MeteoDay.IncrementMeteoDate(ro, date)
    ensures MeteoDay.Hour(date) != 0 ==>
      w.solarStart == MeteoDay.Midnight(date) && w.solarEnd == w.solarStart + MeteoDay.MinutesPerDay
    ensures MeteoDay.Hour(date) == 0 ==> w.solarStart == w.start && w.solarEnd == w.end
  {
    var end := MeteoDay.IncrementMeteoDate(ro, date);
    if MeteoDay.Hour(date) != 0 then
      var solarStart := MeteoDay.Midnight(date);
      DayWindow(date, end, solarStart, solarStart + MeteoDay.MinutesPerDay)
    else DayWindow(date, end, date, end)
  }

  /**
   * With a 09:00 (or 10:00) rollover the solar window is the calendar day
   * the meteorological day starts on, not the meteorological day itself.
   */
  lemma SolarWindowIsCalendarDay(ro: MeteoDay.Rollover, d: int)
    requires ro.rolloverHour != 0
    ensures var date := MeteoDay.SetStartTime(ro, d);
      var w := Window(ro, date);
      w.solarStart == MeteoDay.Midnight(d) && w.solarEnd == w.solarStart + MeteoDay.MinutesPerDay
      && w.solarStart < w.start
  {
    var date := MeteoDay.SetStartTime(ro, d);
    assert MeteoDay.Midnight(date) == MeteoDay.Midnight(d);
    assert date % MeteoDay.MinutesPerDay >= 9 * MeteoDay.MinutesPerHour;
  }

  /**
   * The record a day starts from: a fresh record with ET, sunshine, solar,
   * UV, hourly rain, degree days, total rain and wind run at 0.
   */
  function NewDayRec(date: int): (r: Dayfilerec)
    ensures r.date == date && r.chillHours == NoHigh
    ensures r.et == 0.0 && r.sunshineHours == 0.0 && r.highSolar.value == 0 && r.highUv.value == 0.0
    ensures r.highHourlyRain.value == 0.0 && r.heatingDegreeDays == 0.0 && r.coolingDegreeDays == 0.0
    ensures r.totalRain == 0.0 && r.windRun == 0.0
    ensures SameExtremes(r.(totalRain := NoHigh), Blank(date)) && r.avgTemp == NoHigh
  {
    var b := Blank(date);
    b.(et := 0.0, sunshineHours := 0.0,
       highSolar := b.highSolar.(value := 0), highUv := b.highUv.(value := 0.0),
       highHourlyRain := b.highHourlyRain.(value := 0.0),
       heatingDegreeDays := 0.0, coolingDegreeDays := 0.0, totalRain := 0.0, windRun := 0.0)
  }

  // ---- extremes ----

  /**
   * `r` is at least as extreme as `s`: every high is at least as high,
   * every low at least as low, for the same date and chill hours.
   */
  predicate Dominates(r: Dayfilerec, s: Dayfilerec) {
    && r.date == s.date && r.chillHours == s.chillHours
    && r.highGust.value >= s.highGust.value && r.highAvgWind.value >= s.highAvgWind.value
    && r.highTemp.value >= s.highTemp.value && r.lowTemp.value <= s.lowTemp.value
    && r.highPress.value >= s.highPress.value && r.lowPress.value <= s.lowPress.value
    && r.highRainRate.value >= s.highRainRate.value && r.highHourlyRain.value >= s.highHourlyRain.value
    && r.highHumidity.value >= s.highHumidity.value && r.lowHumidity.value <= s.lowHumidity.value
    && r.highDewPoint.value >= s.highDewPoint.value && r.lowDewPoint.value <= s.lowDewPoint.value
    && r.highHeatIndex.value >= s.highHeatIndex.value && r.lowWindChill.value <= s.lowWindChill.value
    && r.highAppTemp.value >= s.highAppTemp.value && r.lowAppTemp.value <= s.lowAppTemp.value
    && r.highFeelsLike.value >= s.highFeelsLike.value && r.lowFeelsLike.value <= s.lowFeelsLike.value
    && r.highHumidex.value >= s.highHumidex.value
    && r.highSolar.value >= s.highSolar.value && r.highUv.value >= s.highUv.value
    && r.sunshineHours >= s.sunshineHours && r.et >= s.et
  }

  /**
   * `r` and `s` agree on every extreme fed by fields 2-28 and on the total
   * rain (the solar values, the hourly rain and the sums may differ).
   */
  predicate SameExtremes(r: Dayfilerec, s: Dayfilerec) {
    && r.date == s.date && r.chillHours == s.chillHours
    && r.highGust == s.highGust && r.highGustBearing == s.highGustBearing && r.highAvgWind == s.highAvgWind
    && r.highTemp == s.highTemp && r.lowTemp == s.lowTemp && r.highPress == s.highPress && r.lowPress == s.lowPress
    && r.highRainRate == s.highRainRate && r.totalRain == s.totalRain
    && r.highHumidity == s.highHumidity && r.lowHumidity == s.lowHumidity
    && r.highDewPoint == s.highDewPoint && r.lowDewPoint == s.lowDewPoint
    && r.highHeatIndex == s.highHeatIndex && r.lowWindChill == s.lowWindChill
    && r.highAppTemp == s.highAppTemp && r.lowAppTemp == s.lowAppTemp
    && r.highFeelsLike == s.highFeelsLike && r.lowFeelsLike == s.lowFeelsLike && r.highHumidex == s.highHumidex
  }

  /** `r` and `s` agree on wind run and both degree-day sums. */
  predicate SameSums(r: Dayfilerec, s: Dayfilerec) {
    r.windRun == s.windRun && r.heatingDegreeDays == s.heatingDegreeDays && r.coolingDegreeDays == s.coolingDegreeDays
  }


  /** `r` and `s` agree on the solar values, ET, sunshine and the high hourly rain. */
  predicate SameSolar(r: Dayfilerec, s: Dayfilerec) {
    r.highSolar == s.highSolar && r.highUv == s.highUv && r.et == s.et && r.sunshineHours == s.sunshineHours
    && r.highHourlyRain == s.highHourlyRain
  }

  /** A high that is replaced, with its time, only by a strictly greater value. */
  function RaiseHigh(cur: Timed<real>, v: real, t: int): (r: Timed<real>)
    ensures r.value == Max(cur.value, v)
    ensures v > cur.value ==> r == Timed(v, t)
    ensures v <= cur.value ==> r == cur
  {
    if v > cur.value then Timed(v, t) else cur
  }

  /** A low that is replaced, with its time, only by a strictly smaller value. */
  function LowerLow(cur: Timed<real>, v: real, t: int): (r: Timed<real>)
    ensures r.value == Min(cur.value, v)
    ensures v < cur.value ==> r == Timed(v, t)
    ensures v >= cur.value ==> r == cur
  {
    if v < cur.value then Timed(v, t) else cur
  }

  function RaiseHighInt(cur: Timed<int>, v: int, t: int): (r: Timed<int>)
    ensures r.value >= cur.value && r.value >= v && (r.value == cur.value || r.value == v)
    ensures v > cur.value ==> r == Timed(v, t)
    ensures v <= cur.value ==> r == cur
  {
    if v > cur.value then Timed(v, t) else cur
  }

  function LowerLowInt(cur: Timed<int>, v: int, t: int): (r: Timed<int>)
    ensures r.value <= cur.value && r.value <= v && (r.value == cur.value || r.value == v)
    ensures v < cur.value ==> r == Timed(v, t)
    ensures v >= cur.value ==> r == cur
  {
    if v < cur.value then Timed(v, t) else cur
  }

  /**
   * ExtractSolarData: the highest sunshine hours, UV index, solar
   * radiation and ET logged, each replaced only by a strictly greater
   * value; nothing else changes.
   */
  function ExtractSolarData(rec: Dayfilerec, x: Extras, t: int): (r: Dayfilerec)
    ensures r.sunshineHours >= rec.sunshineHours && r.et >= rec.et
    ensures r.highUv.value >= rec.highUv.value && r.highSolar.value >= rec.highSolar.value
    ensures r.sunshineHours != rec.sunshineHours ==> x.sunshine == Some(r.sunshineHours)
    ensures r.et != rec.et ==> x.et == Some(r.et)
    ensures r.highUv != rec.highUv ==> x.uv == Some(r.highUv.value) && r.highUv.time == t
    ensures r.highSolar != rec.highSolar ==> x.solar == Some(r.highSolar.value) && r.highSolar.time == t
    ensures Dominates(r, rec) && SameExtremes(r, rec) && SameSums(r, rec)
    ensures r.sunshineHours == if x.sunshine.Some? then Max(rec.sunshineHours, x.sunshine.value) else rec.sunshineHours
    ensures r.et == if x.et.Some? then Max(rec.et, x.et.value) else rec.et
    ensures r.highUv == if x.uv.Some? then RaiseHigh(rec.highUv, x.uv.value, t) else rec.highUv
    ensures r.highSolar == if x.solar.Some? then RaiseHighInt(rec.highSolar, x.solar.value, t) else rec.highSolar
    ensures r == rec.(sunshineHours := r.sunshineHours, highUv := r.highUv, highSolar := r.highSolar, et := r.et)
  {
    var sunshine := if x.sunshine.Some? && x.sunshine.value > rec.sunshineHours then x.sunshine.value else rec.sunshineHours;
    var uv := if x.uv.Some? then RaiseHigh(rec.highUv, x.uv.value, t) else rec.highUv;
    var solar := if x.solar.Some? then RaiseHighInt(rec.highSolar, x.solar.value, t) else rec.highSolar;
    var et := if x.et.Some? && x.et.value > rec.et then x.et.value else rec.et;
    rec.(sunshineHours := sunshine, highUv := uv, highSolar := solar, et := et)
  }

  /** Feeding the same line's solar values twice changes nothing more. */
  lemma ExtractSolarDataIdempotent(rec: Dayfilerec, x: Extras, t: int)
    ensures ExtractSolarData(ExtractSolarData(rec, x, t), x, t) == ExtractSolarData(rec, x, t)
  {
  }

  /**
   * A derived low from a logged value when it is a new low, otherwise from
   * the computed value (used for wind chill): the computed value is also
   * tried when a logged value exists but is no new low.
   */
  function LoggedLowElseComputed(cur: Timed<real>, logged: Option<real>, computed: real, t: int): (r: Timed<real>)
    ensures r.value <= cur.value
    ensures logged.Some? && logged.value < cur.value ==> r == Timed(logged.value, t)
    ensures !(logged.Some? && logged.value < cur.value) ==> r == LowerLow(cur, computed, t)
  {
    if logged.Some? && logged.value < cur.value then Timed(logged.value, t) else LowerLow(cur, computed, t)
  }

  /** The same for a derived high (used for the heat index). */
  function LoggedHighElseComputed(cur: Timed<real>, logged: Option<real>, computed: real, t: int): (r: Timed<real>)
    ensures r.value >= cur.value
    ensures logged.Some? && logged.value > cur.value ==> r == Timed(logged.value, t)
    ensures !(logged.Some? && logged.value > cur.value) ==> r == RaiseHigh(cur, computed, t)
  {
    if logged.Some? && logged.value > cur.value then Timed(logged.value, t) else RaiseHigh(cur, computed, t)
  }

  /**
   * The high gust and its bearing after a sample: first the current gust
   * of field 14 with the bearing of field 24, then the recent gust of
   * field 6, whose bearing is read from field 28 (the humidex field) as an
   * integer; both fall back to the average bearing.
   */
  function GustAndBearing(cur: Timed<real>, bearing: int, rd: Readings, x: Extras, t: int): (r: (Timed<real>, int))
    ensures r.0.value >= cur.value && r.0.value >= rd.gust
    ensures var g1 := if x.currentGust.Some? then RaiseHigh(cur, x.currentGust.value, t) else cur;
      && r.0 == RaiseHigh(g1, rd.gust, t)
      && (rd.gust > g1.value ==> r.1 == x.humidexAsInt.GetOr(rd.avgBearing))
      && (rd.gust <= g1.value && g1 != cur ==> r.1 == x.bearing.GetOr(rd.avgBearing))
    ensures r.0 == cur ==> r.1 == bearing
  {
    var fromCurrent := x.currentGust.Some? && x.currentGust.value > cur.value;
    var g1 := if fromCurrent then Timed(x.currentGust.value, t) else cur;
    var b1 := if fromCurrent then x.bearing.GetOr(rd.avgBearing) else bearing;
    if rd.gust > g1.value then (Timed(rd.gust, t), x.humidexAsInt.GetOr(rd.avgBearing))
    else (g1, b1)
  }

  /** The values the derived extremes are taken from for one sample. */
  datatype Derived = Derived(chill: real, heat: real, apparent: real, feelsLike: real, humidex: real)

  /**
   * Derived values computed from the sample, used when the line does not
   * log them. They are in Celsius whatever the station's unit.
   */
  function Computed(rd: Readings, cfg: DayConfig): Derived {
    var m := cfg.m;
    var tempC := Utils.ConvertUserTempToC(cfg.tempUnit, rd.temp);
    var kph := Utils.ConvertUserWindToKPH(cfg.windUnit, rd.speed);
    Derived(
      WindChill(m, tempC, kph),
      HeatIndex(m, tempC, rd.hum),
      ApparentTemperature(m, tempC, Utils.ConvertUserWindToMS(cfg.windUnit, rd.speed), rd.hum),
      FeelsLike(m, tempC, kph, rd.hum),
      Humidex(m, tempC, rd.hum))
  }

  /**
   * Every extreme of a sample before the end of the day: the derived ones
   * from the logged value when the line has one, the others from fields
   * 2-11. The total rain is the last value seen.
   */
  function Extremes(rec: Dayfilerec, rd: Readings, x: Extras, t: int, c: Derived): (r: Dayfilerec)
    ensures Dominates(r, rec) && r.totalRain == rd.rainToday
    ensures r.highTemp == RaiseHigh(rec.highTemp, rd.temp, t) && r.lowTemp == LowerLow(rec.lowTemp, rd.temp, t)
    ensures r.highHumidity == RaiseHighInt(rec.highHumidity, rd.hum, t)
    ensures r.lowHumidity == LowerLowInt(rec.lowHumidity, rd.hum, t)
    ensures r.highAppTemp == RaiseHigh(rec.highAppTemp, x.apparent.GetOr(c.apparent), t)
    ensures r.highHumidex == RaiseHigh(rec.highHumidex, x.humidex.GetOr(c.humidex), t)
    ensures (r.highGust, r.highGustBearing) == GustAndBearing(rec.highGust, rec.highGustBearing, rd, x, t)
    ensures r.lowWindChill == LoggedLowElseComputed(rec.lowWindChill, x.windChill, c.chill, t)
    ensures r.highHeatIndex == LoggedHighElseComputed(rec.highHeatIndex, x.heatIndex, c.heat, t)
    ensures r.lowAppTemp == LowerLow(rec.lowAppTemp, x.apparent.GetOr(c.apparent), t)
    ensures r.highFeelsLike == RaiseHigh(rec.highFeelsLike, x.feelsLike.GetOr(c.feelsLike), t)
    ensures r.lowFeelsLike == LowerLow(rec.lowFeelsLike, x.feelsLike.GetOr(c.feelsLike), t)
    ensures r.highDewPoint == RaiseHigh(rec.highDewPoint, rd.dewPoint, t)
    ensures r.lowDewPoint == LowerLow(rec.lowDewPoint, rd.dewPoint, t)
    ensures r.highPress == RaiseHigh(rec.highPress, rd.pressure, t) && r.lowPress == LowerLow(rec.lowPress, rd.pressure, t)
    ensures r.highAvgWind == RaiseHigh(rec.highAvgWind, rd.speed, t)
    ensures r.highRainRate == RaiseHigh(rec.highRainRate, rd.rainRate, t)
    ensures r.date == rec.date && r.chillHours == rec.chillHours
    ensures r.avgTemp == rec.avgTemp && r.dominantWindBearing == rec.dominantWindBearing
    ensures SameSolar(r, rec) && SameSums(r, rec)
  {
    var gust := GustAndBearing(rec.highGust, rec.highGustBearing, rd, x, t);
    var app := x.apparent.GetOr(c.apparent);
    var feels := x.feelsLike.GetOr(c.feelsLike);
    rec.(highGust := gust.0, highGustBearing := gust.1,
         lowWindChill := LoggedLowElseComputed(rec.lowWindChill, x.windChill, c.chill, t),
         highHeatIndex := LoggedHighElseComputed(rec.highHeatIndex, x.heatIndex, c.heat, t),
         highAppTemp := RaiseHigh(rec.highAppTemp, app, t), lowAppTemp := LowerLow(rec.lowAppTemp, app, t),
         highFeelsLike := RaiseHigh(rec.highFeelsLike, feels, t), lowFeelsLike := LowerLow(rec.lowFeelsLike, feels, t),
         highHumidex := RaiseHigh(rec.highHumidex, x.humidex.GetOr(c.humidex), t),
         highTemp := RaiseHigh(rec.highTemp, rd.temp, t), lowTemp := LowerLow(rec.lowTemp, rd.temp, t),
         highDewPoint := RaiseHigh(rec.highDewPoint, rd.dewPoint, t),
         lowDewPoint := LowerLow(rec.lowDewPoint, rd.dewPoint, t),
         highHumidity := RaiseHighInt(rec.highHumidity, rd.hum, t),
         lowHumidity := LowerLowInt(rec.lowHumidity, rd.hum, t),
         highPress := RaiseHigh(rec.highPress, rd.pressure, t), lowPress := LowerLow(rec.lowPress, rd.pressure, t),
         highAvgWind := RaiseHigh(rec.highAvgWind, rd.speed, t),
         highRainRate := RaiseHigh(rec.highRainRate, rd.rainRate, t),
         totalRain := rd.rainToday)
  }

  // ---- running sums ----

  /** A running sum still at the missing value counts from 0. */
  function RestartFromZero(v: real): real { if v == NoHigh then 0.0 else v }

  /**
   * The heating degree days after an interval: when the temperature is
   * below the heating threshold, the difference times the minutes over
   * 1440 is added; a sum still at -9999 restarts from 0.
   */
  function HeatingAfter(h: real, temp: real, mins: real, cfg: DayConfig): (r: real)
    ensures r != h ==> temp < cfg.heatingThreshold
    ensures mins >= 0.0 && h >= 0.0 ==> r >= h
  {
    if temp < cfg.heatingThreshold then
      var add := (cfg.heatingThreshold - temp) * mins / 1440.0;
      assert mins >= 0.0 ==> add >= 0.0 by {
        if mins >= 0.0 { MulNonNeg(cfg.heatingThreshold - temp, mins); }
      }
      RestartFromZero(h) + add
    else h
  }

  /**
   * The cooling degree days after an interval: only when the temperature
   * is not below the heating threshold and is above the cooling one.
   */
  function CoolingAfter(c: real, temp: real, mins: real, cfg: DayConfig): (r: real)
    ensures r != c ==> cfg.heatingThreshold <= temp && temp > cfg.coolingThreshold
    ensures mins >= 0.0 && c >= 0.0 ==> r >= c
  {
    if cfg.heatingThreshold <= temp && temp > cfg.coolingThreshold then
      var add := (temp - cfg.coolingThreshold) * mins / 1440.0;
      assert mins >= 0.0 ==> add >= 0.0 by {
        if mins >= 0.0 { MulNonNeg(temp - cfg.coolingThreshold, mins); }
      }
      RestartFromZero(c) + add
    else c
  }

  /**
   * Degree days over an interval: heating when the temperature is below
   * the heating threshold, otherwise cooling when it is above the cooling
   * threshold, each by the difference times the minutes over 1440. A sum
   * still at -9999 restarts from 0.
   */
  function DegreeDays(rec: Dayfilerec, temp: real, mins: real, cfg: DayConfig): (r: Dayfilerec)
    ensures r.heatingDegreeDays != rec.heatingDegreeDays ==> temp < cfg.heatingThreshold
    ensures r.coolingDegreeDays != rec.coolingDegreeDays ==> cfg.heatingThreshold <= temp && temp > cfg.coolingThreshold
    ensures mins >= 0.0 && rec.heatingDegreeDays >= 0.0 ==> r.heatingDegreeDays >= rec.heatingDegreeDays
    ensures mins >= 0.0 && rec.coolingDegreeDays >= 0.0 ==> r.coolingDegreeDays >= rec.coolingDegreeDays
    ensures r == rec.(heatingDegreeDays := r.heatingDegreeDays, coolingDegreeDays := r.coolingDegreeDays)
    ensures temp < cfg.heatingThreshold ==>
      r.heatingDegreeDays == RestartFromZero(rec.heatingDegreeDays) + (cfg.heatingThreshold - temp) * mins / 1440.0
    ensures cfg.heatingThreshold <= temp && temp > cfg.coolingThreshold ==>
      r.coolingDegreeDays == RestartFromZero(rec.coolingDegreeDays) + (temp - cfg.coolingThreshold) * mins / 1440.0
  {
    rec.(heatingDegreeDays := HeatingAfter(rec.heatingDegreeDays, temp, mins, cfg),
         coolingDegreeDays := CoolingAfter(rec.coolingDegreeDays, temp, mins, cfg))
  }

  /**
   * Splitting an interval in two does not change the degree days it adds,
   * once the sums are under way (not negative) or still missing.
   */
  lemma DegreeDaysSplit(rec: Dayfilerec, temp: real, m1: real, m2: real, cfg: DayConfig)
    requires m1 >= 0.0 && m2 >= 0.0
    requires rec.heatingDegreeDays >= 0.0 || rec.heatingDegreeDays == NoHigh
    requires rec.coolingDegreeDays >= 0.0 || rec.coolingDegreeDays == NoHigh
    ensures DegreeDays(DegreeDays(rec, temp, m1, cfg), temp, m2, cfg) == DegreeDays(rec, temp, m1 + m2, cfg)
  {
    if temp < cfg.heatingThreshold {
      var d := cfg.heatingThreshold - temp;
      MulNonNeg(d, m1);
      assert d * m1 / 1440.0 + d * m2 / 1440.0 == d * (m1 + m2) / 1440.0;
    } else if temp > cfg.coolingThreshold {
      var d := temp - cfg.coolingThreshold;
      MulNonNeg(d, m1);
      assert d * m1 / 1440.0 + d * m2 / 1440.0 == d * (m1 + m2) / 1440.0;
    }
  }

  /** Minutes between two log times. */
  function IntervalMins(from: int, to: int): real {
    (to - from) as real
  }

  /** The wind vector component of a sample: speed times sin (x) or cos (y) of the bearing. */
  function WindX(m: MathFns, rd: Readings): real { rd.speed * m.sin(rd.avgBearing as real * (Pi / 180.0)) }
  function WindY(m: MathFns, rd: Readings): real { rd.speed * m.cos(rd.avgBearing as real * (Pi / 180.0)) }

  // ---- rain in the last hour ----

  /** Removes entries from the front while the oldest is older than `cutoff`. */
  function EvictOlderThan(list: seq<LastHourData>, cutoff: int): (r: seq<LastHourData>)
    ensures |r| <= |list| && r == list[|list| - |r|..]
    ensures |r| > 0 ==> r[0].timestamp >= cutoff
    ensures forall i :: 0 <= i < |list| - |r| ==> list[i].timestamp < cutoff
    decreases |list|
  {
    if |list| > 0 && list[0].timestamp < cutoff then EvictOlderThan(list[1..], cutoff) else list
  }

  /** Entries appended in time order stay in time order. */
  predicate Chronological(list: seq<LastHourData>) {
    forall i, j :: 0 <= i < j < |list| ==> list[i].timestamp <= list[j].timestamp
  }

  /**
   * In a list kept in time order, eviction removes exactly the entries
   * older than the cutoff: what is left is the entries at or after it.
   */
  lemma EvictKeepsLastHour(list: seq<LastHourData>, cutoff: int)
    requires Chronological(list)
    ensures var r := EvictOlderThan(list, cutoff);
      forall i :: 0 <= i < |list| ==> (i >= |list| - |r| <==> list[i].timestamp >= cutoff)
  {
    var r := EvictOlderThan(list, cutoff);
    var k := |list| - |r|;
    forall i | k <= i < |list|
      ensures list[i].timestamp >= cutoff
    {
      assert list[k] == r[0];
      assert list[k].timestamp <= list[i].timestamp;
    }
  }

  /**
   * Appending an entry no older than the others keeps the list in time
   * order, with no entry later than the one appended.
   */
  lemma AppendKeepsChronological(list: seq<LastHourData>, e: LastHourData)
    requires Chronological(list)
    requires forall i :: 0 <= i < |list| ==> list[i].timestamp <= e.timestamp
    ensures Chronological(list + [e])
    ensures forall i :: 0 <= i < |list + [e]| ==> (list + [e])[i].timestamp <= e.timestamp
  {
    forall i | 0 <= i < |list + [e]|
      ensures (list + [e])[i].timestamp <= e.timestamp
    {
      if i < |list| {
        assert (list + [e])[i] == list[i];
      }
    }
  }

  /** Eviction keeps a list in time order. */
  lemma {:induction false} EvictKeepsChronological(list: seq<LastHourData>, cutoff: int)
    requires Chronological(list)
    ensures Chronological(EvictOlderThan(list, cutoff))
    decreases |list|
  {
    if |list| > 0 && list[0].timestamp < cutoff {
      var tail := list[1..];
      forall i, j | 0 <= i < j < |tail|
        ensures tail[i].timestamp <= tail[j].timestamp
      {
        assert tail[i] == list[i + 1] && tail[j] == list[j + 1];
      }
      EvictKeepsChronological(tail, cutoff);
    }
  }

  /** Eviction only removes entries: none left is later than `t` if none was. */
  lemma {:induction false} EvictKeepsBound(list: seq<LastHourData>, cutoff: int, t: int)
    requires forall i :: 0 <= i < |list| ==> list[i].timestamp <= t
    ensures var r := EvictOlderThan(list, cutoff);
      forall i :: 0 <= i < |r| ==> r[i].timestamp <= t
    decreases |list|
  {
    if |list| > 0 && list[0].timestamp < cutoff {
      var tail := list[1..];
      assert forall i :: 0 <= i < |tail| ==> tail[i] == list[i + 1];
      EvictKeepsBound(tail, cutoff, t);
    }
  }

  /**
   * The hourly rain check after an in-day sample: drop the entries older
   * than an hour, then raise the high hourly rain to the last rain total
   * minus the first.
   */
  function HourRain(high: Timed<real>, list: seq<LastHourData>, t: int): (r: (Timed<real>, seq<LastHourData>))
    ensures r.0.value >= high.value
    ensures |list| == 0 ==> r == (high, list)
    ensures |list| > 0 ==> r.1 == EvictOlderThan(list, t - MeteoDay.MinutesPerHour)
    ensures |r.1| > 0 ==> r.0 == RaiseHigh(high, r.1[|r.1| - 1].rainfall - r.1[0].rainfall, t)
    ensures |r.1| == 0 ==> r.0 == high
    ensures r.0 != high ==> |r.1| > 0 && r.0 == Timed(r.1[|r.1| - 1].rainfall - r.1[0].rainfall, t)
  {
    if |list| == 0 then (high, list)
    else
      var kept := EvictOlderThan(list, t - MeteoDay.MinutesPerHour);
      if |kept| > 0 then (RaiseHigh(high, kept[|kept| - 1].rainfall - kept[0].rainfall, t), kept)
      else (high, kept)
  }

  // ---- one sample ----

  /** The aggregator's running state for the day being built. */
  datatype DayAcc = DayAcc(
    rec: Dayfilerec,
    started: bool, finished: bool, recCount: nat,
    lastTemp: real, lastEntry: int,
    totalX: real, totalY: real, totalMins: real, totalTemp: real,
    lastHour: seq<LastHourData>,
    solarCurrRec: nat)

  function InitialAcc(date: int): DayAcc {
    DayAcc(NewDayRec(date), false, false, 0, 0.0, NoTime, 0.0, 0.0, 0.0, 0.0, [], 0)
  }

  /**
   * `a` holds the sums of `acc` fed with the sample `rd` at `t`, over the
   * interval since `from`, whose temperature was `prevTemp`: the wind run
   * grows by the distance run at the sample's speed, the degree days as
   * HeatingAfter and CoolingAfter say, the minutes by the interval, the temperature total by
   * the interval times the mean of the two temperatures, and the wind
   * vector by the sample's components.
   */
  predicate SumsFed(a: DayAcc, acc: DayAcc, from: int, prevTemp: real, rd: Readings, t: int, cfg: DayConfig) {
    var mins := IntervalMins(from, t);
    && a.rec.windRun == acc.rec.windRun + mins / 60.0 * rd.speed
    && a.rec.heatingDegreeDays == HeatingAfter(acc.rec.heatingDegreeDays, rd.temp, mins, cfg)
    && a.rec.coolingDegreeDays == CoolingAfter(acc.rec.coolingDegreeDays, rd.temp, mins, cfg)
    && a.totalMins == acc.totalMins + mins
    && a.totalTemp == acc.totalTemp + mins * (rd.temp + prevTemp) / 2.0
    && a.totalX == acc.totalX + WindX(cfg.m, rd) && a.totalY == acc.totalY + WindY(cfg.m, rd)
  }

  /**
   * The sums every in-day sample feeds, the closing one included: wind
   * run, the time-weighted temperature, the wind vector and degree days.
   */
  function Sums(acc: DayAcc, rd: Readings, t: int, cfg: DayConfig): (a: DayAcc)
    ensures Dominates(a.rec, acc.rec) && SameExtremes(a.rec, acc.rec) && SameSolar(a.rec, acc.rec)
    ensures a.rec.avgTemp == acc.rec.avgTemp && a.rec.dominantWindBearing == acc.rec.dominantWindBearing
    ensures SumsFed(a, acc, acc.lastEntry, acc.lastTemp, rd, t, cfg)
    ensures a.recCount == acc.recCount && a.started == acc.started && a.finished == acc.finished
    ensures a.lastHour == acc.lastHour && a.lastTemp == acc.lastTemp && a.lastEntry == acc.lastEntry
    ensures a.solarCurrRec == acc.solarCurrRec
  {
    var mins := IntervalMins(acc.lastEntry, t);
    var rec := acc.rec.(windRun := acc.rec.windRun + mins / 60.0 * rd.speed);
    acc.(rec := DegreeDays(rec, rd.temp, mins, cfg),
         totalMins := acc.totalMins + mins,
         totalTemp := acc.totalTemp + mins * (rd.temp + acc.lastTemp) / 2.0,
         totalX := acc.totalX + WindX(cfg.m, rd),
         totalY := acc.totalY + WindY(cfg.m, rd))
  }

  /** Counting a sample inside [start, end]; the first one also starts the day. */
  function Count(acc: DayAcc, rd: Readings, t: int): (a: DayAcc)
    ensures a.rec == acc.rec && a.lastHour == acc.lastHour
    ensures a.started && a.recCount == acc.recCount + 1 && a.finished == acc.finished
    ensures !acc.started ==> a.lastTemp == rd.temp && a.lastEntry == t
    ensures acc.started ==> a.lastTemp == acc.lastTemp && a.lastEntry == acc.lastEntry
    ensures a.(recCount := acc.recCount, started := acc.started, lastTemp := acc.lastTemp, lastEntry := acc.lastEntry) == acc
  {
    var a0 := acc.(recCount := acc.recCount + 1);
    if !a0.started then a0.(lastTemp := rd.temp, lastEntry := t, started := true) else a0
  }

  /**
   * A sample before the end of the day: every extreme and the total rain,
   * the hourly rain list (not for the first minute of the day and only
   * while it has rained), then the sums.
   */
  function BeforeEnd(acc: DayAcc, rd: Readings, x: Extras, t: int, win: DayWindow, cfg: DayConfig): (a: DayAcc)
    ensures Dominates(a.rec, acc.rec) && a.rec.totalRain == rd.rainToday
    ensures a.started == acc.started && a.recCount == acc.recCount && a.finished == acc.finished
    ensures a.lastTemp == rd.temp && a.lastEntry == acc.lastEntry && a.solarCurrRec == acc.solarCurrRec
    ensures SameExtremes(a.rec, Extremes(acc.rec, rd, x, t, Computed(rd, cfg))) && SameSolar(a.rec, acc.rec)
    ensures SumsFed(a, acc, acc.lastEntry, acc.lastTemp, rd, t, cfg)
    ensures a.rec.avgTemp == acc.rec.avgTemp && a.rec.dominantWindBearing == acc.rec.dominantWindBearing
    ensures a.lastHour == if t != win.start && rd.rainToday > 0.0 then acc.lastHour + [LastHourData(t, rd.rainToday)] else acc.lastHour
  {
    var list := if t != win.start && rd.rainToday > 0.0 then acc.lastHour + [LastHourData(t, rd.rainToday)] else acc.lastHour;
    Sums(acc.(rec := Extremes(acc.rec, rd, x, t, Computed(rd, cfg)), lastHour := list), rd, t, cfg).(lastTemp := rd.temp)
  }

  /** The sample at the end of the day: only the sums, and the day is finished. */
  function AtEnd(acc: DayAcc, rd: Readings, t: int, cfg: DayConfig): (a: DayAcc)
    ensures Dominates(a.rec, acc.rec) && SameExtremes(a.rec, acc.rec)
    ensures a.rec.highSolar == acc.rec.highSolar && a.rec.highUv == acc.rec.highUv
    ensures a.started == acc.started && a.recCount == acc.recCount && a.finished
    ensures a.lastHour == acc.lastHour && a.lastTemp == acc.lastTemp && a.lastEntry == acc.lastEntry
    ensures SameSolar(a.rec, acc.rec) && a.solarCurrRec == acc.solarCurrRec
    ensures SumsFed(a, acc, acc.lastEntry, acc.lastTemp, rd, t, cfg)
    ensures a.rec.avgTemp == acc.rec.avgTemp && a.rec.dominantWindBearing == acc.rec.dominantWindBearing
  {
    Sums(acc, rd, t, cfg).(finished := true)
  }

  /** The hourly rain check every in-day sample ends with. */
  function CheckHourRain(acc: DayAcc, t: int): (a: DayAcc)
    ensures Dominates(a.rec, acc.rec) && SameExtremes(a.rec, acc.rec)
    ensures a.rec.highSolar == acc.rec.highSolar && a.rec.highUv == acc.rec.highUv
    ensures a.started == acc.started && a.recCount == acc.recCount && a.finished == acc.finished
    ensures |a.lastHour| <= |acc.lastHour|
    ensures a.rec.highHourlyRain == HourRain(acc.rec.highHourlyRain, acc.lastHour, t).0
    ensures a.lastHour == HourRain(acc.rec.highHourlyRain, acc.lastHour, t).1
    ensures a.rec.(highHourlyRain := acc.rec.highHourlyRain) == acc.rec
    ensures a.(rec := acc.rec, lastHour := acc.lastHour) == acc
  {
    var hr := HourRain(acc.rec.highHourlyRain, acc.lastHour, t);
    acc.(rec := acc.rec.(highHourlyRain := hr.0), lastHour := hr.1)
  }

  /**
   * One sample inside [start, end]. Before the end it updates every
   * extreme, the total rain and the hourly rain list, then the sums; the
   * sample at the end feeds only the sums and closes the day. Both then
   * check the hourly rain, and the sample becomes the last entry.
   */
  function Absorb(acc: DayAcc, rd: Readings, x: Extras, t: int, win: DayWindow, cfg: DayConfig): (a: DayAcc)
    ensures Dominates(a.rec, acc.rec) && a.lastEntry == t
    ensures a.started && a.recCount == acc.recCount + 1 && (acc.finished ==> a.finished)
    ensures t == win.end ==>
      && a.finished && SameExtremes(a.rec, acc.rec) && |a.lastHour| <= |acc.lastHour|
      && a.rec.highSolar == acc.rec.highSolar && a.rec.highUv == acc.rec.highUv
    ensures a.rec.highSolar == acc.rec.highSolar && a.rec.highUv == acc.rec.highUv
    ensures a.rec.et == acc.rec.et && a.rec.sunshineHours == acc.rec.sunshineHours
    ensures a.rec.avgTemp == acc.rec.avgTemp && a.rec.dominantWindBearing == acc.rec.dominantWindBearing
  {
    var a1 := Count(acc, rd, t);
    var a2 := if t != win.end then BeforeEnd(a1, rd, x, t, win, cfg) else AtEnd(a1, rd, t, cfg);
    CheckHourRain(a2, t).(lastEntry := t)
  }

  /** A sample before the end of the day moves every extreme as Extremes says. */
  lemma AbsorbTakesExtremes(acc: DayAcc, rd: Readings, x: Extras, t: int, win: DayWindow, cfg: DayConfig)
    requires t != win.end
    ensures var a := Absorb(acc, rd, x, t, win, cfg);
      SameExtremes(a.rec, Extremes(acc.rec, rd, x, t, Computed(rd, cfg))) && a.lastTemp == rd.temp
  {
    var a1 := Count(acc, rd, t);
    var a2 := BeforeEnd(a1, rd, x, t, win, cfg);
    assert Absorb(acc, rd, x, t, win, cfg) == CheckHourRain(a2, t).(lastEntry := t);
  }

  /** A sample before the end of the day raises the high temperature to at least its own. */
  lemma AbsorbRaisesHighTemp(acc: DayAcc, rd: Readings, x: Extras, t: int, win: DayWindow, cfg: DayConfig)
    requires t != win.end
    ensures Absorb(acc, rd, x, t, win, cfg).rec.highTemp.value >= rd.temp
  {
    AbsorbTakesExtremes(acc, rd, x, t, win, cfg);
  }

  /**
   * Every sample of the day feeds the sums over the interval since the
   * previous sample; the first sample of the day over an empty interval.
   */
  lemma AbsorbFeedsSums(acc: DayAcc, rd: Readings, x: Extras, t: int, win: DayWindow, cfg: DayConfig)
    ensures var a := Absorb(acc, rd, x, t, win, cfg);
      SumsFed(a, acc, if acc.started then acc.lastEntry else t, if acc.started then acc.lastTemp else rd.temp, rd, t, cfg)
  {
    var a1 := Count(acc, rd, t);
    var from := if acc.started then acc.lastEntry else t;
    var prev := if acc.started then acc.lastTemp else rd.temp;
    assert a1.lastEntry == from && a1.lastTemp == prev;
    if t != win.end {
      var a2 := BeforeEnd(a1, rd, x, t, win, cfg);
      SumsFedCarries(CheckHourRain(a2, t).(lastEntry := t), a2, a1, acc, from, prev, rd, t, cfg);
    } else {
      var a2 := AtEnd(a1, rd, t, cfg);
      SumsFedCarries(CheckHourRain(a2, t).(lastEntry := t), a2, a1, acc, from, prev, rd, t, cfg);
    }
  }

  /** SumsFed survives steps that leave the sums alone, before and after. */
  lemma SumsFedCarries(a: DayAcc, a2: DayAcc, a1: DayAcc, acc: DayAcc, from: int, prev: real, rd: Readings, t: int, cfg: DayConfig)
    requires SumsFed(a2, a1, from, prev, rd, t, cfg)
    requires SameSums(a1.rec, acc.rec) && SameSums(a.rec, a2.rec)
    requires a1.totalMins == acc.totalMins && a1.totalTemp == acc.totalTemp && a1.totalX == acc.totalX && a1.totalY == acc.totalY
    requires a.totalMins == a2.totalMins && a.totalTemp == a2.totalTemp && a.totalX == a2.totalX && a.totalY == a2.totalY
    ensures SumsFed(a, acc, from, prev, rd, t, cfg)
  {
  }

  /**
   * Every sample of the day ends with the hourly rain check, on the list
   * with the sample's rain total appended when it is neither the first
   * nor the last minute of the day and it has rained.
   */
  lemma AbsorbChecksHourRain(acc: DayAcc, rd: Readings, x: Extras, t: int, win: DayWindow, cfg: DayConfig)
    ensures var a := Absorb(acc, rd, x, t, win, cfg);
      var list :=
        if t != win.end && t != win.start && rd.rainToday > 0.0 then acc.lastHour + [LastHourData(t, rd.rainToday)]
        else acc.lastHour;
      a.rec.highHourlyRain == HourRain(acc.rec.highHourlyRain, list, t).0 && a.lastHour == HourRain(acc.rec.highHourlyRain, list, t).1
  {
    var a1 := Count(acc, rd, t);
    var a2 := if t != win.end then BeforeEnd(a1, rd, x, t, win, cfg) else AtEnd(a1, rd, t, cfg);
    assert a2.rec.highHourlyRain == acc.rec.highHourlyRain;
    assert Absorb(acc, rd, x, t, win, cfg) == CheckHourRain(a2, t).(lastEntry := t);
  }

  /**
   * When the samples reach Absorb in time order, the rain-in-the-last-hour
   * list stays in time order, and no entry is later than the last sample.
   */
  lemma AbsorbKeepsLastHourChronological(acc: DayAcc, rd: Readings, x: Extras, t: int, win: DayWindow, cfg: DayConfig)
    requires Chronological(acc.lastHour)
    requires forall i :: 0 <= i < |acc.lastHour| ==> acc.lastHour[i].timestamp <= t
    ensures var a := Absorb(acc, rd, x, t, win, cfg);
      Chronological(a.lastHour) && forall i :: 0 <= i < |a.lastHour| ==> a.lastHour[i].timestamp <= t
  {
    var a1 := Count(acc, rd, t);
    var a2 := if t != win.end then BeforeEnd(a1, rd, x, t, win, cfg) else AtEnd(a1, rd, t, cfg);
    var appended := t != win.end && t != win.start && rd.rainToday > 0.0;
    CheckedListChronological(CheckHourRain(a2, t).lastHour, a2.rec.highHourlyRain, acc.lastHour, a2.lastHour, appended, rd.rainToday, t);
  }

  /** The list the hourly rain check leaves, from a list that was in time order before the sample. */
  lemma CheckedListChronological(
    list1: seq<LastHourData>, high: Timed<real>, before: seq<LastHourData>,
    list: seq<LastHourData>, appended: bool, rain: real, t: int)
    requires Chronological(before)
    requires forall i :: 0 <= i < |before| ==> before[i].timestamp <= t
    requires list == if appended then before + [LastHourData(t, rain)] else before
    requires list1 == HourRain(high, list, t).1
    ensures Chronological(list1) && forall i :: 0 <= i < |list1| ==> list1[i].timestamp <= t
  {
    if appended {
      AppendKeepsChronological(before, LastHourData(t, rain));
    }
    HourRainKeepsChronological(high, list, t);
  }

  lemma HourRainKeepsChronological(high: Timed<real>, list: seq<LastHourData>, t: int)
    requires Chronological(list)
    requires forall i :: 0 <= i < |list| ==> list[i].timestamp <= t
    ensures var r := HourRain(high, list, t).1;
      Chronological(r) && forall i :: 0 <= i < |r| ==> r[i].timestamp <= t
  {
    if |list| > 0 {
      var cutoff := t - MeteoDay.MinutesPerHour;
      EvictKeepsChronological(list, cutoff);
      EvictKeepsBound(list, cutoff, t);
    }
  }

  /** The day's record once the day is over: the mean temperature and the dominant bearing. */
  function Finalise(acc: DayAcc, cfg: DayConfig): (r: Dayfilerec)
    ensures SameExtremes(r, acc.rec) && SameSums(r, acc.rec) && SameSolar(r, acc.rec) && Dominates(r, acc.rec)
    ensures acc.totalMins > 0.0 ==> r.avgTemp * acc.totalMins == acc.totalTemp
    ensures acc.totalMins <= 0.0 ==> r.avgTemp == acc.rec.highTemp.value
    ensures -180.0 <= Utils.DegreesPerRadian * cfg.m.atan2(acc.totalY, acc.totalX) <= 180.0 ==> 0 <= r.dominantWindBearing < 360
  {
    acc.rec.(avgTemp := if acc.totalMins > 0.0 then acc.totalTemp / acc.totalMins else acc.rec.highTemp.value,
             dominantWindBearing := Utils.CalcAvgBearing(cfg.m, acc.totalX, acc.totalY))
  }

  // ---- one log file ----

  /**
   * How a pass over a log file from a given line ends: the day's result
   * with the line the cursor is left at and the number of in-day samples
   * seen, the end of the file with the running state, or a fatal line.
   */
  datatype ScanEnd =
    | Returned(result: Option<Dayfilerec>, lineNum: nat, samples: nat)
    | Exhausted(acc: DayAcc, lineNum: nat)
    | Failed(line: nat)

  /**
   * Where the cursor goes when the day is over: back to the last solar
   * line when the solar window differs from the day, otherwise back one
   * line so that the next day starts with the line that ended this one.
   */
  function CursorBack(n: nat, acc: DayAcc, win: DayWindow): nat {
    if win.solarStart != win.start then acc.solarCurrRec
    else if n > 0 then n - 1 else n
  }

  /**
   * A line inside the solar window feeds the solar values, and the cursor
   * remembers it as the last solar line.
   */
  function SolarStep(acc: DayAcc, x: Extras, t: int, n: nat, win: DayWindow): (a: DayAcc)
    ensures Dominates(a.rec, acc.rec)
    ensures a.started == acc.started && a.recCount == acc.recCount && a.finished == acc.finished
    ensures win.solarStart <= t <= win.solarEnd ==>
      a.solarCurrRec == n && a.rec == ExtractSolarData(acc.rec, x, t)
      && a.(rec := acc.rec, solarCurrRec := acc.solarCurrRec) == acc
    ensures !(win.solarStart <= t <= win.solarEnd) ==> a == acc
  {
    if win.solarStart <= t <= win.solarEnd then acc.(rec := ExtractSolarData(acc.rec, x, t), solarCurrRec := n)
    else acc
  }

  /** What one log line does to a pass: go on with a new state, or end it. */
  datatype Step = Next(acc: DayAcc) | Stop(end: ScanEnd)

  /**
   * One line of the pass at line `n`. An unreadable line is fatal. A line
   * in the solar window feeds the solar values first. A line inside the
   * day is a sample (fatal when fields 2-11 do not parse). The first line
   * after the day ends the pass: with the finalised record after at least
   * five samples, with no record after fewer, and with the cursor at the
   * start of the file when the day had no sample at all. A line before
   * the day is skipped.
   */
  function LineStep(line: LogLine, n: nat, acc: DayAcc, win: DayWindow, cfg: DayConfig): (s: Step)
    ensures line.Unreadable? ==> s == Stop(Failed(n))
    ensures s.Next? ==> Dominates(s.acc.rec, acc.rec) && (acc.started ==> s.acc.started)
    ensures s.Next? ==> s.acc.started || s.acc.recCount == acc.recCount
    ensures s.Stop? ==> !s.end.Exhausted?
    ensures s.Stop? && s.end.Returned? && (acc.started || acc.recCount == 0) ==>
      (s.end.result.Some? <==> s.end.samples >= 5)
    ensures s.Stop? && s.end.Returned? && s.end.result.Some? ==> Dominates(s.end.result.value, acc.rec)
  {
    match line
    case Unreadable => Stop(Failed(n))
    case Entry(t, readings, x) =>
      var acc1 := SolarStep(acc, x, t, n, win);
      if win.start <= t <= win.end then
        match readings
        case None => Stop(Failed(n))
        case Some(rd) => Next(Absorb(acc1, rd, x, t, win, cfg))
      else if acc1.started && acc1.recCount >= 5 then
        Stop(Returned(Some(Finalise(acc1, cfg)), CursorBack(n, acc1, win), acc1.recCount))
      else if acc1.started then
        Stop(Returned(None, CursorBack(n, acc1, win), acc1.recCount))
      else if t > win.end then Stop(Returned(None, 0, acc1.recCount))
      else Next(acc1.(lastEntry := t))
  }

  /** The pass over `lines` from line `n` on. */
  function Scan(lines: seq<LogLine>, n: nat, acc: DayAcc, win: DayWindow, cfg: DayConfig): (e: ScanEnd)
    ensures e.Exhausted? ==> e.lineNum >= |lines|
    decreases |lines| - n
  {
    if n >= |lines| then Exhausted(acc, n)
    else match LineStep(lines[n], n, acc, win, cfg)
      case Next(a) => Scan(lines, n + 1, a, win, cfg)
      case Stop(e) => e
  }

  /**
   * A pass over a file yields a record exactly when at least five in-day
   * samples were seen before the first sample past the day.
   */
  lemma {:induction false} ScanNeedsFiveSamples(lines: seq<LogLine>, n: nat, acc: DayAcc, win: DayWindow, cfg: DayConfig)
    requires acc.started || acc.recCount == 0
    ensures var e := Scan(lines, n, acc, win, cfg);
      e.Returned? ==> (e.result.Some? <==> e.samples >= 5)
    decreases |lines| - n
  {
    if n < |lines| {
      var s := LineStep(lines[n], n, acc, win, cfg);
      if s.Next? {
        ScanNeedsFiveSamples(lines, n + 1, s.acc, win, cfg);
      }
    }
  }

  /**
   * Over a pass, highs only rise and lows only fall: whatever the pass
   * ends with dominates the record it started from.
   */
  lemma {:induction false} ScanDominates(lines: seq<LogLine>, n: nat, acc: DayAcc, win: DayWindow, cfg: DayConfig)
    ensures var e := Scan(lines, n, acc, win, cfg);
      && (e.Exhausted? ==> Dominates(e.acc.rec, acc.rec) && (acc.started ==> e.acc.started))
      && (e.Returned? && e.result.Some? ==> Dominates(e.result.value, acc.rec))
    decreases |lines| - n
  {
    if n < |lines| {
      var s := LineStep(lines[n], n, acc, win, cfg);
      if s.Next? {
        ScanDominates(lines, n + 1, s.acc, win, cfg);
      }
    }
  }

  /** A line is a sample of the day before its closing minute, with fields 2-11 read. */
  predicate IsDaySample(line: LogLine, win: DayWindow) {
    line.Entry? && line.readings.Some? && win.start <= line.time < win.end
  }

  /**
   * Lines n..i are readable entries in time order, none later than the end
   * of the day: the pass reads each of them as a sample or skips it.
   */
  predicate TimeOrderedUpTo(lines: seq<LogLine>, n: nat, i: nat, win: DayWindow) {
    && (forall k :: n <= k <= i && k < |lines| ==>
          lines[k].Entry? && lines[k].readings.Some? && lines[k].time <= win.end)
    && (forall j, k :: n <= j <= k <= i && k < |lines| ==>
          lines[j].Entry? && lines[k].Entry? && lines[j].time <= lines[k].time)
  }

  /**
   * A readable entry no later than the end of the day, met in time order,
   * never ends the pass.
   */
  lemma LineStepInOrder(line: LogLine, n: nat, acc: DayAcc, win: DayWindow, cfg: DayConfig)
    requires line.Entry? && line.readings.Some? && line.time <= win.end
    requires acc.started ==> win.start <= line.time
    ensures LineStep(line, n, acc, win, cfg).Next?
    ensures LineStep(line, n, acc, win, cfg).acc.started ==> win.start <= line.time
  {
  }

  /** A sample of the day raises the high temperature to at least its own. */
  lemma LineStepTakesSample(line: LogLine, n: nat, acc: DayAcc, win: DayWindow, cfg: DayConfig)
    requires IsDaySample(line, win)
    ensures LineStep(line, n, acc, win, cfg).Next?
    ensures LineStep(line, n, acc, win, cfg).acc.rec.highTemp.value >= line.readings.value.temp
  {
    AbsorbRaisesHighTemp(SolarStep(acc, line.extras, line.time, n, win), line.readings.value, line.extras, line.time, win, cfg);
  }

  /**
   * Over a time-ordered stretch of log up to a sample of the day, the high
   * temperature the pass ends with (in the running state or the built
   * record) is at least that sample's temperature.
   */
  lemma {:induction false} ScanHighTempCoversSample(lines: seq<LogLine>, n: nat, acc: DayAcc, win: DayWindow, cfg: DayConfig, i: nat)
    requires n <= i < |lines| && TimeOrderedUpTo(lines, n, i, win)
    requires IsDaySample(lines[i], win)
    requires acc.started ==> win.start <= lines[n].time
    ensures var e := Scan(lines, n, acc, win, cfg);
      var v := lines[i].readings.value.temp;
      && (e.Exhausted? ==> e.acc.rec.highTemp.value >= v)
      && (e.Returned? && e.result.Some? ==> e.result.value.highTemp.value >= v)
    decreases i - n
  {
    var s := LineStep(lines[n], n, acc, win, cfg);
    var t := lines[n].time;
    LineStepInOrder(lines[n], n, acc, win, cfg);
    if n == i {
      LineStepTakesSample(lines[n], n, acc, win, cfg);
      ScanDominates(lines, n + 1, s.acc, win, cfg);
    } else {
      assert lines[n + 1].time >= t;
      ScanHighTempCoversSample(lines, n + 1, s.acc, win, cfg, i);
    }
  }

  /**
   * The high temperature `h` is the starting one, or the temperature of a
   * sample of the day from line n on, with that sample's time.
   */
  predicate StartOrSample(lines: seq<LogLine>, n: nat, h: Timed<real>, h0: Timed<real>, win: DayWindow) {
    h == h0 ||
    exists k :: n <= k < |lines| && IsDaySample(lines[k], win) && h == Timed(lines[k].readings.value.temp, lines[k].time)
  }

  /**
   * Whatever high temperature a pass ends with was not made up: it is the
   * one the pass started from or one sample's temperature, at its time.
   */
  /** One line leaves the high temperature as it was or sets it to its own sample's. */
  lemma LineStepHighTemp(line: LogLine, n: nat, acc: DayAcc, win: DayWindow, cfg: DayConfig)
    ensures var s := LineStep(line, n, acc, win, cfg);
      && (s.Next? ==>
            || s.acc.rec.highTemp == acc.rec.highTemp
            || (IsDaySample(line, win) && s.acc.rec.highTemp == Timed(line.readings.value.temp, line.time)))
      && (s.Stop? && s.end.Returned? && s.end.result.Some? ==> s.end.result.value.highTemp == acc.rec.highTemp)
  {
    match line
    case Unreadable =>
    case Entry(t, readings, x) =>
      var acc1 := SolarStep(acc, x, t, n, win);
      assert acc1.rec.highTemp == acc.rec.highTemp;
      if win.start <= t <= win.end && readings.Some? && t != win.end {
        AbsorbTakesExtremes(acc1, readings.value, x, t, win, cfg);
      }
  }

  lemma {:induction false} ScanHighTempIsASample(lines: seq<LogLine>, n: nat, acc: DayAcc, win: DayWindow, cfg: DayConfig)
    ensures var e := Scan(lines, n, acc, win, cfg);
      && (e.Exhausted? ==> StartOrSample(lines, n, e.acc.rec.highTemp, acc.rec.highTemp, win))
      && (e.Returned? && e.result.Some? ==> StartOrSample(lines, n, e.result.value.highTemp, acc.rec.highTemp, win))
    decreases |lines| - n
  {
    if n < |lines| {
      var s := LineStep(lines[n], n, acc, win, cfg);
      if s.Stop? {
        LineStepHighTemp(lines[n], n, acc, win, cfg);
      } else {
        ScanHighTempIsASample(lines, n + 1, s.acc, win, cfg);
        LineStepHighTemp(lines[n], n, acc, win, cfg);
        var h1 := s.acc.rec.highTemp;
        var e := Scan(lines, n, acc, win, cfg);
        assert e == Scan(lines, n + 1, s.acc, win, cfg);
        if e.Exhausted? && e.acc.rec.highTemp != h1 {
          var k :| n + 1 <= k < |lines| && IsDaySample(lines[k], win) && e.acc.rec.highTemp == Timed(lines[k].readings.value.temp, lines[k].time);
        }
        if e.Returned? && e.result.Some? && e.result.value.highTemp != h1 {
          var k :| n + 1 <= k < |lines| && IsDaySample(lines[k], win) && e.result.value.highTemp == Timed(lines[k].readings.value.temp, lines[k].time);
        }
      }
    }
  }

  /** No line from n on is inside the day (entries only; other lines may be anything). */
  predicate NoDayLine(lines: seq<LogLine>, n: nat, win: DayWindow) {
    forall k :: n <= k < |lines| && lines[k].Entry? ==> !(win.start <= lines[k].time <= win.end)
  }

  /**
   * A pass that has not started the day and meets no line inside it builds
   * nothing: it ends without a record, or with the day still not started.
   */
  lemma {:induction false} ScanWithoutSamples(lines: seq<LogLine>, n: nat, acc: DayAcc, win: DayWindow, cfg: DayConfig)
    requires !acc.started && NoDayLine(lines, n, win)
    ensures var e := Scan(lines, n, acc, win, cfg);
      && (e.Returned? ==> e.result.None?)
      && (e.Exhausted? ==> !e.acc.started && e.acc.finished == acc.finished)
    decreases |lines| - n
  {
    if n < |lines| {
      var s := LineStep(lines[n], n, acc, win, cfg);
      if s.Next? {
        ScanWithoutSamples(lines, n + 1, s.acc, win, cfg);
      }
    }
  }

  /**
   * A pass that runs out of lines has not finalised anything: the mean
   * temperature and the dominant bearing are those it started with.
   */
  lemma {:induction false} ScanLeavesMeanUnset(lines: seq<LogLine>, n: nat, acc: DayAcc, win: DayWindow, cfg: DayConfig)
    ensures var e := Scan(lines, n, acc, win, cfg);
      e.Exhausted? ==>
        e.acc.rec.avgTemp == acc.rec.avgTemp && e.acc.rec.dominantWindBearing == acc.rec.dominantWindBearing
    decreases |lines| - n
  {
    if n < |lines| {
      var s := LineStep(lines[n], n, acc, win, cfg);
      if s.Next? {
        LineStepLeavesMeanUnset(lines[n], n, acc, win, cfg);
        ScanLeavesMeanUnset(lines, n + 1, s.acc, win, cfg);
      }
    }
  }

  lemma LineStepLeavesMeanUnset(line: LogLine, n: nat, acc: DayAcc, win: DayWindow, cfg: DayConfig)
    ensures var s := LineStep(line, n, acc, win, cfg);
      s.Next? ==> s.acc.rec.avgTemp == acc.rec.avgTemp && s.acc.rec.dominantWindBearing == acc.rec.dominantWindBearing
  {
    match line
    case Unreadable =>
    case Entry(t, readings, x) =>
      var acc1 := SolarStep(acc, x, t, n, win);
      assert acc1.rec.avgTemp == acc.rec.avgTemp && acc1.rec.dominantWindBearing == acc.rec.dominantWindBearing;
  }
}
