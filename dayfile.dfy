/**
 * The day file (DayFile.cs): one summary record per day, the sentinel
 * convention for "missing", the writer that refuses incomplete days, the
 * positional reader and the loader that insists on ascending dates.
 *
 * Times are minutes since the .NET DateTime epoch, so DateTime.MinValue,
 * the default of every time field, is 0. Culture-dependent text
 * conversions are parameters: `Parsers` stands for Convert.ToDouble /
 * double.TryParse, Convert.ToInt32 / int.TryParse, Utils.DdmmyyStrToDate
 * and Utils.GetDateTime (None where they throw or fail), `Formatter` for
 * ToString with a number format, "HH:mm" and "dd/MM/yy".
 */
module DayFile {
  import opened Wrappers
  import opened Cumulus
  import Utils

  /** A value together with the time it was observed. */
  datatype Timed<T> = Timed(value: T, time: int)

  /** Missing marker for highs and sums. */
  const NoHigh: real := -9999.0
  /** Missing marker for lows. */
  const NoLow: real := 9999.0
  const NoHighInt: int := -9999
  const NoLowInt: int := 9999
  /** The time fields' default, DateTime.MinValue. */
  const NoTime: int := 0

  datatype Dayfilerec = Dayfilerec(
    date: int,
    highGust: Timed<real>,
    highGustBearing: int,
    lowTemp: Timed<real>,
    highTemp: Timed<real>,
    lowPress: Timed<real>,
    highPress: Timed<real>,
    highRainRate: Timed<real>,
    totalRain: real,
    avgTemp: real,
    windRun: real,
    highAvgWind: Timed<real>,
    lowHumidity: Timed<int>,
    highHumidity: Timed<int>,
    et: real,
    sunshineHours: real,
    highHeatIndex: Timed<real>,
    highAppTemp: Timed<real>,
    lowAppTemp: Timed<real>,
    highHourlyRain: Timed<real>,
    lowWindChill: Timed<real>,
    highDewPoint: Timed<real>,
    lowDewPoint: Timed<real>,
    dominantWindBearing: int,
    heatingDegreeDays: real,
    coolingDegreeDays: real,
    highSolar: Timed<int>,
    highUv: Timed<real>,
    highFeelsLike: Timed<real>,
    lowFeelsLike: Timed<real>,
    highHumidex: Timed<real>,
    chillHours: real)

  /**
   * `new Dayfilerec { Date = date }`: every high and sum missing (-9999),
   * every low and the dominant bearing missing (9999), the gust bearing 0.
   */
  function Blank(date: int): (r: Dayfilerec)
    ensures r.date == date && r.highGustBearing == 0
    ensures r.highGust.value == NoHigh && r.highTemp.value == NoHigh && r.lowTemp.value == NoLow
    ensures r.lowPress.value == NoLow && r.highPress.value == NoHigh && r.highRainRate.value == NoHigh
    ensures r.totalRain == NoHigh && r.avgTemp == NoHigh && r.windRun == NoHigh && r.et == NoHigh
    ensures r.sunshineHours == NoHigh && r.heatingDegreeDays == NoHigh && r.coolingDegreeDays == NoHigh
    ensures r.lowHumidity.value == NoLowInt && r.highHumidity.value == NoHighInt
    ensures r.dominantWindBearing == NoLowInt && r.highSolar.value == NoHighInt
    ensures r.lowAppTemp.value == NoLow && r.lowWindChill.value == NoLow && r.lowDewPoint.value == NoLow
    ensures r.lowFeelsLike.value == NoLow && r.chillHours == NoHigh
    ensures r.highAvgWind.value == NoHigh && r.highHeatIndex.value == NoHigh && r.highAppTemp.value == NoHigh
    ensures r.highHourlyRain.value == NoHigh && r.highDewPoint.value == NoHigh && r.highUv.value == NoHigh
    ensures r.highFeelsLike.value == NoHigh && r.highHumidex.value == NoHigh
    ensures r.highGust.time == NoTime && r.highTemp.time == NoTime && r.lowTemp.time == NoTime
  {
    var hi := Timed(NoHigh, NoTime);
    var lo := Timed(NoLow, NoTime);
    Dayfilerec(
      date, hi, 0, lo, hi, lo, hi, hi,
      NoHigh, NoHigh, NoHigh,
      hi, Timed(NoLowInt, NoTime), Timed(NoHighInt, NoTime),
      NoHigh, NoHigh,
      hi, hi, lo, hi, lo, hi, lo,
      NoLowInt, NoHigh, NoHigh,
      Timed(NoHighInt, NoTime), hi, hi, lo, hi,
      NoHigh)
  }

  /** A stored day needs repair: one of its 24 checked fields is at its sentinel. */
  predicate HasMissingData(r: Dayfilerec) {
    || r.highHumidex.value == NoHigh || r.lowFeelsLike.value == NoLow || r.highFeelsLike.value == NoHigh
    || r.coolingDegreeDays == NoHigh || r.heatingDegreeDays == NoHigh
    || r.dominantWindBearing == NoLowInt || r.lowDewPoint.value == NoLow || r.highDewPoint.value == NoHigh
    || r.lowWindChill.value == NoLow || r.highHourlyRain.value == NoHigh
    || r.lowAppTemp.value == NoLow || r.highAppTemp.value == NoHigh || r.highHeatIndex.value == NoHigh
    || r.highHumidity.value == NoHighInt || r.lowHumidity.value == NoLowInt
    || r.highAvgWind.value == NoHigh || r.avgTemp == NoHigh || r.highRainRate.value == NoHigh
    || r.lowPress.value == NoLow || r.highPress.value == NoHigh
    || r.highTemp.value == NoHigh || r.lowTemp.value == NoLow || r.highGust.value == NoHigh
    || r.chillHours == NoHigh
  }

  /** A fresh record always needs repair. */
  lemma BlankHasMissingData(date: int)
    ensures HasMissingData(Blank(date))
  {
  }

  /**
   * HasMissingData does not look at wind run, total rain, ET, sunshine
   * hours, high solar or high UV: any values there leave the verdict alone.
   */
  lemma MissingDataIgnoresTotals(r: Dayfilerec, windRun: real, totalRain: real, et: real,
                                 sunshine: real, highSolar: Timed<int>, highUv: Timed<real>)
    ensures HasMissingData(r) ==
      HasMissingData(r.(windRun := windRun, totalRain := totalRain, et := et,
                        sunshineHours := sunshine, highSolar := highSolar, highUv := highUv))
  {
  }

  /** The fields without which RecToCsv writes nothing. */
  predicate MandatoryPresent(r: Dayfilerec) {
    && r.highGust.value != NoHigh && r.lowTemp.value != NoLow && r.highTemp.value != NoHigh
    && r.lowPress.value != NoLow && r.highPress.value != NoHigh && r.highRainRate.value != NoHigh
    && r.totalRain != NoHigh
  }

  /** Culture-dependent text conversions used when writing. */
  datatype Formatter = Formatter(
    number: (real, NumberFormat) -> string,
    integer: int -> string,
    time: int -> string,
    date: (int, string) -> string)

  /** Culture-dependent text conversions used when reading; None = throws or fails. */
  datatype Parsers = Parsers(
    number: string -> Option<real>,
    integer: string -> Option<int>,
    date: string -> Option<int>,
    time: (int, string) -> Option<int>)

  const OneDecimal: NumberFormat := Fixed(1)

  /** A field written only when its value is present; an empty field otherwise. */
  function Unless(missing: bool, text: string): string {
    if missing then "" else text
  }

  /** The number of fields of a written day file line. */
  const LineFields: nat := 53

  /**
   * The text written at position `k` of the line for `r`: 0-15 are the
   * date and the fields every written line has, 16-52 the optional ones.
   * The low dew point (37-38) is compared with the high sentinel -9999,
   * not its own 9999.
   */
  function Field(r: Dayfilerec, w: Formatter, f: Formats, dateSep: string, k: nat): string
    requires k < LineFields
  {
    if k < 16 then HeadField(r, w, f, dateSep, k)
    else if k < 37 then MiddleField(r, w, f, k)
    else TailField(r, w, f, k)
  }

  /** Positions 0-15. */
  function HeadField(r: Dayfilerec, w: Formatter, f: Formats, dateSep: string, k: nat): string
    requires k < 16
  {
    match k
    case 0 => w.date(r.date, dateSep)
    case 1 => w.number(r.highGust.value, f.wind)
    case 2 => w.integer(r.highGustBearing)
    case 3 => w.time(r.highGust.time)
    case 4 => w.number(r.lowTemp.value, f.temp)
    case 5 => w.time(r.lowTemp.time)
    case 6 => w.number(r.highTemp.value, f.temp)
    case 7 => w.time(r.highTemp.time)
    case 8 => w.number(r.lowPress.value, f.press)
    case 9 => w.time(r.lowPress.time)
    case 10 => w.number(r.highPress.value, f.press)
    case 11 => w.time(r.highPress.time)
    case 12 => w.number(r.highRainRate.value, f.rain)
    case 13 => w.time(r.highRainRate.time)
    case 14 => w.number(r.totalRain, f.rain)
    case _ => Unless(r.avgTemp == NoHigh, w.number(r.avgTemp, f.temp))  // 15
  }

  /** Positions 16-36. */
  function MiddleField(r: Dayfilerec, w: Formatter, f: Formats, k: nat): string
    requires 16 <= k < 37
  {
    match k
    case 16 => w.number(r.windRun, OneDecimal)
    case 17 => Unless(r.highAvgWind.value == NoHigh, w.number(r.highAvgWind.value, f.windAvg))
    case 18 => Unless(r.highAvgWind.value == NoHigh, w.time(r.highAvgWind.time))
    case 19 => Unless(r.lowHumidity.value == NoLowInt, w.integer(r.lowHumidity.value))
    case 20 => Unless(r.lowHumidity.value == NoLowInt, w.time(r.lowHumidity.time))
    case 21 => Unless(r.highHumidity.value == NoHighInt, w.integer(r.highHumidity.value))
    case 22 => Unless(r.highHumidity.value == NoHighInt, w.time(r.highHumidity.time))
    case 23 => w.number(r.et, f.et)
    case 24 => w.number(r.sunshineHours, f.sun)
    case 25 => Unless(r.highHeatIndex.value == NoHigh, w.number(r.highHeatIndex.value, f.temp))
    case 26 => Unless(r.highHeatIndex.value == NoHigh, w.time(r.highHeatIndex.time))
    case 27 => Unless(r.highAppTemp.value == NoHigh, w.number(r.highAppTemp.value, f.temp))
    case 28 => Unless(r.highAppTemp.value == NoHigh, w.time(r.highAppTemp.time))
    case 29 => Unless(r.lowAppTemp.value == NoLow, w.number(r.lowAppTemp.value, f.temp))
    case 30 => Unless(r.lowAppTemp.value == NoLow, w.time(r.lowAppTemp.time))
    case 31 => Unless(r.highHourlyRain.value == NoHigh, w.number(r.highHourlyRain.value, f.rain))
    case 32 => Unless(r.highHourlyRain.value == NoHigh, w.time(r.highHourlyRain.time))
    case 33 => Unless(r.lowWindChill.value == NoLow, w.number(r.lowWindChill.value, f.temp))
    case 34 => Unless(r.lowWindChill.value == NoLow, w.time(r.lowWindChill.time))
    case 35 => Unless(r.highDewPoint.value == NoHigh, w.number(r.highDewPoint.value, f.temp))
    case _ => Unless(r.highDewPoint.value == NoHigh, w.time(r.highDewPoint.time))  // 36
  }

  /** Positions 37-52. */
  function TailField(r: Dayfilerec, w: Formatter, f: Formats, k: nat): string
    requires 37 <= k < LineFields
  {
    match k
    case 37 => Unless(r.lowDewPoint.value == NoHigh, w.number(r.lowDewPoint.value, f.temp))
    case 38 => Unless(r.lowDewPoint.value == NoHigh, w.time(r.lowDewPoint.time))
    case 39 => Unless(r.dominantWindBearing == NoLowInt, w.integer(r.dominantWindBearing))
    case 40 => Unless(r.heatingDegreeDays == NoHigh, w.number(r.heatingDegreeDays, OneDecimal))
    case 41 => Unless(r.coolingDegreeDays == NoHigh, w.number(r.coolingDegreeDays, OneDecimal))
    case 42 => w.integer(r.highSolar.value)
    case 43 => w.time(r.highSolar.time)
    case 44 => w.number(r.highUv.value, f.uv)
    case 45 => w.time(r.highUv.time)
    case 46 => Unless(r.highFeelsLike.value == NoHigh, w.number(r.highFeelsLike.value, f.temp))
    case 47 => Unless(r.highFeelsLike.value == NoHigh, w.time(r.highFeelsLike.time))
    case 48 => Unless(r.lowFeelsLike.value == NoLow, w.number(r.lowFeelsLike.value, f.temp))
    case 49 => Unless(r.lowFeelsLike.value == NoLow, w.time(r.lowFeelsLike.time))
    case 50 => Unless(r.highHumidex.value == NoHigh, w.number(r.highHumidex.value, f.temp))
    case 51 => Unless(r.highHumidex.value == NoHigh, w.time(r.highHumidex.time))
    case _ => Unless(r.chillHours == NoHigh, w.number(r.chillHours, OneDecimal))  // 52
  }

  /** The 53 fields of the line for `r`, in order. */
  function Line(r: Dayfilerec, w: Formatter, f: Formats, dateSep: string): (fs: seq<string>)
    ensures |fs| == LineFields
    ensures fs[0] == w.date(r.date, dateSep)
  {
    seq(LineFields, k requires 0 <= k < LineFields => Field(r, w, f, dateSep, k))
  }

  /**
   * The fields of the day file line for `r`, in their fixed positions, or
   * None when a mandatory field is missing. A missing optional value is
   * written as empty field(s) so that later positions do not move.
   */
  function RecToCsv(r: Dayfilerec, w: Formatter, f: Formats, dateSep: string): (line: Option<seq<string>>)
    ensures line.None? <==> !MandatoryPresent(r)
    ensures line.Some? ==> |line.value| == LineFields && line.value[0] == w.date(r.date, dateSep)
  {
    if !MandatoryPresent(r) then None
    else Some(Line(r, w, f, dateSep))
  }

  /**
   * A missing low dew point (9999) is still written as a number with its
   * time; a missing chill-hours value leaves the last field empty.
   */
  lemma WrittenQuirks(r: Dayfilerec, w: Formatter, f: Formats, dateSep: string)
    requires MandatoryPresent(r)
    ensures var line := RecToCsv(r, w, f, dateSep).value;
      && (r.lowDewPoint.value == NoLow ==>
            line[37] == w.number(NoLow, f.temp) && line[38] == w.time(r.lowDewPoint.time))
      && (r.chillHours == NoHigh ==> line[52] == "")
      && (r.chillHours != NoHigh ==> line[52] == w.number(r.chillHours, OneDecimal))
  {
  }

  /** A fresh record is never written. */
  lemma BlankNotWritten(date: int, w: Formatter, f: Formats, dateSep: string)
    ensures RecToCsv(Blank(date), w, f, dateSep).None?
  {
  }

  // ---- reading ----

  /** An optional number: kept at `dflt` when absent or unparsable (TryParse). */
  function OptNumber(st: seq<string>, k: nat, p: Parsers, dflt: real): real {
    if |st| > k then p.number(st[k]).GetOr(dflt) else dflt
  }

  function OptInt(st: seq<string>, k: nat, p: Parsers, dflt: int): int {
    if |st| > k then p.integer(st[k]).GetOr(dflt) else dflt
  }

  /**
   * An optional time: read only from five-character text; GetDateTime
   * failing on such text fails the whole record (None).
   */
  function OptTime(st: seq<string>, k: nat, p: Parsers, date: int, current: int): Option<int> {
    if |st| > k && |st[k]| == 5 then p.time(date, st[k]) else Some(current)
  }

  /** Positions 0-15 read (the source throws on the first that fails). */
  predicate MandatoryParses(st: seq<string>, p: Parsers) {
    && |st| >= 16
    && p.date(st[0]).Some?
    && p.number(st[1]).Some? && p.integer(st[2]).Some? && p.time(p.date(st[0]).value, st[3]).Some?
    && p.number(st[4]).Some? && p.time(p.date(st[0]).value, st[5]).Some?
    && p.number(st[6]).Some? && p.time(p.date(st[0]).value, st[7]).Some?
    && p.number(st[8]).Some? && p.time(p.date(st[0]).value, st[9]).Some?
    && p.number(st[10]).Some? && p.time(p.date(st[0]).value, st[11]).Some?
    && p.number(st[12]).Some? && p.time(p.date(st[0]).value, st[13]).Some?
    && p.number(st[14]).Some? && p.number(st[15]).Some?
  }

  /**
   * Positions 0-15, which every line must have: a fresh record for the
   * parsed date with the mandatory fields filled in; None when the line is
   * shorter or one of them does not convert (the source throws).
   */
  function ParseHead(st: seq<string>, p: Parsers): (r: Option<Dayfilerec>)
    ensures r.Some? <==> MandatoryParses(st, p)
    ensures r.Some? ==> r.value.date == p.date(st[0]).value
  {
    if |st| < 16 then None
    else
      var date :- p.date(st[0]);
      var highGust :- p.number(st[1]);
      var highGustBearing :- p.integer(st[2]);
      var highGustTime :- p.time(date, st[3]);
      var lowTemp :- p.number(st[4]);
      var lowTempTime :- p.time(date, st[5]);
      var highTemp :- p.number(st[6]);
      var highTempTime :- p.time(date, st[7]);
      var lowPress :- p.number(st[8]);
      var lowPressTime :- p.time(date, st[9]);
      var highPress :- p.number(st[10]);
      var highPressTime :- p.time(date, st[11]);
      var highRainRate :- p.number(st[12]);
      var highRainRateTime :- p.time(date, st[13]);
      var totalRain :- p.number(st[14]);
      var avgTemp :- p.number(st[15]);
      Some(Blank(date).(
        highGust := Timed(highGust, highGustTime), highGustBearing := highGustBearing,
        lowTemp := Timed(lowTemp, lowTempTime), highTemp := Timed(highTemp, highTempTime),
        lowPress := Timed(lowPress, lowPressTime), highPress := Timed(highPress, highPressTime),
        highRainRate := Timed(highRainRate, highRainRateTime),
        totalRain := totalRain, avgTemp := avgTemp))
  }

  /** Positions 16-36 on top of `rec`: each is read only when present and valid. */
  function ParseMiddle(st: seq<string>, p: Parsers, rec: Dayfilerec): (r: Option<Dayfilerec>)
    ensures r.Some? ==> r.value.date == rec.date
  {
    var d := rec.date;
    var highAvgWindTime :- OptTime(st, 18, p, d, rec.highAvgWind.time);
    var lowHumidityTime :- OptTime(st, 20, p, d, rec.lowHumidity.time);
    var highHumidityTime :- OptTime(st, 22, p, d, rec.highHumidity.time);
    var highHeatIndexTime :- OptTime(st, 26, p, d, rec.highHeatIndex.time);
    var highAppTempTime :- OptTime(st, 28, p, d, rec.highAppTemp.time);
    var lowAppTempTime :- OptTime(st, 30, p, d, rec.lowAppTemp.time);
    var highHourlyRainTime :- OptTime(st, 32, p, d, rec.highHourlyRain.time);
    var lowWindChillTime :- OptTime(st, 34, p, d, rec.lowWindChill.time);
    var highDewPointTime :- OptTime(st, 36, p, d, rec.highDewPoint.time);
    Some(rec.(
      windRun := OptNumber(st, 16, p, rec.windRun),
      highAvgWind := Timed(OptNumber(st, 17, p, rec.highAvgWind.value), highAvgWindTime),
      lowHumidity := Timed(OptInt(st, 19, p, rec.lowHumidity.value), lowHumidityTime),
      highHumidity := Timed(OptInt(st, 21, p, rec.highHumidity.value), highHumidityTime),
      et := OptNumber(st, 23, p, rec.et),
      sunshineHours := OptNumber(st, 24, p, rec.sunshineHours),
      highHeatIndex := Timed(OptNumber(st, 25, p, rec.highHeatIndex.value), highHeatIndexTime),
      highAppTemp := Timed(OptNumber(st, 27, p, rec.highAppTemp.value), highAppTempTime),
      lowAppTemp := Timed(OptNumber(st, 29, p, rec.lowAppTemp.value), lowAppTempTime),
      highHourlyRain := Timed(OptNumber(st, 31, p, rec.highHourlyRain.value), highHourlyRainTime),
      lowWindChill := Timed(OptNumber(st, 33, p, rec.lowWindChill.value), lowWindChillTime),
      highDewPoint := Timed(OptNumber(st, 35, p, rec.highDewPoint.value), highDewPointTime)))
  }

  /** Positions 37-52 on top of `rec`. */
  function ParseTail(st: seq<string>, p: Parsers, rec: Dayfilerec): (r: Option<Dayfilerec>)
    ensures r.Some? ==> r.value.date == rec.date
  {
    var d := rec.date;
    var lowDewPointTime :- OptTime(st, 38, p, d, rec.lowDewPoint.time);
    var highSolarTime :- OptTime(st, 43, p, d, rec.highSolar.time);
    var highUvTime :- OptTime(st, 45, p, d, rec.highUv.time);
    var highFeelsLikeTime :- OptTime(st, 47, p, d, rec.highFeelsLike.time);
    var lowFeelsLikeTime :- OptTime(st, 49, p, d, rec.lowFeelsLike.time);
    var highHumidexTime :- OptTime(st, 51, p, d, rec.highHumidex.time);
    Some(rec.(
      lowDewPoint := Timed(OptNumber(st, 37, p, rec.lowDewPoint.value), lowDewPointTime),
      dominantWindBearing := OptInt(st, 39, p, rec.dominantWindBearing),
      heatingDegreeDays := OptNumber(st, 40, p, rec.heatingDegreeDays),
      coolingDegreeDays := OptNumber(st, 41, p, rec.coolingDegreeDays),
      highSolar := Timed(OptInt(st, 42, p, rec.highSolar.value), highSolarTime),
      highUv := Timed(OptNumber(st, 44, p, rec.highUv.value), highUvTime),
      highFeelsLike := Timed(OptNumber(st, 46, p, rec.highFeelsLike.value), highFeelsLikeTime),
      lowFeelsLike := Timed(OptNumber(st, 48, p, rec.lowFeelsLike.value), lowFeelsLikeTime),
      highHumidex := Timed(OptNumber(st, 50, p, rec.highHumidex.value), highHumidexTime),
      chillHours := OptNumber(st, 52, p, rec.chillHours)))
  }

  /**
   * One day file line, already split into fields: the mandatory head, then
   * the optional positions, each left at its fresh-record value when absent
   * or unparsable.
   */
  function ParseDayFileRec(st: seq<string>, p: Parsers): (r: Option<Dayfilerec>)
    ensures r.Some? ==> MandatoryParses(st, p) && r.value.date == p.date(st[0]).value
    ensures !MandatoryParses(st, p) ==> r.None?
  {
    var head :- ParseHead(st, p);
    var middle :- ParseMiddle(st, p, head);
    ParseTail(st, p, middle)
  }

  // ---- writing then reading back ----

  /** The text written for `v` reads back as `v`. */
  predicate NumberReadsBack(w: Formatter, p: Parsers, v: real, nf: NumberFormat) {
    p.number(w.number(v, nf)) == Some(v)
  }

  predicate IntReadsBack(w: Formatter, p: Parsers, n: int) {
    p.integer(w.integer(n)) == Some(n)
  }

  /** "HH:mm" text of `t` is five characters and reads back as `t` on `date`. */
  predicate TimeReadsBack(w: Formatter, p: Parsers, date: int, t: int) {
    |w.time(t)| == 5 && p.time(date, w.time(t)) == Some(t)
  }

  /** An empty field is not a number (TryParse fails). */
  predicate EmptyUnparsable(p: Parsers) {
    p.number("") == None && p.integer("") == None
  }

  /** An optional value-and-time pair survives the round trip. */
  predicate PairReadsBack(w: Formatter, p: Parsers, date: int, x: Timed<real>, missing: real, nf: NumberFormat) {
    if x.value == missing then x.time == NoTime
    else NumberReadsBack(w, p, x.value, nf) && TimeReadsBack(w, p, date, x.time)
  }

  predicate IntPairReadsBack(w: Formatter, p: Parsers, date: int, x: Timed<int>, missing: int) {
    if x.value == missing then x.time == NoTime
    else IntReadsBack(w, p, x.value) && TimeReadsBack(w, p, date, x.time)
  }

  predicate OptionalReadsBack(w: Formatter, p: Parsers, v: real, missing: real, nf: NumberFormat) {
    v == missing || NumberReadsBack(w, p, v, nf)
  }

  predicate ReadsBackAlways(w: Formatter, p: Parsers, date: int, x: Timed<real>, nf: NumberFormat) {
    NumberReadsBack(w, p, x.value, nf) && TimeReadsBack(w, p, date, x.time)
  }

  /**
   * What a record needs for its written line to read back as itself: the
   * text conversions invert each other on its values, the times lie on its
   * day, the times of missing values are unset, and neither of the two
   * writer/reader mismatches applies (a missing average temperature is
   * written empty but read as mandatory; a low dew point of -9999 is
   * written empty but read back as 9999).
   */
  predicate Reloadable(r: Dayfilerec, w: Formatter, f: Formats, p: Parsers, dateSep: string) {
    && MandatoryPresent(r) && r.avgTemp != NoHigh && r.lowDewPoint.value != NoHigh
    && EmptyUnparsable(p)
    && HeadReloadable(r, w, f, p, dateSep)
    && MiddleReloadable(r, w, f, p)
    && TailReloadable(r, w, f, p)
  }

  predicate HeadReloadable(r: Dayfilerec, w: Formatter, f: Formats, p: Parsers, dateSep: string) {
    var d := r.date;
    && p.date(w.date(d, dateSep)) == Some(d)
    && ReadsBackAlways(w, p, d, r.highGust, f.wind) && IntReadsBack(w, p, r.highGustBearing)
    && ReadsBackAlways(w, p, d, r.lowTemp, f.temp) && ReadsBackAlways(w, p, d, r.highTemp, f.temp)
    && ReadsBackAlways(w, p, d, r.lowPress, f.press) && ReadsBackAlways(w, p, d, r.highPress, f.press)
    && ReadsBackAlways(w, p, d, r.highRainRate, f.rain)
    && NumberReadsBack(w, p, r.totalRain, f.rain) && NumberReadsBack(w, p, r.avgTemp, f.temp)
  }

  predicate MiddleReloadable(r: Dayfilerec, w: Formatter, f: Formats, p: Parsers) {
    var d := r.date;
    && NumberReadsBack(w, p, r.windRun, OneDecimal)
    && PairReadsBack(w, p, d, r.highAvgWind, NoHigh, f.windAvg)
    && IntPairReadsBack(w, p, d, r.lowHumidity, NoLowInt)
    && IntPairReadsBack(w, p, d, r.highHumidity, NoHighInt)
    && NumberReadsBack(w, p, r.et, f.et) && NumberReadsBack(w, p, r.sunshineHours, f.sun)
    && PairReadsBack(w, p, d, r.highHeatIndex, NoHigh, f.temp)
    && PairReadsBack(w, p, d, r.highAppTemp, NoHigh, f.temp)
    && PairReadsBack(w, p, d, r.lowAppTemp, NoLow, f.temp)
    && PairReadsBack(w, p, d, r.highHourlyRain, NoHigh, f.rain)
    && PairReadsBack(w, p, d, r.lowWindChill, NoLow, f.temp)
    && PairReadsBack(w, p, d, r.highDewPoint, NoHigh, f.temp)
  }

  predicate TailReloadable(r: Dayfilerec, w: Formatter, f: Formats, p: Parsers) {
    var d := r.date;
    && ReadsBackAlways(w, p, d, r.lowDewPoint, f.temp)
    && (r.dominantWindBearing == NoLowInt || IntReadsBack(w, p, r.dominantWindBearing))
    && OptionalReadsBack(w, p, r.heatingDegreeDays, NoHigh, OneDecimal)
    && OptionalReadsBack(w, p, r.coolingDegreeDays, NoHigh, OneDecimal)
    && IntReadsBack(w, p, r.highSolar.value) && TimeReadsBack(w, p, d, r.highSolar.time)
    && ReadsBackAlways(w, p, d, r.highUv, f.uv)
    && PairReadsBack(w, p, d, r.highFeelsLike, NoHigh, f.temp)
    && PairReadsBack(w, p, d, r.lowFeelsLike, NoLow, f.temp)
    && PairReadsBack(w, p, d, r.highHumidex, NoHigh, f.temp)
    && OptionalReadsBack(w, p, r.chillHours, NoHigh, OneDecimal)
  }

  /** `r` as it stands after the reader's mandatory stage. */
  function HeadOf(r: Dayfilerec): Dayfilerec {
    Blank(r.date).(
      highGust := r.highGust, highGustBearing := r.highGustBearing,
      lowTemp := r.lowTemp, highTemp := r.highTemp, lowPress := r.lowPress,
      highPress := r.highPress, highRainRate := r.highRainRate,
      totalRain := r.totalRain, avgTemp := r.avgTemp)
  }

  /** `r` as it stands after the reader's middle stage. */
  function MiddleOf(r: Dayfilerec): Dayfilerec {
    HeadOf(r).(
      windRun := r.windRun, highAvgWind := r.highAvgWind, lowHumidity := r.lowHumidity,
      highHumidity := r.highHumidity, et := r.et, sunshineHours := r.sunshineHours,
      highHeatIndex := r.highHeatIndex, highAppTemp := r.highAppTemp, lowAppTemp := r.lowAppTemp,
      highHourlyRain := r.highHourlyRain, lowWindChill := r.lowWindChill,
      highDewPoint := r.highDewPoint)
  }

  // Single fields and pairs read back from their written text.

  lemma ReadPair(st: seq<string>, k: nat, w: Formatter, p: Parsers, d: int, x: Timed<real>, missing: real, nf: NumberFormat)
    requires k + 1 < |st|
    requires st[k] == Unless(x.value == missing, w.number(x.value, nf))
    requires st[k + 1] == Unless(x.value == missing, w.time(x.time))
    requires EmptyUnparsable(p) && PairReadsBack(w, p, d, x, missing, nf)
    ensures OptNumber(st, k, p, missing) == x.value
    ensures OptTime(st, k + 1, p, d, NoTime) == Some(x.time)
  {
  }

  lemma ReadIntPair(st: seq<string>, k: nat, w: Formatter, p: Parsers, d: int, x: Timed<int>, missing: int)
    requires k + 1 < |st|
    requires st[k] == Unless(x.value == missing, w.integer(x.value))
    requires st[k + 1] == Unless(x.value == missing, w.time(x.time))
    requires EmptyUnparsable(p) && IntPairReadsBack(w, p, d, x, missing)
    ensures OptInt(st, k, p, missing) == x.value
    ensures OptTime(st, k + 1, p, d, NoTime) == Some(x.time)
  {
  }

  lemma ReadOptional(st: seq<string>, k: nat, w: Formatter, p: Parsers, v: real, missing: real, nf: NumberFormat)
    requires k < |st| && st[k] == Unless(v == missing, w.number(v, nf))
    requires EmptyUnparsable(p) && OptionalReadsBack(w, p, v, missing, nf)
    ensures OptNumber(st, k, p, missing) == v
  {
  }

  /** The mandatory positions of `st` hold what the writer puts there for `r`. */
  predicate HeadAt(st: seq<string>, r: Dayfilerec, w: Formatter, f: Formats, dateSep: string) {
    && |st| >= 16
    && st[0] == w.date(r.date, dateSep)
    && st[1] == w.number(r.highGust.value, f.wind) && st[2] == w.integer(r.highGustBearing)
    && st[3] == w.time(r.highGust.time)
    && st[4] == w.number(r.lowTemp.value, f.temp) && st[5] == w.time(r.lowTemp.time)
    && st[6] == w.number(r.highTemp.value, f.temp) && st[7] == w.time(r.highTemp.time)
    && st[8] == w.number(r.lowPress.value, f.press) && st[9] == w.time(r.lowPress.time)
    && st[10] == w.number(r.highPress.value, f.press) && st[11] == w.time(r.highPress.time)
    && st[12] == w.number(r.highRainRate.value, f.rain) && st[13] == w.time(r.highRainRate.time)
    && st[14] == w.number(r.totalRain, f.rain)
    && st[15] == Unless(r.avgTemp == NoHigh, w.number(r.avgTemp, f.temp))
  }

  lemma LineHeadAt(r: Dayfilerec, w: Formatter, f: Formats, dateSep: string)
    ensures HeadAt(Line(r, w, f, dateSep), r, w, f, dateSep)
  {
  }

  lemma HeadReadsBack(st: seq<string>, r: Dayfilerec, w: Formatter, f: Formats, p: Parsers, dateSep: string)
    requires HeadAt(st, r, w, f, dateSep) && r.avgTemp != NoHigh
    requires HeadReloadable(r, w, f, p, dateSep)
    ensures ParseHead(st, p) == Some(HeadOf(r))
  {
  }

  /** The middle positions of `st` hold what the writer puts there for `r`. */
  predicate MiddleAt(st: seq<string>, r: Dayfilerec, w: Formatter, f: Formats) {
    && |st| >= 37
    && st[16] == w.number(r.windRun, OneDecimal)
    && st[17] == Unless(r.highAvgWind.value == NoHigh, w.number(r.highAvgWind.value, f.windAvg))
    && st[18] == Unless(r.highAvgWind.value == NoHigh, w.time(r.highAvgWind.time))
    && st[19] == Unless(r.lowHumidity.value == NoLowInt, w.integer(r.lowHumidity.value))
    && st[20] == Unless(r.lowHumidity.value == NoLowInt, w.time(r.lowHumidity.time))
    && st[21] == Unless(r.highHumidity.value == NoHighInt, w.integer(r.highHumidity.value))
    && st[22] == Unless(r.highHumidity.value == NoHighInt, w.time(r.highHumidity.time))
    && st[23] == w.number(r.et, f.et)
    && st[24] == w.number(r.sunshineHours, f.sun)
    && st[25] == Unless(r.highHeatIndex.value == NoHigh, w.number(r.highHeatIndex.value, f.temp))
    && st[26] == Unless(r.highHeatIndex.value == NoHigh, w.time(r.highHeatIndex.time))
    && st[27] == Unless(r.highAppTemp.value == NoHigh, w.number(r.highAppTemp.value, f.temp))
    && st[28] == Unless(r.highAppTemp.value == NoHigh, w.time(r.highAppTemp.time))
    && st[29] == Unless(r.lowAppTemp.value == NoLow, w.number(r.lowAppTemp.value, f.temp))
    && st[30] == Unless(r.lowAppTemp.value == NoLow, w.time(r.lowAppTemp.time))
    && st[31] == Unless(r.highHourlyRain.value == NoHigh, w.number(r.highHourlyRain.value, f.rain))
    && st[32] == Unless(r.highHourlyRain.value == NoHigh, w.time(r.highHourlyRain.time))
    && st[33] == Unless(r.lowWindChill.value == NoLow, w.number(r.lowWindChill.value, f.temp))
    && st[34] == Unless(r.lowWindChill.value == NoLow, w.time(r.lowWindChill.time))
    && st[35] == Unless(r.highDewPoint.value == NoHigh, w.number(r.highDewPoint.value, f.temp))
    && st[36] == Unless(r.highDewPoint.value == NoHigh, w.time(r.highDewPoint.time))
  }

  lemma LineMiddleAt(r: Dayfilerec, w: Formatter, f: Formats, dateSep: string)
    ensures MiddleAt(Line(r, w, f, dateSep), r, w, f)
  {
  }

  lemma MiddleReadsBack(st: seq<string>, r: Dayfilerec, w: Formatter, f: Formats, p: Parsers)
    requires MiddleAt(st, r, w, f)
    requires MiddleReloadable(r, w, f, p) && EmptyUnparsable(p)
    ensures ParseMiddle(st, p, HeadOf(r)) == Some(MiddleOf(r))
  {
    var d := r.date;
    ReadPair(st, 17, w, p, d, r.highAvgWind, NoHigh, f.windAvg);
    ReadIntPair(st, 19, w, p, d, r.lowHumidity, NoLowInt);
    ReadIntPair(st, 21, w, p, d, r.highHumidity, NoHighInt);
    ReadPair(st, 25, w, p, d, r.highHeatIndex, NoHigh, f.temp);
    ReadPair(st, 27, w, p, d, r.highAppTemp, NoHigh, f.temp);
    ReadPair(st, 29, w, p, d, r.lowAppTemp, NoLow, f.temp);
    ReadPair(st, 31, w, p, d, r.highHourlyRain, NoHigh, f.rain);
    ReadPair(st, 33, w, p, d, r.lowWindChill, NoLow, f.temp);
    ReadPair(st, 35, w, p, d, r.highDewPoint, NoHigh, f.temp);
  }

  /** The last positions of `st` hold what the writer puts there for `r`. */
  predicate TailAt(st: seq<string>, r: Dayfilerec, w: Formatter, f: Formats) {
    && |st| == 53
    && st[37] == Unless(r.lowDewPoint.value == NoHigh, w.number(r.lowDewPoint.value, f.temp))
    && st[38] == Unless(r.lowDewPoint.value == NoHigh, w.time(r.lowDewPoint.time))
    && st[39] == Unless(r.dominantWindBearing == NoLowInt, w.integer(r.dominantWindBearing))
    && st[40] == Unless(r.heatingDegreeDays == NoHigh, w.number(r.heatingDegreeDays, OneDecimal))
    && st[41] == Unless(r.coolingDegreeDays == NoHigh, w.number(r.coolingDegreeDays, OneDecimal))
    && st[42] == w.integer(r.highSolar.value) && st[43] == w.time(r.highSolar.time)
    && st[44] == w.number(r.highUv.value, f.uv) && st[45] == w.time(r.highUv.time)
    && st[46] == Unless(r.highFeelsLike.value == NoHigh, w.number(r.highFeelsLike.value, f.temp))
    && st[47] == Unless(r.highFeelsLike.value == NoHigh, w.time(r.highFeelsLike.time))
    && st[48] == Unless(r.lowFeelsLike.value == NoLow, w.number(r.lowFeelsLike.value, f.temp))
    && st[49] == Unless(r.lowFeelsLike.value == NoLow, w.time(r.lowFeelsLike.time))
    && st[50] == Unless(r.highHumidex.value == NoHigh, w.number(r.highHumidex.value, f.temp))
    && st[51] == Unless(r.highHumidex.value == NoHigh, w.time(r.highHumidex.time))
    && st[52] == Unless(r.chillHours == NoHigh, w.number(r.chillHours, OneDecimal))
  }

  lemma LineTailAt(r: Dayfilerec, w: Formatter, f: Formats, dateSep: string)
    ensures TailAt(Line(r, w, f, dateSep), r, w, f)
  {
  }

  lemma TailReadsBack(st: seq<string>, r: Dayfilerec, w: Formatter, f: Formats, p: Parsers)
    requires TailAt(st, r, w, f) && r.lowDewPoint.value != NoHigh
    requires TailReloadable(r, w, f, p) && EmptyUnparsable(p)
    ensures ParseTail(st, p, MiddleOf(r)) == Some(r)
  {
    var d := r.date;
    ReadOptional(st, 40, w, p, r.heatingDegreeDays, NoHigh, OneDecimal);
    ReadOptional(st, 41, w, p, r.coolingDegreeDays, NoHigh, OneDecimal);
    ReadPair(st, 46, w, p, d, r.highFeelsLike, NoHigh, f.temp);
    ReadPair(st, 48, w, p, d, r.lowFeelsLike, NoLow, f.temp);
    ReadPair(st, 50, w, p, d, r.highHumidex, NoHigh, f.temp);
    ReadOptional(st, 52, w, p, r.chillHours, NoHigh, OneDecimal);
  }

  /** Writing a reloadable record and reading the line back gives the record again. */
  lemma {:induction false} RecToCsvReadsBack(r: Dayfilerec, w: Formatter, f: Formats, p: Parsers, dateSep: string)
    requires Reloadable(r, w, f, p, dateSep)
    ensures ParseDayFileRec(RecToCsv(r, w, f, dateSep).value, p) == Some(r)
  {
    var st := Line(r, w, f, dateSep);
    LineHeadAt(r, w, f, dateSep);
    HeadReadsBack(st, r, w, f, p, dateSep);
    LineMiddleAt(r, w, f, dateSep);
    MiddleReadsBack(st, r, w, f, p);
    LineTailAt(r, w, f, dateSep);
    TailReadsBack(st, r, w, f, p);
  }

  /**
   * A day whose average temperature is missing is written with an empty
   * field 15, which the reader treats as mandatory: the line does not
   * read back.
   */
  lemma MissingAvgTempNotReloadable(r: Dayfilerec, w: Formatter, f: Formats, p: Parsers, dateSep: string)
    requires MandatoryPresent(r) && r.avgTemp == NoHigh && EmptyUnparsable(p)
    ensures ParseDayFileRec(RecToCsv(r, w, f, dateSep).value, p).None?
  {
  }

  /**
   * A line of only the 16 mandatory fields reads back as a fresh record
   * with those fields filled in: every optional field keeps its sentinel.
   */
  lemma ShortLineKeepsSentinels(st: seq<string>, p: Parsers)
    requires |st| == 16 && MandatoryParses(st, p)
    ensures var r := ParseDayFileRec(st, p).value;
      var b := Blank(r.date);
      r == b.(highGust := r.highGust, highGustBearing := r.highGustBearing,
              lowTemp := r.lowTemp, highTemp := r.highTemp, lowPress := r.lowPress,
              highPress := r.highPress, highRainRate := r.highRainRate,
              totalRain := r.totalRain, avgTemp := r.avgTemp)
  {
  }

  // ---- loading ----

  /** Minutes in a day. */
  const MinutesPerDay: int := 1440

  /** The errors that abort a load (exit code 5). */
  const MaxLoadErrors: nat := 20

  /**
   * What a load ends in: the records kept and the lines that failed to
   * parse, or the exit code and line number of the check that stopped it
   * (3 = date out of order, 4 = duplicate date, 5 = too many errors).
   */
  datatype LoadOutcome =
    | Loaded(recs: seq<Dayfilerec>, errors: nat)
    | Aborted(exitCode: int, line: nat)

  /**
   * The parse of each line read. The read loop runs at least once, so an
   * empty file yields one read (of no line) that fails to parse.
   */
  function ReadAttempts(lines: seq<seq<string>>, p: Parsers): (parsed: seq<Option<Dayfilerec>>)
    ensures |parsed| == if |lines| == 0 then 1 else |lines|
    ensures |lines| == 0 ==> parsed == [None]
    ensures forall i :: 0 <= i < |lines| ==> parsed[i] == ParseDayFileRec(lines[i], p)
  {
    if |lines| == 0 then [None]
    else seq(|lines|, i requires 0 <= i < |lines| => ParseDayFileRec(lines[i], p))
  }

  /**
   * The loader over the parse results that remain: `lastDate` is the date
   * of the last record kept (DateTime.MinValue at first), `line` the
   * number of lines already read.
   */
  function LoadFrom(parsed: seq<Option<Dayfilerec>>, lastDate: int, recs: seq<Dayfilerec>, errors: nat, line: nat): LoadOutcome
    decreases |parsed|
  {
    if |parsed| == 0 then Loaded(recs, errors)
    else match parsed[0]
      case None =>
        if errors + 1 >= MaxLoadErrors then Aborted(5, line + 1)
        else LoadFrom(parsed[1..], lastDate, recs, errors + 1, line + 1)
      case Some(rec) =>
        if rec.date < lastDate then Aborted(3, line + 1)
        else if rec.date == lastDate then Aborted(4, line + 1)
        else LoadFrom(parsed[1..], rec.date, recs + [rec], errors, line + 1)
  }

  /** The records that parsed, in file order. */
  function Successes(parsed: seq<Option<Dayfilerec>>): (rs: seq<Dayfilerec>)
    ensures |rs| <= |parsed|
  {
    if |parsed| == 0 then []
    else if parsed[0].Some? then [parsed[0].value] + Successes(parsed[1..])
    else Successes(parsed[1..])
  }

  /** The number of lines that failed to parse. */
  function Failures(parsed: seq<Option<Dayfilerec>>): (n: nat)
    ensures n <= |parsed|
  {
    if |parsed| == 0 then 0
    else (if parsed[0].None? then 1 else 0) + Failures(parsed[1..])
  }

  /** Each date is later than the one before it, the first later than `last`. */
  predicate AscendingAfter(last: int, rs: seq<Dayfilerec>)
    decreases |rs|
  {
    |rs| == 0 || (last < rs[0].date && AscendingAfter(rs[0].date, rs[1..]))
  }

  /** Dates strictly increase along the list: no date is out of order or repeated. */
  predicate StrictlyAscending(rs: seq<Dayfilerec>) {
    forall i, j {:trigger rs[i].date, rs[j].date} :: 0 <= i < j < |rs| ==> rs[i].date < rs[j].date
  }

  lemma {:induction false} AscendingAfterPairwise(last: int, rs: seq<Dayfilerec>)
    requires AscendingAfter(last, rs)
    ensures StrictlyAscending(rs)
    ensures forall i :: 0 <= i < |rs| ==> last < rs[i].date
    decreases |rs|
  {
    if |rs| > 0 {
      AscendingAfterPairwise(rs[0].date, rs[1..]);
      assert forall i :: 1 <= i < |rs| ==> rs[i] == rs[1..][i - 1];
    }
  }

  /**
   * A load completes exactly when the records that parse are in strictly
   * ascending date order after `lastDate` and fewer than 20 lines fail;
   * it then keeps exactly those records, in file order.
   */
  lemma {:induction false} LoadFromOutcome(parsed: seq<Option<Dayfilerec>>, lastDate: int, recs: seq<Dayfilerec>, errors: nat, line: nat)
    requires errors < MaxLoadErrors
    ensures LoadFrom(parsed, lastDate, recs, errors, line).Loaded? <==>
              AscendingAfter(lastDate, Successes(parsed)) && errors + Failures(parsed) < MaxLoadErrors
    ensures LoadFrom(parsed, lastDate, recs, errors, line).Loaded? ==>
              LoadFrom(parsed, lastDate, recs, errors, line) == Loaded(recs + Successes(parsed), errors + Failures(parsed))
    decreases |parsed|
  {
    if |parsed| > 0 {
      match parsed[0]
      case None =>
        if errors + 1 < MaxLoadErrors {
          LoadFromOutcome(parsed[1..], lastDate, recs, errors + 1, line + 1);
        }
      case Some(rec) =>
        if rec.date > lastDate {
          LoadFromOutcome(parsed[1..], rec.date, recs + [rec], errors, line + 1);
          assert recs + [rec] + Successes(parsed[1..]) == recs + Successes(parsed);
        }
    }
  }

  /** A completed load holds strictly ascending dates, all after DateTime.MinValue. */
  lemma LoadedStrictlyAscending(lines: seq<seq<string>>, p: Parsers)
    requires LoadFrom(ReadAttempts(lines, p), NoTime, [], 0, 0).Loaded?
    ensures var recs := LoadFrom(ReadAttempts(lines, p), NoTime, [], 0, 0).recs;
      StrictlyAscending(recs) && forall i :: 0 <= i < |recs| ==> NoTime < recs[i].date
  {
    var parsed := ReadAttempts(lines, p);
    LoadFromOutcome(parsed, NoTime, [], 0, 0);
    assert [] + Successes(parsed) == Successes(parsed);
    AscendingAfterPairwise(NoTime, Successes(parsed));
  }

  /** An existing but empty file loads no records, with one error. */
  lemma EmptyFileLoadsNothing(p: Parsers)
    ensures LoadFrom(ReadAttempts([], p), NoTime, [], 0, 0) == Loaded([], 1)
  {
  }

  /** The separators and line ending the day file is written with. */
  datatype Separators = Separators(field: string, date: string, line: string)

  /** The day file as read from disk: its bytes, and its lines already split into fields. */
  datatype DayFileText = DayFileText(bytes: seq<Utils.byte>, lines: seq<seq<string>>)

  /**
   * The separators chosen by the loader as written: with no day file all
   * three stay empty, and an existing file whose first 1000 bytes hold no
   * line feed keeps the empty line ending. `fromFile` is what
   * Utils.GetLogFileSeparators reports for the file.
   */
  function SeparatorsAsWritten(exists_: bool, found: bool, newLine: string, fromFile: (string, string)): (s: Separators)
    ensures !exists_ ==> s == Separators("", "", "")
    ensures exists_ && !found ==> s.line == ""
  {
    if !exists_ then Separators("", "", "")
    else Separators(fromFile.0, fromFile.1, if found then newLine else "")
  }

  /**
   * The separators the writer needs: the file's own, with the line ending
   * Utils.TryDetectNewLine reports (the platform's when it finds none),
   * and the culture's list and date separators and the platform line
   * ending when there is no file.
   */
  function SeparatorsCorrected(exists_: bool, newLine: string, fromFile: (string, string),
                               culture: (string, string), platformNewLine: string): (s: Separators)
    ensures !exists_ ==> s == Separators(culture.0, culture.1, platformNewLine)
    ensures exists_ ==> s == Separators(fromFile.0, fromFile.1, newLine)
  {
    if !exists_ then Separators(culture.0, culture.1, platformNewLine)
    else Separators(fromFile.0, fromFile.1, newLine)
  }

  // ---- writing ----

  /** The fields joined with `sep` between them (no trailing separator). */
  function Join(fs: seq<string>, sep: string): (text: string)
    ensures |fs| == 1 ==> text == fs[0]
    decreases |fs|
  {
    if |fs| == 0 then ""
    else if |fs| == 1 then fs[0]
    else fs[0] + sep + Join(fs[1..], sep)
  }

  /** The text WriteDayFile produces for `recs`: one line per writable record, in order. */
  function WrittenText(recs: seq<Dayfilerec>, w: Formatter, f: Formats, seps: Separators): string
    decreases |recs|
  {
    if |recs| == 0 then ""
    else
      var rest := WrittenText(recs[1..], w, f, seps);
      match RecToCsv(recs[0], w, f, seps.date)
      case None => rest
      case Some(line) => Join(line, seps.field) + seps.line + rest
  }

  /** Writing a list is writing its parts one after the other: the order is kept. */
  lemma {:induction false} WrittenTextAppend(a: seq<Dayfilerec>, b: seq<Dayfilerec>, w: Formatter, f: Formats, seps: Separators)
    ensures WrittenText(a + b, w, f, seps) == WrittenText(a, w, f, seps) + WrittenText(b, w, f, seps)
    decreases |a|
  {
    if |a| == 0 {
      assert a + b == b;
    } else {
      assert (a + b)[0] == a[0];
      assert (a + b)[1..] == a[1..] + b;
      WrittenTextAppend(a[1..], b, w, f, seps);
    }
  }

  /** One record is written as its joined line plus the line ending, or not at all. */
  lemma WrittenTextSingle(r: Dayfilerec, w: Formatter, f: Formats, seps: Separators)
    ensures MandatoryPresent(r) ==>
      WrittenText([r], w, f, seps) == Join(Line(r, w, f, seps.date), seps.field) + seps.line
    ensures !MandatoryPresent(r) ==> WrittenText([r], w, f, seps) == ""
  {
    assert [r][1..] == [];
  }

  /**
   * As written, with no day file the written lines have nothing between
   * them: two writable records run together into one line.
   */
  lemma MissingFileRunsTogether(a: Dayfilerec, b: Dayfilerec, w: Formatter, f: Formats,
                                found: bool, newLine: string, fromFile: (string, string))
    requires MandatoryPresent(a) && MandatoryPresent(b)
    ensures var seps := SeparatorsAsWritten(false, found, newLine, fromFile);
      WrittenText([a, b], w, f, seps) == Join(Line(a, w, f, ""), "") + Join(Line(b, w, f, ""), "")
  {
    var seps := SeparatorsAsWritten(false, found, newLine, fromFile);
    WrittenTextAppend([a], [b], w, f, seps);
    assert [a] + [b] == [a, b];
    WrittenTextSingle(a, w, f, seps);
    WrittenTextSingle(b, w, f, seps);
  }

  /**
   * Corrected, every written record is followed by a non-empty line
   * ending, whether or not the file existed and whether or not a line feed
   * was found.
   */
  lemma CorrectedLinesTerminated(exists_: bool, bytes: seq<Utils.byte>, newLine: string,
                                 fromFile: (string, string), culture: (string, string), platformNewLine: string)
    requires platformNewLine != "" && DetectedEnding(bytes, platformNewLine, newLine)
    ensures SeparatorsCorrected(exists_, newLine, fromFile, culture, platformNewLine).line != ""
  {
    if newLine != platformNewLine {
      var k :| Utils.IsFirstLineFeed(bytes, k) && newLine == Utils.EndingAt(bytes, k);
    }
  }

  /**
   * `newLine` is what Utils.TryDetectNewLine reports for `bytes`: the
   * convention of the first line feed within the first 1000 bytes, or the
   * platform's when there is none.
   */
  predicate DetectedEnding(bytes: seq<Utils.byte>, platformNewLine: string, newLine: string) {
    || (exists k :: 0 <= k < |bytes| && Utils.IsFirstLineFeed(bytes, k) && newLine == Utils.EndingAt(bytes, k))
    || ((forall j :: 0 <= j < |bytes| && j < Utils.ScanLimit ==> bytes[j] != Utils.LineFeed)
        && newLine == platformNewLine)
  }

  /**
   * The loader's loop over the lines of the day file: a line that fails
   * to parse is counted and skipped, the 20th failure aborts, and a date
   * earlier than or equal to the last one kept aborts.
   */
  method ReadDayRecs(lines: seq<seq<string>>, p: Parsers) returns (outcome: LoadOutcome)
    ensures outcome == LoadFrom(ReadAttempts(lines, p), NoTime, [], 0, 0)
  {
    var recs: seq<Dayfilerec> := [];
    ghost var parsed := ReadAttempts(lines, p);
    var attempts := if |lines| == 0 then 1 else |lines|;
    var lastDate := NoTime;
    var errorCount := 0;
    var linenum := 0;
    while linenum < attempts
      invariant 0 <= linenum <= attempts == |parsed|
      invariant errorCount < MaxLoadErrors
      invariant LoadFrom(parsed[linenum..], lastDate, recs, errorCount, linenum)
             == LoadFrom(parsed, NoTime, [], 0, 0)
      decreases attempts - linenum
    {
      // reading past the end gives no line, which fails to parse
      var newRec := if linenum < |lines| then ParseDayFileRec(lines[linenum], p) else None;
      assert newRec == parsed[linenum];
      ghost var tail := parsed[linenum..];
      assert tail[0] == newRec && tail[1..] == parsed[linenum + 1..];
      if newRec.None? {
        errorCount := errorCount + 1;
        if errorCount >= MaxLoadErrors {
          return Aborted(5, linenum + 1);
        }
      } else {
        var rec := newRec.value;
        if rec.date < lastDate {
          return Aborted(3, linenum + 1);
        }
        if rec.date == lastDate {
          return Aborted(4, linenum + 1);
        }
        recs := recs + [rec];
        lastDate := rec.date;
      }
      linenum := linenum + 1;
    }
    return Loaded(recs, errorCount);
  }

  /** The day file held in memory: the records and the separators to write them with. */
  class DayFile {
    var dayfileRecs: seq<Dayfilerec>
    var lineEnding: string
    var fieldSep: string
    var dateSep: string

    constructor Allocate()
      ensures dayfileRecs == [] && lineEnding == "" && fieldSep == "" && dateSep == ""
    {
      dayfileRecs := [];
      lineEnding := "";
      fieldSep := "";
      dateSep := "";
    }

    function Seps(): Separators
      reads this
    {
      Separators(fieldSep, dateSep, lineEnding)
    }

    /**
     * Loads the day file. With no file there is a single fresh record for
     * yesterday. Otherwise every line is parsed in turn: a line that fails
     * is counted and skipped, the 20th failure aborts, and a date earlier
     * than or equal to the last one kept aborts. The separators are the
     * corrected ones (see SeparatorsCorrected).
     */
    method LoadDayFile(file: Option<DayFileText>, fromFile: (string, string), p: Parsers,
                       culture: (string, string), platformNewLine: string, today: int)
      returns (outcome: LoadOutcome)
      modifies this
      ensures file.None? ==> outcome == Loaded([], 0) && dayfileRecs == [Blank(today - MinutesPerDay)]
      ensures file.Some? ==> outcome == LoadFrom(ReadAttempts(file.value.lines, p), NoTime, [], 0, 0)
      ensures file.Some? && outcome.Loaded? ==> dayfileRecs == outcome.recs
      ensures file.None? ==> Seps() == SeparatorsCorrected(false, "", fromFile, culture, platformNewLine)
      ensures file.Some? ==>
        DetectedEnding(file.value.bytes, platformNewLine, lineEnding) &&
        Seps() == SeparatorsCorrected(true, lineEnding, fromFile, culture, platformNewLine)
    {
      if file.None? {
        fieldSep, dateSep, lineEnding := culture.0, culture.1, platformNewLine;
        dayfileRecs := [Blank(today - MinutesPerDay)];
        return Loaded([], 0);
      }
      var found, newLine := Utils.TryDetectNewLine(file.value.bytes, platformNewLine);
      lineEnding := newLine;
      fieldSep, dateSep := fromFile.0, fromFile.1;
      assert DetectedEnding(file.value.bytes, platformNewLine, lineEnding);
      assert Seps() == SeparatorsCorrected(true, newLine, fromFile, culture, platformNewLine);
      outcome := ReadDayRecs(file.value.lines, p);
      if outcome.Loaded? {
        dayfileRecs := outcome.recs;
      }
    }

    /**
     * The text of the new day file: each record in list order, as its
     * joined line followed by the line ending, skipping the records
     * RecToCsv refuses.
     */
    method WriteDayFile(w: Formatter, f: Formats) returns (text: string)
      ensures text == WrittenText(dayfileRecs, w, f, Seps())
    {
      var recs, seps := dayfileRecs, Seps();
      text := "";
      var i := 0;
      while i < |recs|
        invariant 0 <= i <= |recs|
        invariant text + WrittenText(recs[i..], w, f, seps) == WrittenText(recs, w, f, seps)
      {
        var line := RecToCsv(recs[i], w, f, seps.date);
        ghost var rest := WrittenText(recs[i + 1..], w, f, seps);
        assert recs[i..][1..] == recs[i + 1..];
        if line.Some? {
          var piece := Join(line.value, seps.field) + seps.line;
          assert text + (piece + rest) == (text + piece) + rest;
          text := text + piece;
        }
        i := i + 1;
      }
      assert recs[i..] == [];
    }
  }
}
