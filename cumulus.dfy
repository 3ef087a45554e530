/**
 * Station configuration (Cumulus.cs): the sanitising and defaulting rules
 * ReadIniFile applies to the values read from Cumulus.ini, and the number
 * format strings the constructor derives from the decimal places.
 *
 * IniFile is not part of this model: `IniValues` holds what IniFile.GetValue
 * would return for each key, None when the key is absent (GetValue then
 * yields the caller's default).
 */
module Cumulus {
  import opened Wrappers

  datatype IniValues = IniValues(
    iniExists: bool,
    stationType: Option<int>,
    davisIncrementPressureDP: Option<bool>,
    startDate: Option<string>,
    rolloverHour: Option<int>,
    use10amInSummer: Option<bool>,
    windUnit: Option<int>,
    pressureUnit: Option<int>,
    rainUnit: Option<int>,
    tempUnit: Option<int>,
    roundWindSpeed: Option<bool>,
    windSpeedDecimals: Option<int>,
    windSpeedAvgDecimals: Option<int>,
    windRunDecimals: Option<int>,
    sunshineHrsDecimals: Option<int>,
    pressDecimals: Option<int>,
    rainDecimals: Option<int>,
    tempDecimals: Option<int>,
    uvDecimals: Option<int>,
    useZeroBearing: Option<bool>,
    heatingThreshold: Option<real>,
    coolingThreshold: Option<real>,
    rainMult: Option<real>,
    chillHourSeasonStart: Option<int>,
    chillHourThreshold: Option<real>)

  /** The unit indices and decimal places (the StationUnits property bag). */
  datatype StationUnits = StationUnits(
    wind: int, press: int, rain: int, temp: int,
    windDPlaces: int, pressDPlaces: int, rainDPlaces: int, tempDPlaces: int,
    windAvgDPlaces: int, windRunDPlaces: int, sunshineDPlaces: int, uvDPlaces: int)

  /** Default decimal places, indexed by unit: m/s, mph, km/h, knots. */
  const WindDPlaceDefaults: seq<int> := [1, 0, 0, 0]
  /** Indexed by unit: C, F. */
  const TempDPlaceDefaults: seq<int> := [1, 1]
  /** Indexed by unit: mb, hPa, inHg. */
  const PressDPlaceDefaults: seq<int> := [1, 1, 2]
  /** Indexed by unit: mm, in. */
  const RainDPlaceDefaults: seq<int> := [1, 2]

  /** A Davis station (types 0 and 1). */
  predicate IsDavis(stationType: int) { stationType == 0 || stationType == 1 }

  /** Default UV decimal places: 1 for Davis stations, 0 for the rest. */
  function DefaultUVDPlaces(stationType: int): (r: int)
    ensures IsDavis(stationType) <==> r == 1
    ensures r == 0 || r == 1
  {
    if IsDavis(stationType) then 1 else 0
  }

  /**
   * A degree-day threshold outside [-99, 150] is replaced by 18.3 (Celsius
   * stations, temp unit 0) or 65 (otherwise); the result is always in range.
   */
  function SanitiseThreshold(raw: real, tempUnit: int): (r: real)
    ensures -99.0 <= r <= 150.0
    ensures -99.0 <= raw <= 150.0 ==> r == raw
    ensures !(-99.0 <= raw <= 150.0) ==> r == (if tempUnit == 0 then 18.3 else 65.0)
  {
    if raw < -99.0 || raw > 150.0 then (if tempUnit == 0 then 18.3 else 65.0) else raw
  }

  /** The chill-hour season starts in a month 1..12; anything else becomes January. */
  function SanitiseSeasonStart(raw: int): (r: int)
    ensures 1 <= r <= 12
    ensures 1 <= raw <= 12 ==> r == raw
    ensures !(1 <= raw <= 12) ==> r == 1
  {
    if raw < 1 || raw > 12 then 1 else raw
  }

  /** A chill-hour threshold below -998 (unset) becomes 7 C or 45 F. */
  function SanitiseChillThreshold(raw: real, tempUnit: int): (r: real)
    ensures r >= -998.0
    ensures raw >= -998.0 ==> r == raw
    ensures raw < -998.0 ==> r == (if tempUnit == 0 then 7.0 else 45.0)
  {
    if raw < -998.0 then (if tempUnit == 0 then 7.0 else 45.0) else raw
  }

  /** The default-array lookups of ReadIniFile stay within their arrays. */
  predicate UnitIndicesValid(ini: IniValues) {
    && 0 <= ini.rainUnit.GetOr(0) < |RainDPlaceDefaults|
    && 0 <= ini.tempUnit.GetOr(0) < |TempDPlaceDefaults|
    && 0 <= ini.pressureUnit.GetOr(0) < |PressDPlaceDefaults|
    && (ini.roundWindSpeed.GetOr(false) || 0 <= ini.windUnit.GetOr(0) < |WindDPlaceDefaults|)
  }

  function Digit(d: int): char
    requires 0 <= d < 10
  {
    (('0' as int) + d) as char
  }

  /** Int32.ToString in the invariant culture. */
  function IntToText(n: int): (r: string)
    ensures |r| >= 1
    ensures n < 0 ==> r[0] == '-' && |r| >= 2 && AllDigits(r[1..])
    ensures n >= 0 ==> AllDigits(r)
    decreases if n < 0 then 1 - n else n
  {
    if n < 0 then "-" + IntToText(-n)
    else if n < 10 then [Digit(n)]
    else IntToText(n / 10) + [Digit(n % 10)]
  }

  predicate IsDigit(c: char) { '0' <= c <= '9' }

  predicate AllDigits(s: string) { forall i :: 0 <= i < |s| ==> IsDigit(s[i]) }

  /** The value of a decimal digit string, most significant digit first. */
  function DigitsValue(s: string): int
    requires AllDigits(s)
  {
    if s == [] then 0
    else DigitsValue(s[..|s| - 1]) * 10 + ((s[|s| - 1] as int) - ('0' as int))
  }

  /** Reading back the text of an integer: an optional '-' then digits. */
  function TextValue(s: string): int
    requires |s| >= 1
    requires s[0] == '-' ==> AllDigits(s[1..])
    requires s[0] != '-' ==> AllDigits(s)
  {
    if s[0] == '-' then -DigitsValue(s[1..]) else DigitsValue(s)
  }

  /** The text of an integer reads back as that integer. */
  lemma {:induction false} IntToTextReadsBack(n: int)
    ensures TextValue(IntToText(n)) == n
    decreases if n < 0 then 1 - n else n
  {
    if n < 0 {
      NegativeTextReadsBack(n);
    } else {
      NaturalTextReadsBack(n);
    }
  }

  lemma NegativeTextReadsBack(n: int)
    requires n < 0
    ensures TextValue(IntToText(n)) == n
  {
    var s, t := IntToText(n), IntToText(-n);
    assert s == "-" + t;
    assert s[0] == '-' && s[1..] == t;
    NaturalTextReadsBack(-n);
    assert TextValue(s) == -DigitsValue(t);
  }

  lemma {:induction false} NaturalTextReadsBack(n: nat)
    ensures DigitsValue(IntToText(n)) == n
  {
    var s := IntToText(n);
    if n >= 10 {
      NaturalTextReadsBack(n / 10);
      assert s[..|s| - 1] == IntToText(n / 10);
    }
    DigitReadsBack(n % 10);
  }

  lemma DigitReadsBack(d: int)
    requires 0 <= d < 10
    ensures (Digit(d) as int) - ('0' as int) == d
  {
  }

  /**
   * A .NET number format: the fixed-point specifier "F<places>", or a custom
   * pattern such as the signed trend format.
   */
  datatype NumberFormat = Fixed(places: int) | Custom(pattern: string)

  /** The format string handed to ToString. */
  function FormatText(f: NumberFormat): (r: string)
    ensures f.Fixed? ==> |r| >= 2 && r[0] == 'F' && r[1..] == IntToText(f.places)
    ensures f.Custom? ==> r == f.pattern
  {
    match f
    case Fixed(places) => "F" + IntToText(places)
    case Custom(pattern) => pattern
  }

  lemma SingleDigitFormat(places: int)
    requires 0 <= places < 10
    ensures FormatText(Fixed(places)) == ['F', Digit(places)]
  {
  }

  const TempTrendFormat: NumberFormat := Custom("+0.0;-0.0;0")

  /** The per-quantity formats the day file writer uses. */
  datatype Formats = Formats(
    temp: NumberFormat, wind: NumberFormat, windAvg: NumberFormat, rain: NumberFormat,
    press: NumberFormat, uv: NumberFormat, sun: NumberFormat, et: NumberFormat)

  /**
   * The units and decimal places ReadIniFile settles on: each decimal count
   * is the ini override if present, else the unit's default. The average
   * wind default is the wind default before its own override; a Davis
   * station with DavisIncrementPressureDP gets one more pressure place.
   */
  predicate UnitsRead(ini: IniValues, u: StationUnits)
    requires UnitIndicesValid(ini)
  {
    var stationType := ini.stationType.GetOr(-1);
    var windDefault :=
      if ini.roundWindSpeed.GetOr(false) then 0 else WindDPlaceDefaults[ini.windUnit.GetOr(0)];
    var davisExtra :=
      if IsDavis(stationType) && ini.davisIncrementPressureDP.GetOr(false) then 1 else 0;
    && u.wind == ini.windUnit.GetOr(0)
    && u.press == ini.pressureUnit.GetOr(0)
    && u.rain == ini.rainUnit.GetOr(0)
    && u.temp == ini.tempUnit.GetOr(0)
    && u.windDPlaces == ini.windSpeedDecimals.GetOr(windDefault)
    && u.windAvgDPlaces == ini.windSpeedAvgDecimals.GetOr(windDefault)
    && u.windRunDPlaces == ini.windRunDecimals.GetOr(0)
    && u.sunshineDPlaces == ini.sunshineHrsDecimals.GetOr(1)
    && u.pressDPlaces == ini.pressDecimals.GetOr(PressDPlaceDefaults[u.press] + davisExtra)
    && u.rainDPlaces == ini.rainDecimals.GetOr(RainDPlaceDefaults[u.rain])
    && u.tempDPlaces == ini.tempDecimals.GetOr(TempDPlaceDefaults[u.temp])
    && u.uvDPlaces == ini.uvDecimals.GetOr(DefaultUVDPlaces(stationType))
  }

  /** The unit part of ReadIniFile, in the source's order of assignments. */
  method ReadStationUnits(ini: IniValues) returns (u: StationUnits)
    requires UnitIndicesValid(ini)
    ensures UnitsRead(ini, u)
  {
    var stationType := ini.stationType.GetOr(-1);
    var incrementPressureDP := ini.davisIncrementPressureDP.GetOr(false);
    u := StationUnits(0, 0, 0, 0, 0, 0, 0, 0, 0, 0, 0, 0);
    if stationType == 0 || stationType == 1 {
      u := u.(uvDPlaces := 1);
    } else {
      u := u.(uvDPlaces := 0);
    }
    u := u.(wind := ini.windUnit.GetOr(0), press := ini.pressureUnit.GetOr(0));
    u := u.(rain := ini.rainUnit.GetOr(0), temp := ini.tempUnit.GetOr(0));
    var roundWindSpeed := ini.roundWindSpeed.GetOr(false);

    u := u.(rainDPlaces := RainDPlaceDefaults[u.rain]);
    u := u.(tempDPlaces := TempDPlaceDefaults[u.temp]);
    u := u.(pressDPlaces := PressDPlaceDefaults[u.press]);
    u := u.(windDPlaces := if roundWindSpeed then 0 else WindDPlaceDefaults[u.wind]);
    u := u.(windAvgDPlaces := u.windDPlaces);

    // overrides from the ini file
    u := u.(windDPlaces := ini.windSpeedDecimals.GetOr(u.windDPlaces));
    u := u.(windAvgDPlaces := ini.windSpeedAvgDecimals.GetOr(u.windAvgDPlaces));
    u := u.(windRunDPlaces := ini.windRunDecimals.GetOr(u.windRunDPlaces));
    u := u.(sunshineDPlaces := ini.sunshineHrsDecimals.GetOr(1));
    if (stationType == 0 || stationType == 1) && incrementPressureDP {
      u := u.(pressDPlaces := u.pressDPlaces + 1);
    }
    u := u.(pressDPlaces := ini.pressDecimals.GetOr(u.pressDPlaces));
    u := u.(rainDPlaces := ini.rainDecimals.GetOr(u.rainDPlaces));
    u := u.(tempDPlaces := ini.tempDecimals.GetOr(u.tempDPlaces));
    u := u.(uvDPlaces := ini.uvDecimals.GetOr(u.uvDPlaces));
  }

  class Cumulus {
    var recordsBeganDate: string
    var rolloverHour: int
    var use10amInSummer: bool

    var tempFormat: NumberFormat
    var windFormat: NumberFormat
    var windAvgFormat: NumberFormat
    var rainFormat: NumberFormat
    var pressFormat: NumberFormat
    var uvFormat: NumberFormat
    var sunFormat: NumberFormat
    var etFormat: NumberFormat
    var windRunFormat: NumberFormat
    var tempTrendFormat: NumberFormat

    var noaaHeatingThreshold: real
    var noaaCoolingThreshold: real
    var chillHourSeasonStart: int
    var chillHourThreshold: real
    var calibRainMult: real
    var useZeroBearing: bool
    var units: StationUnits

    /** The object as allocated, before ReadIniFile: .NET default field values. */
    constructor Allocate()
      ensures units == StationUnits(0, 0, 0, 0, 0, 0, 0, 0, 0, 0, 0, 0)
      ensures recordsBeganDate == "" && rolloverHour == 0 && !use10amInSummer
    {
      recordsBeganDate := "";
      rolloverHour := 0;
      use10amInSummer := false;
      tempFormat, windFormat, windAvgFormat, rainFormat, pressFormat := Fixed(0), Fixed(0), Fixed(0), Fixed(0), Fixed(0);
      uvFormat, sunFormat, etFormat, windRunFormat, tempTrendFormat := Fixed(0), Fixed(0), Fixed(0), Fixed(0), Fixed(0);
      noaaHeatingThreshold, noaaCoolingThreshold := 0.0, 0.0;
      chillHourSeasonStart, chillHourThreshold := 0, 0.0;
      calibRainMult := 0.0;
      useZeroBearing := false;
      units := StationUnits(0, 0, 0, 0, 0, 0, 0, 0, 0, 0, 0, 0);
    }

    /**
     * Reads the settings, defaulting and sanitising them. Fails (the source
     * exits, or throws on a default-array lookup) when Cumulus.ini is absent
     * or a unit index lies outside its defaults array. `now` is the
     * long-date text of the current date, the default start date.
     */
    method ReadIniFile(ini: IniValues, now: string) returns (ok: bool)
      modifies this
      ensures ok <==> ini.iniExists && UnitIndicesValid(ini)
      ensures ok ==> SettingsRead(ini, now)
      ensures ok ==> 1 <= chillHourSeasonStart <= 12
      ensures ok ==> -99.0 <= noaaHeatingThreshold <= 150.0 && -99.0 <= noaaCoolingThreshold <= 150.0
    {
      if !ini.iniExists || !UnitIndicesValid(ini) {
        return false;
      }
      var u := ReadStationUnits(ini);

      recordsBeganDate := ini.startDate.GetOr(now);
      rolloverHour := ini.rolloverHour.GetOr(0);
      use10amInSummer := ini.use10amInSummer.GetOr(true);
      units := u;
      useZeroBearing := ini.useZeroBearing.GetOr(false);
      noaaHeatingThreshold := SanitiseThreshold(ini.heatingThreshold.GetOr(-1000.0), u.temp);
      noaaCoolingThreshold := SanitiseThreshold(ini.coolingThreshold.GetOr(-1000.0), u.temp);
      calibRainMult := ini.rainMult.GetOr(1.0);
      chillHourSeasonStart := SanitiseSeasonStart(ini.chillHourSeasonStart.GetOr(10));
      chillHourThreshold := SanitiseChillThreshold(ini.chillHourThreshold.GetOr(-999.0), u.temp);
      return true;
    }

    /**
     * The settings ReadIniFile takes from `ini`, each with its default when
     * the key is absent and the thresholds sanitised.
     */
    predicate SettingsRead(ini: IniValues, now: string)
      reads this
    {
      && UnitIndicesValid(ini)
      && recordsBeganDate == ini.startDate.GetOr(now)
      && rolloverHour == ini.rolloverHour.GetOr(0)
      && use10amInSummer == ini.use10amInSummer.GetOr(true)
      && UnitsRead(ini, units)
      && useZeroBearing == ini.useZeroBearing.GetOr(false)
      && calibRainMult == ini.rainMult.GetOr(1.0)
      && noaaHeatingThreshold == SanitiseThreshold(ini.heatingThreshold.GetOr(-1000.0), units.temp)
      && noaaCoolingThreshold == SanitiseThreshold(ini.coolingThreshold.GetOr(-1000.0), units.temp)
      && chillHourSeasonStart == SanitiseSeasonStart(ini.chillHourSeasonStart.GetOr(10))
      && chillHourThreshold == SanitiseChillThreshold(ini.chillHourThreshold.GetOr(-999.0), units.temp)
    }

    /** Every format string is the one the decimal places call for. */
    predicate FormatsDerived()
      reads this
    {
      && tempFormat == Fixed(units.tempDPlaces)
      && windFormat == Fixed(units.windDPlaces)
      && windAvgFormat == Fixed(units.windAvgDPlaces)
      && rainFormat == Fixed(units.rainDPlaces)
      && pressFormat == Fixed(units.pressDPlaces)
      && uvFormat == Fixed(units.uvDPlaces)
      && sunFormat == Fixed(units.sunshineDPlaces)
      && etFormat == Fixed(units.rainDPlaces + 1)
      && windRunFormat == Fixed(units.windRunDPlaces)
      && tempTrendFormat == TempTrendFormat
    }

    /** The formats in force, as the day file writer reads them. */
    function WriterFormats(): Formats
      reads this
    {
      Formats(tempFormat, windFormat, windAvgFormat, rainFormat, pressFormat, uvFormat, sunFormat, etFormat)
    }

    /** The format strings the constructor derives from the decimal places. */
    method SetFormats()
      modifies this`tempFormat, this`windFormat, this`windAvgFormat, this`rainFormat, this`pressFormat
      modifies this`uvFormat, this`sunFormat, this`etFormat, this`windRunFormat, this`tempTrendFormat
      ensures FormatsDerived()
    {
      tempFormat := Fixed(units.tempDPlaces);
      windFormat := Fixed(units.windDPlaces);
      windAvgFormat := Fixed(units.windAvgDPlaces);
      rainFormat := Fixed(units.rainDPlaces);
      pressFormat := Fixed(units.pressDPlaces);
      uvFormat := Fixed(units.uvDPlaces);
      sunFormat := Fixed(units.sunshineDPlaces);
      etFormat := Fixed(units.rainDPlaces + 1);
      windRunFormat := Fixed(units.windRunDPlaces);
      tempTrendFormat := TempTrendFormat;
    }
  }

  /**
   * `new Cumulus()`: read the settings, then derive the format strings.
   * None where the source would exit or throw.
   */
  method NewCumulus(ini: IniValues, now: string) returns (r: Option<Cumulus>)
    ensures r.Some? <==> ini.iniExists && UnitIndicesValid(ini)
    ensures r.Some? ==> fresh(r.value)
    ensures r.Some? ==> r.value.SettingsRead(ini, now) && r.value.FormatsDerived()
  {
    var c := new Cumulus.Allocate();
    var ok := c.ReadIniFile(ini, now);
    if !ok {
      return None;
    }
    c.SetFormats();
    return Some(c);
  }
}
