# CreateMissing in Dafny

CreateMissing is a companion tool for Cumulus MX weather-station software.
It reads the station's daily summary file (`dayfile.txt`), which holds one
line of highs, lows, totals and averages per meteorological day. It then walks
every day from the first recorded date up to yesterday:

- a day that is missing from the file is rebuilt from the monthly log files,
  which hold one sample every few minutes, and inserted in date order;
- a stored day with missing fields is rebuilt the same way, and only its
  missing fields are filled in;
- a complete day is left alone.

Finally the file is written back.

This project models that core in Dafny:

- the day-file record with its "missing" sentinels, and how a record is
  written to and parsed from a delimited line;
- loading and writing the day file;
- meteorological-day stepping, with a midnight or a 9 am / 10 am rollover;
- the log walk that builds one day's record, and the merge of a rebuilt
  record into a stored one;
- the main repair loop, as a class that owns the day file and the log cursor;
- the meteorological formulas, the unit conversions, the average-bearing
  calculation, line-ending detection and the hourly averages;
- the ini-file reading, with its sanitising of thresholds and its number
  formats.

Files:

| file | module | models |
|---|---|---|
| wrappers.dfy | Wrappers | Option |
| meteo_day.dfy | MeteoDay | SetStartTime, IncrementMeteoDate |
| meteolib.dfy | MeteoLib | MeteoLib.cs |
| utils.dfy | Utils | Utils.cs |
| weather_data_dict.dfy | WeatherDataDict | WeatherDataDict.cs |
| cumulus.dfy | Cumulus | Cumulus.cs (ReadIniFile, format strings) |
| dayfile.dfy | DayFile | DayFile.cs |
| day_builder.dfy | DayBuilder | one log line's effect on the day being built, ExtractSolarData, LastHourData |
| monthly_logs.dfy | MonthlyLogs | GetDayRecFromMonthly and its log cursor |
| reconcile.dfy | Reconcile | AddMissingData and the main loop of Program.cs |

Modelling conventions:

- **Times** are whole minutes on one timeline, so `t / 1440` is the calendar
  day. Doubles are `real`s.
- **Transcendental functions** (`exp`, `pow`, `log`, `sin`, `cos`, `atan2`,
  square roots) are parameters, in a `MathFns` value.
- **Culture-dependent text** is also a parameter. Formatting numbers, dates
  and times goes through `Formatter`, and parsing them through `Parsers`.
- **The file system** is a value: `LogEnv` gives the lines of each monthly
  log by name, the file name for a date, and `AddMonths`. The only thing
  demanded of `AddMonths` is that it moves a date forward.
- **Daylight saving** (`isDst`) and **today's date** are parameters.
- **A day-file record** (`Dayfilerec`) is a datatype value. The day file's
  list of records, the log cursor and the repair counters are class fields
  that the methods update.
- **The main loop** of Program.cs is specified by `Walked`, a function over
  the walk's state (`Walker`: the record list, the stored-day index, the
  date, the log cursor and the four counters). `Body` is one pass of the
  loop's body with its step, and `Gap` is the inner loop that creates
  missing days. The methods of `Repair` are proved to reach exactly the
  state these functions give, and the lemmas about `Walked` state what the
  walk keeps: ascending dates, the count of added days, and every loaded
  date and complete day. `BodyCountsEachDay` states that every date a
  pass handles is counted exactly once, unless a fatal line stops it.

## Model

| member | source | states |
|---|---|---|
| MeteoDay.Midnight | Program.cs:945-946 | DateTime.Date: the midnight at or before `t`, on the same calendar day |
| MeteoDay.Hour | Program.cs:220 | the hour of the day lies in 0..23 |
| MeteoDay.SetStartTime | Program.cs:934-962 | with a midnight rollover the time is kept; otherwise it is 09:00 of the same day, or 10:00 when 10 am in summer is set and summer time applies |
| MeteoDay.IncrementMeteoDate | Program.cs:964-967 | the next meteorological day's start: the rollover applied to the time a day later (what it advances by is IncrementAdvancesOneDay) |
| MeteoDay.IncrementAdvancesOneDay | Program.cs:964-967 | the next meteorological day start is later, on exactly the next calendar day, and exactly 24 h later with a midnight rollover |
| MeteoDay.StartTimesStayAtRollover | Program.cs:964-967 | with a 9 am rollover, each next day start is at 09:00 or 10:00 |
| MeteoDay.EarlierDayIsEarlier | Program.cs:86-88 | a time on an earlier calendar day is the earlier time, so comparing day starts orders days |
| MeteoLib.Div | MeteoLib.cs:325-375 | division by a non-zero divisor is real division; the zero-divisor result is an explicit parameter |
| MeteoLib.Abs | MeteoLib.cs:184-202 | the absolute value is non-negative and equals x or -x |
| MeteoLib.CToF | MeteoLib.cs:395-398 | Celsius to Fahrenheit, c·9/5 + 32 (its inverse is FtoC, CelsiusRoundTrip) |
| MeteoLib.FtoC | MeteoLib.cs:400-403 | Fahrenheit to Celsius, (f − 32)·5/9 (its inverse is CToF, FahrenheitRoundTrip) |
| MeteoLib.CelsiusRoundTrip | MeteoLib.cs:395-403 | FtoC(CToF(c)) == c |
| MeteoLib.FahrenheitRoundTrip | MeteoLib.cs:395-403 | CToF(FtoC(f)) == f |
| MeteoLib.WindChill | MeteoLib.cs:17-33 | at 10 °C or above, or with wind at 4.8 km/h or below, the chill is the temperature; otherwise it is the polynomial, and never above the temperature |
| MeteoLib.ActualVapourPressure2008 | MeteoLib.cs:258-261 | at 100 % humidity it is the saturation pressure; at 0 % it is 0 |
| MeteoLib.ApparentTemperature | MeteoLib.cs:45-50 | at 0 % humidity it is temp − 0.7·wind − 4 |
| MeteoLib.CapWind | MeteoLib.cs:68 | wind above 72 km/h is capped at 72; lower wind is kept |
| MeteoLib.FeelsLike | MeteoLib.cs:62-87 | below 10 °C it is the chill term, above 20 °C the apparent term with capped wind, and in between the linear blend of the two |
| MeteoLib.FeelsLikeBetweenTerms | MeteoLib.cs:77-84 | between 10 °C and 20 °C, feels-like lies between the chill term and the apparent term |
| MeteoLib.HeatIndex | MeteoLib.cs:101-130 | below 80 °F the heat index is the temperature; with no humidity adjustment it is the Rothfusz regression; the high-humidity adjustment only raises it |
| MeteoLib.HeatIndexAdjustmentsExclusive | MeteoLib.cs:119-126 | the low-humidity and high-humidity adjustments never both apply |
| MeteoLib.Humidex | MeteoLib.cs:387-393 | below 10 °C humidex is the temperature; otherwise it is temp + 5/9·(vapour pressure − 10) |
| MeteoLib.Truncate | Utils.cs:65 | the (int) cast truncates toward zero: same sign, and less than one unit closer to zero |
| MeteoLib.DewPoint | MeteoLib.cs:220-228 | at 0 % or 100 % humidity the dew point is the temperature |
| MeteoLib.CalculateWetBulbC2 | MeteoLib.cs:164-170 | at 100 % humidity the wet bulb is the temperature |
| MeteoLib.CalculateWetBulbCIterative | MeteoLib.cs:184-202 | at 100 % humidity the temperature is returned without iterating; otherwise the iteration's result |
| MeteoLib.CloudFactor | MeteoLib.cs:284-295 | with clear-sky radiation above zero the factor is at most 1, at least 0 for non-negative readings, and the ratio when measured ≤ clear sky; otherwise 0.5 |
| MeteoLib.Evapotranspiration | MeteoLib.cs:325-375 | the Penman-Monteith estimate clamped at 0, never negative |
| Utils.ConvertUserTempToC | Utils.cs:12-23 | °F input is converted to °C, and converting back gives the input; other units pass through |
| Utils.ConvertUserWindToKPH | Utils.cs:25-44 | m/s ×3.6, mph ×1.609344, knots ×1.852, km/h unchanged |
| Utils.ConvertUserWindToMS | Utils.cs:46-61 | m/s unchanged; mph, km/h and knots divided by their factors; an unknown unit gives 0 |
| Utils.WindConversionsAgree | Utils.cs:25-61 | for m/s and km/h input, the km/h result is 3.6 times the m/s result |
| Utils.BearingFromDegrees | Utils.cs:63-72 | an angle in −180..180 gives a bearing in 0..359, 90 − angle wrapped by 360 |
| Utils.CalcAvgBearing | Utils.cs:63-72 | whenever atan2 stays within ±π, the average bearing lies in 0..359 |
| Utils.NorthVectorBearing | Utils.cs:63-72 | a wind vector pointing north averages to bearing 0 |
| Utils.EastVectorBearing | Utils.cs:63-72 | a wind vector pointing east averages to bearing 90 |
| Utils.TryDetectNewLine | Utils.cs:74-102 | found exactly when a line feed occurs in the scanned prefix; then the ending is "\r\n" or "\n" according to the byte before the first line feed; otherwise the platform newline |
| WeatherDataDict.DataForHour | WeatherDataDict.cs:13-16 | the readings kept are exactly those whose timestamp shares the date and hour; empty exactly when none does |
| WeatherDataDict.DataForHourKeepsOrder | WeatherDataDict.cs:13-16 | the readings of a bucket keep the dictionary's enumeration order |
| WeatherDataDict.GetAverages | WeatherDataDict.cs:10-34 | null exactly when no reading is in the hour; otherwise each field is the mean of that hour's readings, with humidity and solar values truncated to int |
| WeatherDataDict.BucketDecidesAverages | WeatherDataDict.cs:10-34 | two times with the same date and hour get the same averages |
| WeatherDataDict.SameBucketSameData | WeatherDataDict.cs:13-16 | two times with the same date and hour select the same readings |
| WeatherDataDict.MinOf | WeatherDataDict.cs:18-28 | the smallest reading is one of the readings and no reading is smaller |
| WeatherDataDict.MaxOf | WeatherDataDict.cs:18-28 | the largest reading is one of the readings and no reading is larger |
| WeatherDataDict.SumBounds | WeatherDataDict.cs:18-28 | a sum of n readings, each within [lo, hi], lies within [n·lo, n·hi] |
| WeatherDataDict.MeanBetweenExtremes | WeatherDataDict.cs:18-28 | a mean lies between the smallest and the largest reading |
| WeatherDataDict.AveragesWithinReadings | WeatherDataDict.cs:18-28 | each hourly average lies between that hour's lowest and highest reading |
| Cumulus.DefaultUVDPlaces | Cumulus.cs:78-85 | UV gets one decimal place exactly for Davis stations, otherwise none |
| Cumulus.SanitiseThreshold | Cumulus.cs:123-132 | a NOAA threshold outside −99..150 is replaced by 18.3 (°C) or 65 (°F); the result is always in range |
| Cumulus.SanitiseSeasonStart | Cumulus.cs:136-138 | a chill-hour season start outside 1..12 becomes 1 |
| Cumulus.SanitiseChillThreshold | Cumulus.cs:139-143 | a chill threshold below −998 becomes 7 (°C) or 45 (°F) |
| Cumulus.IntToText | Cumulus.cs:45-54 | a number's text is non-empty and negative numbers start with '-' |
| Cumulus.NaturalTextReadsBack | Cumulus.cs:45-54 | the digits of a natural number read back as that number |
| Cumulus.NegativeTextReadsBack | Cumulus.cs:45-54 | the text of a negative number is '-' followed by the digits of its magnitude, and reads back |
| Cumulus.IntToTextReadsBack | Cumulus.cs:45-54 | round trip: the text of any integer reads back as that integer |
| Cumulus.FormatText | Cumulus.cs:45-54 | a fixed-point format reads "F" followed by its number of places |
| Cumulus.SingleDigitFormat | Cumulus.cs:45-54 | places 0..9 give the two-character format "F0".."F9" |
| Cumulus.ReadStationUnits | Cumulus.cs:90-119 | units and decimal places: ini overrides, else the unit defaults, plus one pressure place for Davis stations when configured |
| Cumulus.Cumulus.Allocate | Cumulus.cs:40-56 | a fresh settings object with zero units and no rollover |
| Cumulus.Cumulus.ReadIniFile | Cumulus.cs:58-144 | fails exactly when the ini file is missing or a unit is out of range; otherwise every setting is the ini value or its default, with sanitised thresholds |
| Cumulus.Cumulus.SetFormats | Cumulus.cs:45-54 | each format is "F" with the unit's places; ET gets one more place than rain |
| Cumulus.NewCumulus | Cumulus.cs:40-144 | a settings object exists exactly when the ini file reads; then its units and formats are as read |
| DayFile.Blank | DayFile.cs:649-682 | a new record has every high at −9999, every low at 9999 and every total at −9999 |
| DayFile.BlankHasMissingData | DayFile.cs:684-697 | a new record reports missing data |
| DayFile.MissingDataIgnoresTotals | DayFile.cs:684-697 | wind run, rain total and ET do not decide whether a record has missing data |
| DayFile.HasMissingData | DayFile.cs:684-697 | a record needs repair exactly when one of its 24 checked values is still at its missing sentinel |
| DayFile.Line | DayFile.cs:175-443 | a written line has its fixed 53 fields, the first being the formatted date |
| DayFile.RecToCsv | DayFile.cs:241-297 | no line exactly when a mandatory field is missing; otherwise the full line, starting with the date |
| DayFile.WrittenQuirks | DayFile.cs:385 | a missing low dew point (9999) is written as the number 9999, because the source compares it with −9999 |
| DayFile.BlankNotWritten | DayFile.cs:241-297 | a new, unfilled record is never written out |
| DayFile.ParseHead | DayFile.cs:445-470 | the mandatory fields parse exactly when the line is accepted, and the date comes from field 0 |
| DayFile.ParseMiddle | DayFile.cs:472-530 | the optional middle fields keep the record's date |
| DayFile.ParseTail | DayFile.cs:530-582 | the optional tail fields keep the record's date |
| DayFile.ParseDayFileRec | DayFile.cs:445-590 | a line is accepted only when its mandatory fields parse, with the date from field 0; otherwise it is rejected |
| DayFile.ReadPair | DayFile.cs:472-582 | a value/time pair that is written, or left empty when missing, reads back to the same value and time |
| DayFile.ReadIntPair | DayFile.cs:472-582 | an integer value/time pair likewise reads back unchanged |
| DayFile.ReadOptional | DayFile.cs:472-582 | an optional value that is written, or left empty when missing, reads back unchanged |
| DayFile.LineHeadAt | DayFile.cs:175-300 | the head fields of a written line are the record's formatted mandatory fields |
| DayFile.HeadReadsBack | DayFile.cs:445-470 | parsing the written head gives back the record's head |
| DayFile.LineMiddleAt | DayFile.cs:300-400 | the middle fields of a written line are the record's formatted values |
| DayFile.MiddleReadsBack | DayFile.cs:472-530 | parsing the written middle gives back the record's middle fields |
| DayFile.LineTailAt | DayFile.cs:400-443 | the tail fields of a written line are the record's formatted values |
| DayFile.TailReadsBack | DayFile.cs:530-582 | parsing the written tail gives back the whole record |
| DayFile.RecToCsvReadsBack | DayFile.cs:175-590 | round trip: a record whose values the formatter and parser carry back, once written, parses back to itself |
| DayFile.MissingAvgTempNotReloadable | DayFile.cs:302 | a written record with no average temperature has an empty mandatory field and cannot be loaded again |
| DayFile.ShortLineKeepsSentinels | DayFile.cs:472-582 | a 16-field line loads with every optional field at its sentinel |
| DayFile.ReadAttempts | DayFile.cs:62-116 | one parse attempt per line; an empty file makes a single failed attempt |
| DayFile.Successes | DayFile.cs:95-99 | the records that parse, in file order |
| DayFile.Failures | DayFile.cs:101-105 | the number of lines that fail to parse |
| DayFile.AscendingAfterPairwise | DayFile.cs:77-94 | each kept record later than the one before means strictly ascending dates, all after the start |
| DayFile.LoadFrom | DayFile.cs:62-116 | the read loop over the parse attempts: a failed parse is counted and the 20th aborts with 5, a date earlier than or equal to the last kept one aborts with 3 or 4 |
| DayFile.LoadFromOutcome | DayFile.cs:62-116 | a load completes exactly when the parsed records ascend strictly and fewer than 20 lines fail; it then keeps exactly those records in order |
| DayFile.LoadedStrictlyAscending | DayFile.cs:77-94 | a completed load holds strictly ascending dates |
| DayFile.EmptyFileLoadsNothing | DayFile.cs:66-116 | an empty file loads no records and counts one error |
| DayFile.SeparatorsAsWritten | DayFile.cs:52-55 | as written: with no day file all separators stay empty, and with no line feed the line ending stays empty |
| DayFile.SeparatorsCorrected | DayFile.cs:52-57 | corrected: with no day file the culture's separators and the platform newline; otherwise the detected ones |
| DayFile.WrittenText | DayFile.cs:140-173 | the text WriteDayFile produces: each writable record's joined line plus the line ending, in list order |
| DayFile.Join | DayFile.cs:158-163 | one field joins to itself |
| DayFile.WrittenTextAppend | DayFile.cs:158-163 | the written text of two record lists is the text of the first followed by the text of the second |
| DayFile.WrittenTextSingle | DayFile.cs:158-163 | one record writes its joined line plus the line ending, or nothing when RecToCsv refuses it |
| DayFile.MissingFileRunsTogether | DayFile.cs:156 | as written, with no day file two records are written with nothing between their lines |
| DayFile.CorrectedLinesTerminated | DayFile.cs:52-55 | with the corrected separators every line ends in a non-empty line ending |
| DayFile.ReadDayRecs | DayFile.cs:62-116 | the read loop yields the outcome LoadFrom defines: exit 3, 4 or 5 at the offending line, or the kept records and the error count |
| DayFile.DayFile.Allocate | DayFile.cs:23-37 | an empty record list and empty separators |
| DayFile.DayFile.LoadDayFile | DayFile.cs:40-138 | with no file, one blank record for yesterday; otherwise the read loop's outcome, whose records replace the list; the separators are the corrected ones of the Findings row, the line ending as detected |
| DayFile.DayFile.WriteDayFile | DayFile.cs:140-173 | the text written is each record's line plus the line ending, in list order, skipping refused records |
| DayBuilder.Window | Program.cs:213-224 | the day runs from its start to the next day start; with a 9 am rollover, solar data is taken from the calendar day instead |
| DayBuilder.SolarWindowIsCalendarDay | Program.cs:218-224 | with a 9 am rollover the solar window is midnight to midnight of the day's date |
| DayBuilder.NewDayRec | Program.cs:189-200 | a new record for the day, with zero ET, sunshine, solar, UV, hourly rain and degree days, and no chill hours |
| DayBuilder.InitialAcc | Program.cs:188-236 | the locals before the first log line: the new record, not started or finished, no samples, no last entry, zero totals and an empty last-hour list |
| DayBuilder.RaiseHigh | Program.cs:470-543 | a high becomes the larger of the two, timed at the sample when the sample is higher |
| DayBuilder.LowerLow | Program.cs:470-543 | a low becomes the smaller of the two, timed at the sample when the sample is lower |
| DayBuilder.RaiseHighInt | Program.cs:470-543 | the integer high is likewise the larger |
| DayBuilder.LowerLowInt | Program.cs:470-543 | the integer low is likewise the smaller |
| DayBuilder.ExtractSolarData | Program.cs:906-932 | sunshine, ET, UV and solar only rise, each change comes from the extra-log value, and temperature extremes and sums are untouched |
| DayBuilder.ExtractSolarDataIdempotent | Program.cs:906-932 | feeding the same extra-log values twice changes nothing more |
| DayBuilder.LoggedLowElseComputed | Program.cs:353-367 | a logged low below the current one wins; otherwise the computed value lowers the low |
| DayBuilder.LoggedHighElseComputed | Program.cs:370-384 | a logged high above the current one wins; otherwise the computed value raises the high |
| DayBuilder.GustAndBearing | Program.cs:337-349 | the high gust never falls, and its bearing changes only with it |
| DayBuilder.Extremes | Program.cs:332-545 | each high and low follows its sample, and the rain total is the sample's rain today |
| DayBuilder.DegreeDays | Program.cs:554-581 | heating degree days grow only below the heating threshold; cooling degree days only above the cooling threshold |
| DayBuilder.HeatingAfter | Program.cs:566-573 | heating degree days change only below the heating threshold, and never fall over a non-negative interval |
| DayBuilder.CoolingAfter | Program.cs:574-581 | cooling degree days change only above the cooling threshold and not below the heating one, and never fall |
| DayBuilder.DegreeDaysSplit | Program.cs:554-581 | splitting an interval in two adds the same degree days as the whole interval |
| DayBuilder.EvictOlderThan | Program.cs:624-646 | drops exactly the leading entries older than the cutoff |
| DayBuilder.EvictKeepsLastHour | Program.cs:624-646 | on a time-ordered list the survivors are exactly the entries at or after the cutoff |
| DayBuilder.EvictKeepsChronological | Program.cs:629-633 | eviction keeps a time-ordered list in time order |
| DayBuilder.EvictKeepsBound | Program.cs:629-633 | eviction adds no entry later than the last sample |
| DayBuilder.AppendKeepsChronological | Program.cs:548-551 | appending the newest entry keeps the list in time order |
| DayBuilder.HourRain | Program.cs:624-646 | the high hourly rain never falls; a new high is the rain over the kept last-hour entries |
| DayBuilder.Sums | Program.cs:554-581 | wind run grows by interval × speed; extremes unchanged |
| DayBuilder.Count | Program.cs:324-329 | the sample count rises by one; the first sample sets the last temperature and time |
| DayBuilder.BeforeEnd | Program.cs:332-583 | a sample before the day's end only raises highs and lowers lows, sets today's rain and adds to the last-hour list when rain is positive |
| DayBuilder.AtEnd | Program.cs:585-621 | the closing sample finishes the day without changing extremes |
| DayBuilder.HourRainKeepsChronological | Program.cs:624-646 | the list left by the hourly-rain check stays in time order, no entry later than the sample |
| DayBuilder.CheckHourRain | Program.cs:624-646 | the hourly-rain check is HourRain on the record's high and the last-hour list; the extremes and everything else are unchanged |
| DayBuilder.Absorb | Program.cs:324-646 | one sample in the day is counted and its effects only strengthen the record |
| DayBuilder.AbsorbTakesExtremes | Program.cs:332-545 | a sample before the day's end moves every high and low as Extremes says, and becomes the last temperature |
| DayBuilder.AbsorbRaisesHighTemp | Program.cs:470-474 | a sample before the day's end leaves the high temperature at least its own |
| DayBuilder.AbsorbFeedsSums | Program.cs:553-617 | every sample feeds wind run, the time-weighted temperature, the wind vector and the degree days over the interval since the previous sample; the first over an empty interval |
| DayBuilder.SumsFedCarries | Program.cs:553-617 | the sums fed stay fed across steps that leave them alone |
| DayBuilder.AbsorbChecksHourRain | Program.cs:547-646 | every sample ends with the hourly-rain check, on the list with its rain total appended when it is not the day's first minute and it has rained |
| DayBuilder.CheckedListChronological | Program.cs:547-646 | the list the check leaves, from a time-ordered list before the sample, is in time order |
| DayBuilder.AbsorbKeepsLastHourChronological | Program.cs:547-646 | samples taken in time order keep the last-hour list in time order, no entry later than the last sample |
| DayBuilder.Finalise | Program.cs:648-655 | the average temperature is total temp / minutes (the high when no minutes were seen); the dominant bearing is in 0..359 |
| DayBuilder.SolarStep | Program.cs:303-308 | solar data is taken only inside the solar window |
| DayBuilder.LineStep | Program.cs:289-692 | an unreadable line is fatal at its number; any other line only strengthens the record |
| DayBuilder.CursorBack | Program.cs:659-680 | where the cursor goes when the day is over: back to the last solar line when the solar window differs from the day, otherwise back one line unless at line 0 |
| DayBuilder.LineStepInOrder | Program.cs:289-647 | a readable entry no later than the day's end, met in time order, never ends the pass |
| DayBuilder.LineStepTakesSample | Program.cs:324-545 | a sample of the day is taken and raises the high temperature to at least its own |
| DayBuilder.LineStepHighTemp | Program.cs:470-474 | one line leaves the high temperature as it was or sets it to its own sample, at its time |
| DayBuilder.LineStepLeavesMeanUnset | Program.cs:289-647 | a line that does not end the day leaves the mean temperature and dominant bearing untouched |
| DayBuilder.Scan | Program.cs:289-692 | a pass that runs out has consumed every line |
| DayBuilder.ScanHighTempCoversSample | Program.cs:289-692 | over time-ordered log lines, the high temperature a pass ends with is at least that of every sample of the day it met |
| DayBuilder.ScanHighTempIsASample | Program.cs:289-692 | the high temperature a pass ends with is the one it started with or one sample's, at its time |
| DayBuilder.ScanLeavesMeanUnset | Program.cs:648-692 | a pass that runs out of lines has finalised nothing |
| DayBuilder.ScanWithoutSamples | Program.cs:684-689 | a pass that meets no line of the day builds nothing |
| DayBuilder.ScanNeedsFiveSamples | Program.cs:648-682 | a pass returns a record only when at least five samples were seen |
| DayBuilder.ScanDominates | Program.cs:289-692 | a record a pass returns strengthens the record it started from |
| MonthlyLogs.FilePass | Program.cs:270-734 | the file loop: the day's month file, then once the next month's when the first runs out before the day is over |
| MonthlyLogs.DayRec | Program.cs:187-740 | GetDayRecFromMonthly as a function: a new record for the day, walked through the files from the cursor |
| MonthlyLogs.FilePassDominates | Program.cs:270-734 | the record the log walk builds strengthens the one it started from |
| MonthlyLogs.BuiltRecordBounds | Program.cs:187-740 | a built record is for the day asked for, has no chill hours, and has non-negative ET, sunshine, solar, UV and hourly rain |
| MonthlyLogs.NoLogNoRecord | Program.cs:705-721 | with no log file for the day, no record is built and the cursor is unchanged |
| MonthlyLogs.NoSampleNoRecord | Program.cs:684-689 | a day without a logged sample builds no record |
| MonthlyLogs.FilePassWithoutSamples | Program.cs:684-721 | the file loop meeting no sample of the day builds no record |
| MonthlyLogs.ExhaustedFileLeavesRecordUnfinalised | Program.cs:723-737 | a file that runs out after the closing sample, or the second file running out, returns the record unfinalised: mean temperature and dominant bearing still missing |
| MonthlyLogs.NextFileMissingFinalises | Program.cs:705-719 | when the day's file runs out before the day closes and the next month's is missing, the day is finalised and built however few samples it had |
| MonthlyLogs.ReadPass | Program.cs:289-692 | the per-file line loop yields what Scan defines |
| MonthlyLogs.LogCursor.constructor | Program.cs:14-16 | no log file is loaded yet |
| MonthlyLogs.LogCursor.WalkFiles | Program.cs:270-734 | the file loop yields the result and cursor FilePass defines |
| MonthlyLogs.LogCursor.GetDayRecFromMonthly | Program.cs:187-740 | the result and the cursor left behind are those of DayRec, the walk over this month's log and, once, the next month's |
| Reconcile.MergeMissing | Program.cs:757-894 | the merged record keeps the date, the chill hours and the solar and UV times of the stored record |
| Reconcile.MergeFillsOnlyMissing | Program.cs:757-894 | for every field the merge fills (the gust bearing with the gust), a value present in the stored record is kept and a missing one takes the rebuilt value (for the solar and UV highs at the stored time) |
| Reconcile.MergeKeepsCompleteDay | Program.cs:757-894 | merging into a complete record changes nothing |
| Reconcile.MergeRepairsAllButChillHours | Program.cs:757-894 | merging a complete rebuilt record fills every field, so missing data remains exactly when the chill hours were missing |
| Reconcile.MergeIdempotent | Program.cs:757-894 | merging the same rebuilt record twice is the same as merging it once |
| Reconcile.FirstStored | Program.cs:45 | the first stored date, or DateTime.MaxValue for an empty file |
| Reconcile.WalkStart | Program.cs:44-58 | the walk starts at the records-began date or at the first stored date, whichever is earlier |
| Reconcile.Rebuilder | Program.cs:187-740 | GetDayRecFromMonthly as a day source; when months move forward it is one Rebuilds accepts |
| Reconcile.RebuildsOnItsDay | Program.cs:189-200 | a record rebuilt from the logs is dated the day asked for |
| Reconcile.Builts | Program.cs:103-108 | the records the inner loop built, in the order it built them |
| Reconcile.ResultsCounted | Program.cs:96-108 | every rebuilt day gave exactly one of a record, no data or a fatal line |
| Reconcile.Gap | Program.cs:88-113 | the inner loop's run: one rebuilt day per date from `d` while it lies before the stored day; none exactly when `d` is not before it |
| Reconcile.GapStep | Program.cs:96-113 | one more day of the inner loop: rebuilt from the cursor the day before left, then a stop on a fatal line or a step of one meteorological day |
| Reconcile.GapWithin | Program.cs:88-113 | the records the inner loop inserts are dated within the gap and, unless stopped, on earlier calendar days than the date it ends on |
| Reconcile.GapAscending | Program.cs:88-113 | the records the inner loop inserts are in strictly ascending date order |
| Reconcile.GapFacts | Program.cs:88-113 | both facts together, as the outer loop uses them |
| Reconcile.GapAdvances | Program.cs:88-113 | a run not stopped by a fatal line reaches the stored day, on a later calendar day than it started |
| Reconcile.GapFatals | Program.cs:88-113 | a gap's run meets a fatal line at most once, exactly when it was stopped |
| Reconcile.Placed | Program.cs:96-108 | one inner-loop pass: a built record goes in front of the stored day, which moves up one; a day with no data is counted; a fatal line changes nothing |
| Reconcile.Spliced | Program.cs:88-113 | after the inner loop: every built record inserted in order in front of the stored day, which moves past them; added and no-data counts grow by those days |
| Reconcile.SplicedStep | Program.cs:96-108 | one more inner-loop pass extends the splice as Placed says |
| Reconcile.Body | Program.cs:86-139 | one pass of the outer loop's body and step: no counter falls, and the pass counts a day, stops, or leaves the list and index alone |
| Reconcile.Repaired | Program.cs:124-139 | the branch for a stored day with missing data and the step: a built day merged in and counted as updated, no data counted, or a stop on a fatal line |
| Reconcile.AfterGap | Program.cs:119-122 | after the inner loop: its records spliced in front of the stored day, the index and the date stepped back one so that the loop's step lands on the stored day |
| Reconcile.BodyCountsEachDay | Program.cs:101-135 | each date a pass handles raises the total of the four counters by exactly one, except the date a fatal line stopped: one date for a stored day, every date of the inner loop for a stored day ahead |
| Reconcile.Walked | Program.cs:83-146 | the outer loop: passes of Body while stored days remain, until a fatal line or a date not before today |
| Reconcile.BodyAdvances | Program.cs:113-139 | unless stopped, a pass moves the date on |
| Reconcile.WalkedStep | Program.cs:83-146 | the walk is one pass of the body, then a stop on a fatal line or at today, or the rest of the walk |
| Reconcile.WalkAtStart | Program.cs:80-83 | the walk's invariant holds at the first stored day with nothing added |
| Reconcile.WalkPasses | Program.cs:125-145 | passing over a stored day keeps the walk invariant: dates ascend and the days not yet reached are the original ones |
| Reconcile.WalkRepairs | Program.cs:125-136 | replacing the current day by a record with the same date keeps the walk invariant |
| Reconcile.WalkAfterGap | Program.cs:88-119 | splicing an ascending run dated before the stored day and after its neighbour keeps the walk invariant, the stored day moved past the run |
| Reconcile.AfterGapWalk | Program.cs:88-123 | the records a gap pass inserts keep the walk invariant at the stored day |
| Reconcile.GapLeavesNeighbourBehind | Program.cs:119-122 | after a gap run, the day before the stored day lies on an earlier calendar day than the date reached |
| Reconcile.RestartStaysAhead | Program.cs:119-122 | stepping back one day after filling a gap lands after every record already passed |
| Reconcile.SplicedNeighbourBehind | Program.cs:119-139 | after the step back and the loop's step, the day before the stored day and the start lie before the new date |
| Reconcile.AfterGapAhead | Program.cs:119-139 | the same, stated on the walk's state after a gap pass |
| Reconcile.AfterGapKeepsWalk | Program.cs:86-139 | a gap pass keeps the days ascending and counted and, unless stopped, the outer loop's invariant |
| Reconcile.StoredDayPasses | Program.cs:131-139 | passing a complete stored day keeps the outer loop's invariant at the next stored day and date |
| Reconcile.StoredDayKeeps | Program.cs:127-139 | repairing a stored day in place with a record of the same date keeps the outer loop's invariant |
| Reconcile.RepairedKeepsWalk | Program.cs:127-139 | a pass that repairs, or fails to repair, a stored day keeps the outer loop's invariant unless stopped |
| Reconcile.BodyKeepsWalk | Program.cs:86-139 | every pass of the body keeps the days ascending and counted and, unless stopped, the outer loop's invariant |
| Reconcile.Kept | Program.cs:83-146 | what the walk keeps of the loaded days: every loaded date, every complete loaded day unchanged, and new dates only from the start up to before the last loaded day |
| Reconcile.CompleteDaysAre | Program.cs:127-136 | CompleteDays holds exactly the stored days with nothing missing |
| Reconcile.KeptAtStart | Program.cs:83 | the loaded days trivially keep themselves |
| Reconcile.KeptAfterGap | Program.cs:88-119 | inserting days from the start up to before a stored day keeps every loaded date and complete day, and adds only days between the start and the last loaded day |
| Reconcile.KeptAfterRepair | Program.cs:127-130 | repairing a day with missing data in place keeps the same |
| Reconcile.KeptBeforeToday | Program.cs:141-145 | when the loaded days lie before today, every added day lies between the start and today |
| Reconcile.BodyKeepsKept | Program.cs:86-139 | every pass keeps every loaded date and complete loaded day, and adds only days between the start and the last loaded day |
| Reconcile.PassKeepsInv | Program.cs:83-146 | a pass from a state with the outer loop's invariant reaches a state with the days ascending, counted and kept and, unless stopped, the invariant again |
| Reconcile.EveryPassKeepsWalk | Program.cs:83-146 | with days rebuilt on their own date, every pass keeps the outer loop's invariant |
| Reconcile.WalkEndsDone | Program.cs:83 | running out of stored days with the invariant leaves the days ascending, counted and kept |
| Reconcile.WalkedInduction | Program.cs:83-146 | induction over the walk: an invariant every pass keeps, and that implies the goal past the last stored day, gives the goal at the walk's end |
| Reconcile.WalkedKeepsWhenPassesKeep | Program.cs:83-146 | the whole walk ends with the days strictly ascending, the list grown by exactly the days added, and every loaded date and complete day kept |
| Reconcile.WalkedKeeps | Program.cs:83-146 | the same, for the walk over the days GetDayRecFromMonthly rebuilds |
| Reconcile.Repair.constructor | Program.cs:18-21 | the counters start at zero |
| Reconcile.Repair.AddMissingData | Program.cs:742-897 | the day is rebuilt from the logs; a built day is merged into the stored record and counted as updated, a day with no data is counted, and a fatal line changes nothing |
| Reconcile.Repair.CreateMissingDay | Program.cs:93-108 | the day is rebuilt from the cursor as the day source says, and the list and counters become what Placed gives |
| Reconcile.Repair.FillGap | Program.cs:88-113 | the inner loop runs exactly as Gap says, and the list and counters become what Spliced gives |
| Reconcile.Repair.CheckStoredDay | Program.cs:124-139 | the state after the branch for a stored day on or before the date, with the step, is the one Body gives |
| Reconcile.Repair.PassGap | Program.cs:86-123 | the state after the branch for a stored day ahead, with the step, is the one Body gives |
| Reconcile.Repair.PassDay | Program.cs:83-145 | one pass leaves the state from which the rest of the walk gives what the whole walk from before gives |
| Reconcile.Repair.WalkDays | Program.cs:83-146 | the walk ends in exactly the list, cursor, counters and stop Walked gives from the start |
| Reconcile.Repair.Run | Program.cs:44-152 | exit 1 unless confirmed, exit 1 when the start is not before today, exit 1 exactly when otherwise a fatal line stopped the walk; after the walk the state is Walked's, the days ascend strictly, the list grows by the days added, every loaded date and complete day is kept, and when the loaded days lie before today every added day lies between the start and today; a save writes exactly the final list |

## Left out

- Console output, log messages and the user prompt are left out. The prompt is the `confirmed` parameter of Run.
- The `.sav` backup check, the rename of the old day file and the outer exception handlers are left out. Writing the day file returns its text instead of writing to disk.
- File reads are left out. `File.Exists`, `File.ReadAllLines` and the regex and CSV splitting of each line are replaced by lines already split into fields.
- Field and date separator detection (`GetLogFileSeparators`) is a parameter, `fromFile`.
- `GetLogFileName` is the `fileName` parameter.
- `DateTime.AddMonths` is the `addMonths` parameter. The model only requires that it moves a date forward.
- `DateTime.Today` and the time zone's daylight-saving test are parameters.
- Culture-specific number, date and time formatting and parsing are `Formatter`/`Parsers` parameters. The read-back lemmas assume that what is formatted parses back.
- Floating point is modelled as exact reals. Math.Exp, Pow, Log, Sin, Cos, Atan2 and Sqrt are `MathFns` parameters. A result of dividing by zero is its own parameter.
- MeteoLib.CalculateWetBulbCIterative: the convergence loop is the `converge` parameter, so nothing is said about how it converges.
- Dayfilerec is a value. The source mutates its record objects in place, but no record object is shared in the source, so nothing depends on that aliasing.
- DayFile.DayFile.LoadDayFile: assigns the corrected separators (SeparatorsCorrected): with no day file the culture's separators and the platform newline, and the platform newline when a file has no line feed. The source leaves them empty; SeparatorsAsWritten and MissingFileRunsTogether state that behaviour, as the Findings row records.
- MeteoLib.CalculateWetBulbC, SaturationVapourPressure1980 and LongwaveRadiation are modelled without contracts of their own. Their callers' contracts cover them.
- CalibRainMult and the station options that GetDayRecFromMonthly does not read are carried but not used.
- The repaired day keeps the quirks of the source, and the model states each one:
  - chill hours are never filled (MergeRepairsAllButChillHours);
  - a record that was not finalised is returned when the logs run out after the closing sample (ExhaustedFileLeavesRecordUnfinalised);
  - a finalised record can come from fewer than five samples when the next month's file is missing (NextFileMissingFinalises).

## Findings

| source | as written | input that shows it | evidently intended | confidence | as-written member | corrected member |
|---|---|---|---|---|---|---|
| DayFile.cs:52-55 | With no day file, LineEnding, FieldSep and DateSep are never set and stay empty. The same happens to LineEnding when the file has no line feed. WriteDayFile then writes every record with an empty NewLine, so all the lines run together on one line. | no dayfile.txt, so one blank record for yesterday, which the walk fills and inserts days before | fall back to the culture's separators and the platform newline | not executed | DayFile.MissingFileRunsTogether | DayFile.CorrectedLinesTerminated |
