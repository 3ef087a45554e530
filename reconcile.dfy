/**
 * Repairing the day file (Program.cs Main and AddMissingData): walk the
 * meteorological days from the records-began date, create the days the
 * file lacks from the monthly logs, fill in the missing fields of the
 * days it has, and count what was done.
 */
module Reconcile {
  import opened Wrappers
  import opened Cumulus
  import opened DayFile
  import MeteoDay
  import opened DayBuilder
  import opened MonthlyLogs

  // ---- filling in a stored day ----

  /** A stored value, or the rebuilt one when the stored one is missing. */
  function Fill<T>(missing: bool, stored: T, rebuilt: T): T {
    if missing then rebuilt else stored
  }

  /**
   * AddMissingData's update of a stored day from a rebuilt one: each field
   * still at its sentinel takes the rebuilt value, with its time where it
   * has one; the gust bearing goes with the gust. High solar and high UV
   * take the value only, and chill hours are never filled.
   */
  function MergeMissing(r: Dayfilerec, n: Dayfilerec): (m: Dayfilerec)
    ensures m.date == r.date && m.chillHours == r.chillHours
    ensures m.highSolar.time == r.highSolar.time && m.highUv.time == r.highUv.time
  {
    var gust := r.highGust.value == NoHigh;
    r.(highGust := Fill(gust, r.highGust, n.highGust),
       highGustBearing := Fill(gust, r.highGustBearing, n.highGustBearing),
       lowTemp := Fill(r.lowTemp.value == NoLow, r.lowTemp, n.lowTemp),
       highTemp := Fill(r.highTemp.value == NoHigh, r.highTemp, n.highTemp),
       lowPress := Fill(r.lowPress.value == NoLow, r.lowPress, n.lowPress),
       highPress := Fill(r.highPress.value == NoHigh, r.highPress, n.highPress),
       highRainRate := Fill(r.highRainRate.value == NoHigh, r.highRainRate, n.highRainRate),
       totalRain := Fill(r.totalRain == NoHigh, r.totalRain, n.totalRain),
       avgTemp := Fill(r.avgTemp == NoHigh, r.avgTemp, n.avgTemp),
       windRun := Fill(r.windRun == NoHigh, r.windRun, n.windRun),
       highAvgWind := Fill(r.highAvgWind.value == NoHigh, r.highAvgWind, n.highAvgWind),
       lowHumidity := Fill(r.lowHumidity.value == NoLowInt, r.lowHumidity, n.lowHumidity),
       highHumidity := Fill(r.highHumidity.value == NoHighInt, r.highHumidity, n.highHumidity),
       et := Fill(r.et == NoHigh, r.et, n.et),
       sunshineHours := Fill(r.sunshineHours == NoHigh, r.sunshineHours, n.sunshineHours),
       highHeatIndex := Fill(r.highHeatIndex.value == NoHigh, r.highHeatIndex, n.highHeatIndex),
       highAppTemp := Fill(r.highAppTemp.value == NoHigh, r.highAppTemp, n.highAppTemp),
       lowAppTemp := Fill(r.lowAppTemp.value == NoLow, r.lowAppTemp, n.lowAppTemp),
       highHourlyRain := Fill(r.highHourlyRain.value == NoHigh, r.highHourlyRain, n.highHourlyRain),
       lowWindChill := Fill(r.lowWindChill.value == NoLow, r.lowWindChill, n.lowWindChill),
       highDewPoint := Fill(r.highDewPoint.value == NoHigh, r.highDewPoint, n.highDewPoint),
       lowDewPoint := Fill(r.lowDewPoint.value == NoLow, r.lowDewPoint, n.lowDewPoint),
       dominantWindBearing := Fill(r.dominantWindBearing == NoLowInt, r.dominantWindBearing, n.dominantWindBearing),
       heatingDegreeDays := Fill(r.heatingDegreeDays == NoHigh, r.heatingDegreeDays, n.heatingDegreeDays),
       coolingDegreeDays := Fill(r.coolingDegreeDays == NoHigh, r.coolingDegreeDays, n.coolingDegreeDays),
       highSolar := Fill(r.highSolar.value == NoHighInt, r.highSolar, r.highSolar.(value := n.highSolar.value)),
       highUv := Fill(r.highUv.value == NoHigh, r.highUv, r.highUv.(value := n.highUv.value)),
       highHumidex := Fill(r.highHumidex.value == NoHigh, r.highHumidex, n.highHumidex),
       highFeelsLike := Fill(r.highFeelsLike.value == NoHigh, r.highFeelsLike, n.highFeelsLike),
       lowFeelsLike := Fill(r.lowFeelsLike.value == NoLow, r.lowFeelsLike, n.lowFeelsLike))
  }

  /** None of the fields the merge fills is at its sentinel. */
  predicate Complete(r: Dayfilerec) {
    && r.highGust.value != NoHigh && r.lowTemp.value != NoLow && r.highTemp.value != NoHigh
    && r.lowPress.value != NoLow && r.highPress.value != NoHigh && r.highRainRate.value != NoHigh
    && r.totalRain != NoHigh && r.avgTemp != NoHigh && r.windRun != NoHigh && r.highAvgWind.value != NoHigh
    && r.lowHumidity.value != NoLowInt && r.highHumidity.value != NoHighInt
    && r.et != NoHigh && r.sunshineHours != NoHigh
    && r.highHeatIndex.value != NoHigh && r.highAppTemp.value != NoHigh && r.lowAppTemp.value != NoLow
    && r.highHourlyRain.value != NoHigh && r.lowWindChill.value != NoLow
    && r.highDewPoint.value != NoHigh && r.lowDewPoint.value != NoLow
    && r.dominantWindBearing != NoLowInt
    && r.heatingDegreeDays != NoHigh && r.coolingDegreeDays != NoHigh
    && r.highSolar.value != NoHighInt && r.highUv.value != NoHigh
    && r.highHumidex.value != NoHigh && r.highFeelsLike.value != NoHigh && r.lowFeelsLike.value != NoLow
  }

  /**
   * A stored value that is present is never overwritten, so a day that was
   * edited by hand keeps its edits: a complete day is left as it is.
   */
  lemma MergeKeepsCompleteDay(r: Dayfilerec, n: Dayfilerec)
    requires Complete(r)
    ensures MergeMissing(r, n) == r
  {
  }

  /**
   * Filling from a complete rebuilt day leaves nothing missing but chill
   * hours, which the rebuilt day never has: the day still needs repair
   * exactly when its chill hours are missing.
   */
  lemma MergeRepairsAllButChillHours(r: Dayfilerec, n: Dayfilerec)
    requires Complete(n)
    ensures Complete(MergeMissing(r, n))
    ensures HasMissingData(MergeMissing(r, n)) <==> r.chillHours == NoHigh
  {
  }

  /** Filling twice from the same rebuilt day changes nothing the second time. */
  lemma MergeIdempotent(r: Dayfilerec, n: Dayfilerec)
    ensures MergeMissing(MergeMissing(r, n), n) == MergeMissing(r, n)
  {
  }

  /**
   * Every field the merge fills: a value that was present keeps its stored
   * value, one that was missing takes the rebuilt one (for high solar and
   * high UV the rebuilt value with the stored time).
   */
  lemma MergeFillsOnlyMissing(r: Dayfilerec, n: Dayfilerec)
    ensures var m := MergeMissing(r, n);
      && (r.highGust.value != NoHigh ==> m.highGust == r.highGust) && (r.highGust.value == NoHigh ==> m.highGust == n.highGust)
      && (r.highGust.value != NoHigh ==> m.highGustBearing == r.highGustBearing) && (r.highGust.value == NoHigh ==> m.highGustBearing == n.highGustBearing)
      && (r.lowTemp.value != NoLow ==> m.lowTemp == r.lowTemp) && (r.lowTemp.value == NoLow ==> m.lowTemp == n.lowTemp)
      && (r.highTemp.value != NoHigh ==> m.highTemp == r.highTemp) && (r.highTemp.value == NoHigh ==> m.highTemp == n.highTemp)
      && (r.lowPress.value != NoLow ==> m.lowPress == r.lowPress) && (r.lowPress.value == NoLow ==> m.lowPress == n.lowPress)
      && (r.highPress.value != NoHigh ==> m.highPress == r.highPress) && (r.highPress.value == NoHigh ==> m.highPress == n.highPress)
      && (r.highRainRate.value != NoHigh ==> m.highRainRate == r.highRainRate) && (r.highRainRate.value == NoHigh ==> m.highRainRate == n.highRainRate)
      && (r.totalRain != NoHigh ==> m.totalRain == r.totalRain) && (r.totalRain == NoHigh ==> m.totalRain == n.totalRain)
      && (r.avgTemp != NoHigh ==> m.avgTemp == r.avgTemp) && (r.avgTemp == NoHigh ==> m.avgTemp == n.avgTemp)
      && (r.windRun != NoHigh ==> m.windRun == r.windRun) && (r.windRun == NoHigh ==> m.windRun == n.windRun)
      && (r.highAvgWind.value != NoHigh ==> m.highAvgWind == r.highAvgWind) && (r.highAvgWind.value == NoHigh ==> m.highAvgWind == n.highAvgWind)
      && (r.lowHumidity.value != NoLowInt ==> m.lowHumidity == r.lowHumidity) && (r.lowHumidity.value == NoLowInt ==> m.lowHumidity == n.lowHumidity)
      && (r.highHumidity.value != NoHighInt ==> m.highHumidity == r.highHumidity) && (r.highHumidity.value == NoHighInt ==> m.highHumidity == n.highHumidity)
      && (r.et != NoHigh ==> m.et == r.et) && (r.et == NoHigh ==> m.et == n.et)
      && (r.sunshineHours != NoHigh ==> m.sunshineHours == r.sunshineHours) && (r.sunshineHours == NoHigh ==> m.sunshineHours == n.sunshineHours)
      && (r.highHeatIndex.value != NoHigh ==> m.highHeatIndex == r.highHeatIndex) && (r.highHeatIndex.value == NoHigh ==> m.highHeatIndex == n.highHeatIndex)
      && (r.highAppTemp.value != NoHigh ==> m.highAppTemp == r.highAppTemp) && (r.highAppTemp.value == NoHigh ==> m.highAppTemp == n.highAppTemp)
      && (r.lowAppTemp.value != NoLow ==> m.lowAppTemp == r.lowAppTemp) && (r.lowAppTemp.value == NoLow ==> m.lowAppTemp == n.lowAppTemp)
      && (r.highHourlyRain.value != NoHigh ==> m.highHourlyRain == r.highHourlyRain) && (r.highHourlyRain.value == NoHigh ==> m.highHourlyRain == n.highHourlyRain)
      && (r.lowWindChill.value != NoLow ==> m.lowWindChill == r.lowWindChill) && (r.lowWindChill.value == NoLow ==> m.lowWindChill == n.lowWindChill)
      && (r.highDewPoint.value != NoHigh ==> m.highDewPoint == r.highDewPoint) && (r.highDewPoint.value == NoHigh ==> m.highDewPoint == n.highDewPoint)
      && (r.lowDewPoint.value != NoLow ==> m.lowDewPoint == r.lowDewPoint) && (r.lowDewPoint.value == NoLow ==> m.lowDewPoint == n.lowDewPoint)
      && (r.dominantWindBearing != NoLowInt ==> m.dominantWindBearing == r.dominantWindBearing) && (r.dominantWindBearing == NoLowInt ==> m.dominantWindBearing == n.dominantWindBearing)
      && (r.heatingDegreeDays != NoHigh ==> m.heatingDegreeDays == r.heatingDegreeDays) && (r.heatingDegreeDays == NoHigh ==> m.heatingDegreeDays == n.heatingDegreeDays)
      && (r.coolingDegreeDays != NoHigh ==> m.coolingDegreeDays == r.coolingDegreeDays) && (r.coolingDegreeDays == NoHigh ==> m.coolingDegreeDays == n.coolingDegreeDays)
      && (r.highSolar.value != NoHighInt ==> m.highSolar == r.highSolar) && (r.highSolar.value == NoHighInt ==> m.highSolar == Timed(n.highSolar.value, r.highSolar.time))
      && (r.highUv.value != NoHigh ==> m.highUv == r.highUv) && (r.highUv.value == NoHigh ==> m.highUv == Timed(n.highUv.value, r.highUv.time))
      && (r.highHumidex.value != NoHigh ==> m.highHumidex == r.highHumidex) && (r.highHumidex.value == NoHigh ==> m.highHumidex == n.highHumidex)
      && (r.highFeelsLike.value != NoHigh ==> m.highFeelsLike == r.highFeelsLike) && (r.highFeelsLike.value == NoHigh ==> m.highFeelsLike == n.highFeelsLike)
      && (r.lowFeelsLike.value != NoLow ==> m.lowFeelsLike == r.lowFeelsLike) && (r.lowFeelsLike.value == NoLow ==> m.lowFeelsLike == n.lowFeelsLike)
  {
  }

  // ---- the repair run ----

  /** How a run ends: an exit before the file is written, or the text of the new day file. */
  datatype RunOutcome = Exited(code: int) | Saved(text: string)

  /** DateTime.MaxValue in minutes (its ticks over 600 000 000), the first date of an empty day file. */
  const MaxTime: int := 3155378975999999999 / 600000000

  /** The date of the first stored day, or MaxTime when the file is empty. */
  function FirstStored(recs: seq<Dayfilerec>): int {
    if |recs| > 0 then recs[0].date else MaxTime
  }

  /**
   * Where Main starts the walk: the records-began date, or the first
   * stored day when that is earlier.
   */
  function WalkStart(recordsBegan: int, recs: seq<Dayfilerec>): (s: int)
    ensures s <= recordsBegan && s <= FirstStored(recs)
    ensures s == recordsBegan || s == FirstStored(recs)
  {
    if FirstStored(recs) < recordsBegan then FirstStored(recs) else recordsBegan
  }

  /**
   * The walk's invariant at stored day `i`, with `added` days inserted so
   * far into the loaded days `orig`: the days are in strictly ascending
   * order, every inserted day lies before `i`, and the days from `i` on
   * are the loaded ones not yet visited, untouched.
   */
  predicate Walk(rs: seq<Dayfilerec>, added: nat, i: int, orig: seq<Dayfilerec>) {
    && 0 <= i <= |rs| && StrictlyAscending(rs)
    && added <= i && |rs| == |orig| + added
    && rs[i..] == orig[i - added..]
  }

  /** Passing a stored day leaves the walk's invariant in place at the next one. */
  lemma WalkPasses(rs: seq<Dayfilerec>, added: nat, i: nat, orig: seq<Dayfilerec>)
    requires Walk(rs, added, i, orig) && i < |rs|
    ensures Walk(rs, added, i + 1, orig)
  {
    assert rs[i + 1..] == rs[i..][1..];
  }

  /** Repairing a stored day in place, its date kept, and passing it keeps the invariant. */
  lemma WalkRepairs(rs: seq<Dayfilerec>, added: nat, i: nat, orig: seq<Dayfilerec>, r: Dayfilerec)
    requires Walk(rs, added, i, orig) && i < |rs| && r.date == rs[i].date
    ensures Walk(rs[i := r], added, i + 1, orig)
  {
    WalkPasses(rs, added, i, orig);
    assert rs[i := r][i + 1..] == rs[i + 1..];
    var s := rs[i := r];
    forall a, b | 0 <= a < b < |s|
      ensures s[a].date < s[b].date
    {
      assert s[a].date == rs[a].date && s[b].date == rs[b].date;
    }
  }

  // ---- what a run of the walk did ----

  /** The records the walk built, in the order of the days it rebuilt. */
  function Builts(rs: seq<DayResult>): (b: seq<Dayfilerec>)
    ensures |b| <= |rs|
  {
    if rs == [] then []
    else Builts(rs[..|rs| - 1]) + (if rs[|rs| - 1].Built? then [rs[|rs| - 1].rec] else [])
  }

  /** How many of the rebuilt days had no log data. */
  function NoDatas(rs: seq<DayResult>): nat {
    if rs == [] then 0
    else NoDatas(rs[..|rs| - 1]) + (if rs[|rs| - 1].NoData? then 1 else 0)
  }

  /** How many of the rebuilt days met a fatal log line. */
  function Fatals(rs: seq<DayResult>): nat {
    if rs == [] then 0
    else Fatals(rs[..|rs| - 1]) + (if rs[|rs| - 1].Fatal? then 1 else 0)
  }

  lemma BuiltsAppend(rs: seq<DayResult>, r: DayResult)
    ensures Builts(rs + [r]) == Builts(rs) + (if r.Built? then [r.rec] else [])
    ensures NoDatas(rs + [r]) == NoDatas(rs) + (if r.NoData? then 1 else 0)
    ensures Fatals(rs + [r]) == Fatals(rs) + (if r.Fatal? then 1 else 0)
  {
    assert (rs + [r])[..|rs|] == rs;
  }

  /** Adding a result in front adds its record, if built, in front. */
  lemma {:induction false} BuiltsPrepend(r: DayResult, rs: seq<DayResult>)
    ensures Builts([r] + rs) == (if r.Built? then [r.rec] else []) + Builts(rs)
    ensures NoDatas([r] + rs) == (if r.NoData? then 1 else 0) + NoDatas(rs)
    ensures Fatals([r] + rs) == (if r.Fatal? then 1 else 0) + Fatals(rs)
    decreases |rs|
  {
    if rs != [] {
      var front := rs[..|rs| - 1];
      assert ([r] + rs)[..|rs|] == [r] + front;
      BuiltsPrepend(r, front);
    } else {
      assert [r] + rs == [] + [r];
      BuiltsAppend([], r);
    }
  }

  /** Every rebuilt day gave exactly one of a record, no data or a fatal line. */
  lemma {:induction false} ResultsCounted(rs: seq<DayResult>)
    ensures |Builts(rs)| + NoDatas(rs) + Fatals(rs) == |rs|
  {
    if rs != [] {
      var front := rs[..|rs| - 1];
      assert rs == front + [rs[|rs| - 1]];
      ResultsCounted(front);
      BuiltsAppend(front, rs[|rs| - 1]);
    }
  }

  /** A source of rebuilt days: from a log cursor and a date, the result and the cursor left. */
  type DaySource = (Cursor, int) -> (DayResult, Cursor)

  /**
   * `rebuild` is GetDayRecFromMonthly over the logs `env`: every month
   * lies ahead of the one before, and every day is rebuilt as DayRec says.
   * The walk below is stated over `rebuild`, so that what it proves does
   * not depend on how a single day is built.
   */
  ghost predicate Rebuilds(rebuild: DaySource, env: LogEnv, ro: MeteoDay.Rollover, cfg: DayConfig) {
    && (forall x :: env.addMonths(x) > x)
    && (forall c, d {:trigger DayRec(c, d, env, ro, cfg)} :: rebuild(c, d) == DayRec(c, d, env, ro, cfg))
  }

  /** DayRec as a day source, for logs whose months all lie ahead of the one before. */
  ghost function Rebuilder(env: LogEnv, ro: MeteoDay.Rollover, cfg: DayConfig): (f: DaySource)
    ensures (forall x :: env.addMonths(x) > x) ==> Rebuilds(f, env, ro, cfg)
  {
    (c: Cursor, d: int) => if env.addMonths(d) > d then DayRec(c, d, env, ro, cfg) else (NoData, c)
  }

  /** Every record the source builds is for the day asked for. */
  ghost predicate BuildsOnItsDay(rebuild: DaySource) {
    forall c, d :: rebuild(c, d).0.Built? ==> rebuild(c, d).0.rec.date == d
  }

  /** A record DayRec builds is for the day asked for. */
  lemma RebuildsOnItsDay(rebuild: DaySource, env: LogEnv, ro: MeteoDay.Rollover, cfg: DayConfig)
    requires Rebuilds(rebuild, env, ro, cfg)
    ensures BuildsOnItsDay(rebuild)
  {
    forall c, d
      ensures rebuild(c, d).0.Built? ==> rebuild(c, d).0.rec.date == d
    {
      BuiltRecordBounds(c, d, env, ro, cfg);
    }
  }

  /**
   * What Main's inner loop does in a gap: the days it rebuilt in turn,
   * what each gave, the cursor it leaves, the date it reached and whether
   * a fatal line stopped it.
   */
  datatype GapRun = GapRun(days: seq<int>, results: seq<DayResult>, cursor: Cursor, next: int, fatal: bool)

  /** Days already rebuilt, with their results, followed by the run `g`. */
  function After(days: seq<int>, results: seq<DayResult>, g: GapRun): (r: GapRun)
    ensures r.cursor == g.cursor && r.next == g.next && r.fatal == g.fatal
    ensures |r.days| == |days| + |g.days| && |r.results| == |results| + |g.results|
  {
    g.(days := days + g.days, results := results + g.results)
  }

  /**
   * Main's inner loop from cursor `c` at date `d`: while `d` lies before
   * the stored day at `stop`, the day at `d` is rebuilt from the cursor
   * the day before left; a fatal line stops the program, otherwise the
   * loop steps a meteorological day on.
   */
  ghost function Gap(rebuild: DaySource, c: Cursor, d: int, stop: int, ro: MeteoDay.Rollover): (g: GapRun)
    ensures |g.results| == |g.days|
    ensures g.days == [] <==> d >= stop
    ensures g.days != [] ==> g.days[0] == d
    decreases stop - d
  {
    if d >= stop then GapRun([], [], c, d, false)
    else
      var (r, c1) := rebuild(c, d);
      if r.Fatal? then GapRun([d], [r], c1, d, true)
      else
        MeteoDay.IncrementAdvancesOneDay(ro, d);
        After([d], [r], Gap(rebuild, c1, MeteoDay.IncrementMeteoDate(ro, d), stop, ro))
  }

  /**
   * A gap's run seen part way: the days rebuilt so far with their results,
   * then, unless a fatal line stopped it, the rest of the run from cursor
   * `c` at date `d`.
   */
  ghost function Resumed(rebuild: DaySource, days: seq<int>, results: seq<DayResult>, c: Cursor, d: int, fatal: bool,
                         stop: int, ro: MeteoDay.Rollover): GapRun
  {
    if fatal then GapRun(days, results, c, d, true) else After(days, results, Gap(rebuild, c, d, stop, ro))
  }

  /** One more day of the inner loop, from a run known up to cursor `c` at date `d`. */
  lemma GapStep(g: GapRun, rebuild: DaySource, days: seq<int>, results: seq<DayResult>, c: Cursor, d: int, stop: int,
                ro: MeteoDay.Rollover)
    requires d < stop && g == Resumed(rebuild, days, results, c, d, false, stop, ro)
    ensures var (r, c1) := rebuild(c, d);
      g == Resumed(rebuild, days + [d], results + [r], c1, if r.Fatal? then d else MeteoDay.IncrementMeteoDate(ro, d),
                   r.Fatal?, stop, ro)
  {
    var (r, c1) := rebuild(c, d);
    if !r.Fatal? {
      var rest := Gap(rebuild, c1, MeteoDay.IncrementMeteoDate(ro, d), stop, ro);
      assert days + ([d] + rest.days) == (days + [d]) + rest.days;
      assert results + ([r] + rest.results) == (results + [r]) + rest.results;
    }
  }

  /**
   * The records a gap's run inserts are dated within the gap, and, when it
   * rebuilt any day and was not stopped by a fatal line, on an earlier
   * calendar day than the date it ends on.
   */
  lemma {:induction false} GapWithin(rebuild: DaySource, c: Cursor, d: int, stop: int,
                                     ro: MeteoDay.Rollover)
    requires BuildsOnItsDay(rebuild)
    ensures var g := Gap(rebuild, c, d, stop, ro);
      DatedWithin(Builts(g.results), d, stop, if g.fatal then None else Some(MeteoDay.Day(g.next)))
    decreases stop - d
  {
    var g := Gap(rebuild, c, d, stop, ro);
    if d < stop {
      var (r, c1) := rebuild(c, d);
            GapAdvances(rebuild, c, d, stop, ro);
      if r.Fatal? {
        BuiltsPrepend(r, []);
      } else {
        MeteoDay.IncrementAdvancesOneDay(ro, d);
        var d1 := MeteoDay.IncrementMeteoDate(ro, d);
        var rest := Gap(rebuild, c1, d1, stop, ro);
        GapWithin(rebuild, c1, d1, stop, ro);
        BuiltsPrepend(r, rest.results);
        assert g.results == [r] + rest.results && g.next == rest.next && g.fatal == rest.fatal;
        var head := if r.Built? then [r.rec] else [];
        DatesWithin(head, Builts(rest.results), d, stop, if g.fatal then None else Some(MeteoDay.Day(g.next)));
      }
    }
  }

  /** The records a gap's run inserts are in strictly ascending order. */
  lemma {:induction false} GapAscending(rebuild: DaySource, c: Cursor, d: int, stop: int,
                                        ro: MeteoDay.Rollover)
    requires BuildsOnItsDay(rebuild)
    ensures StrictlyAscending(Builts(Gap(rebuild, c, d, stop, ro).results))
    decreases stop - d
  {
    if d < stop {
      var (r, c1) := rebuild(c, d);
      if r.Fatal? {
        BuiltsPrepend(r, []);
      } else {
        MeteoDay.IncrementAdvancesOneDay(ro, d);
        var d1 := MeteoDay.IncrementMeteoDate(ro, d);
        var rest := Gap(rebuild, c1, d1, stop, ro);
        GapAscending(rebuild, c1, d1, stop, ro);
        BuiltsPrepend(r, rest.results);
        if r.Built? {
                    GapWithin(rebuild, c1, d1, stop, ro);
          AscendingAfterFirst(r.rec, Builts(rest.results));
        }
      }
    }
  }

  /** A gap's run meets at most one fatal line: the one that stops it. */
  lemma {:induction false} GapFatals(rebuild: DaySource, c: Cursor, d: int, stop: int, ro: MeteoDay.Rollover)
    ensures var g := Gap(rebuild, c, d, stop, ro);
      Fatals(g.results) == if g.fatal then 1 else 0
    decreases stop - d
  {
    if d < stop {
      var (r, c1) := rebuild(c, d);
      if r.Fatal? {
        BuiltsPrepend(r, []);
        assert [r] + [] == [r];
      } else {
        MeteoDay.IncrementAdvancesOneDay(ro, d);
        var d1 := MeteoDay.IncrementMeteoDate(ro, d);
        var rest := Gap(rebuild, c1, d1, stop, ro);
        GapFatals(rebuild, c1, d1, stop, ro);
        BuiltsPrepend(r, rest.results);
        assert Gap(rebuild, c, d, stop, ro).results == [r] + rest.results;
      }
    }
  }

  /** A gap's run has the shape GapShape describes. */
  lemma GapFacts(rebuild: DaySource, c: Cursor, d: int, stop: int, ro: MeteoDay.Rollover)
    requires BuildsOnItsDay(rebuild)
    ensures var g := Gap(rebuild, c, d, stop, ro);
      GapShape(Builts(g.results), d, stop, g.fatal, g.next)
  {
    GapWithin(rebuild, c, d, stop, ro);
    GapAscending(rebuild, c, d, stop, ro);
    GapAdvances(rebuild, c, d, stop, ro);
  }

  /**
   * The records `b` a gap's run from `d` to the stored day at `stop`
   * inserted, ending at `next` (stopped by a fatal line when `fatal`): in
   * ascending order and dated within the gap; a run not stopped reaches the
   * stored day, and when it rebuilt any day it ends on a later calendar day
   * than every record it inserted and than the day it started from.
   */
  predicate GapShape(b: seq<Dayfilerec>, d: int, stop: int, fatal: bool, next: int) {
    && (forall m :: 0 <= m < |b| ==> d <= b[m].date < stop)
    && StrictlyAscending(b)
    && (!fatal ==> stop <= next)
    && (d < stop && !fatal ==>
          && MeteoDay.Day(next) > MeteoDay.Day(d)
          && forall m :: 0 <= m < |b| ==> MeteoDay.Day(b[m].date) < MeteoDay.Day(next))
  }

  /**
   * The state of Main's walk: the day file, the stored day `i` it is at,
   * the date `currDate`, the log cursor, and the counts of days added,
   * updated, without data and OK.
   */
  datatype Walker = Walker(rs: seq<Dayfilerec>, i: int, currDate: int, cursor: Cursor,
                           added: nat, updated: nat, noData: nat, ok: nat)

  /**
   * One pass of the outer loop's body with the step that closes it, and
   * whether a fatal log line stopped the program. A stored day that lies
   * ahead of `currDate` gets the inner loop's run (`Gap`), its records
   * spliced in front of it; Main steps one day and one index back before
   * the loop's step, so that the walk lands on the stored day again and
   * on the day after the one before the date the run reached. A stored
   * day with missing data is filled in from the day rebuilt at `currDate`
   * (counted as updated), or counted as having no data; any other is
   * counted OK; the step then moves on to the next stored day and the
   * next meteorological day.
   */
  ghost function Body(rebuild: DaySource, ro: MeteoDay.Rollover, w: Walker): (r: (Walker, bool))
    requires 0 <= w.i < |w.rs|
    ensures r.0.added >= w.added && r.0.updated >= w.updated && r.0.noData >= w.noData && r.0.ok >= w.ok
    ensures r.0.added + r.0.updated + r.0.ok > w.added + w.updated + w.ok || r.0.noData > w.noData || r.1 ||
            (r.0.rs == w.rs && r.0.i == w.i)
  {
    if w.rs[w.i].date > w.currDate then
      var g := Gap(rebuild, w.cursor, w.currDate, w.rs[w.i].date, ro);
      (AfterGap(w, g, ro), g.fatal)
    else if HasMissingData(w.rs[w.i]) then Repaired(w, rebuild(w.cursor, w.currDate), ro)
    else (w.(i := w.i + 1, currDate := MeteoDay.IncrementMeteoDate(ro, w.currDate), ok := w.ok + 1), false)
  }

  /**
   * A pass at stored day `w.i` with missing data, given what rebuilding
   * its date from the cursor gave: a built record is merged in and counted
   * as updated, no data is counted, and a fatal line stops the program;
   * the step then moves on to the next stored day and meteorological day.
   */
  function Repaired(w: Walker, got: (DayResult, Cursor), ro: MeteoDay.Rollover): (r: (Walker, bool))
    requires 0 <= w.i < |w.rs|
  {
    var next := w.(i := w.i + 1, currDate := MeteoDay.IncrementMeteoDate(ro, w.currDate), cursor := got.1);
    match got.0
    case Built(rec) => (next.(rs := w.rs[w.i := MergeMissing(w.rs[w.i], rec)], updated := w.updated + 1), false)
    case NoData => (next.(noData := w.noData + 1), false)
    case Fatal(_) => (next, true)
  }

  /**
   * The state after the inner loop's run `g` before stored day `w.i` and
   * the outer loop's step: the records it built spliced in front of the
   * stored day, which the walk is at again, on the day after the one
   * before the date the run reached.
   */
  function AfterGap(w: Walker, g: GapRun, ro: MeteoDay.Rollover): Walker
    requires 0 <= w.i <= |w.rs|
  {
    var b := Builts(g.results);
    w.(rs := w.rs[..w.i] + b + w.rs[w.i..], i := w.i + |b|,
       currDate := MeteoDay.IncrementMeteoDate(ro, g.next - MeteoDay.MinutesPerDay),
       cursor := g.cursor, added := w.added + |b|, noData := w.noData + NoDatas(g.results))
  }

  /** The days the walk has counted: added, updated, without data and OK. */
  function Total(w: Walker): nat {
    w.added + w.updated + w.noData + w.ok
  }

  /**
   * Every date a pass of the body handles is counted exactly once, as
   * added, updated, without data or OK, except the one a fatal line
   * stopped: one date for a stored day, and every date of the inner
   * loop's run for a stored day that lies ahead. With no counter ever
   * falling (Body), each handled date raises exactly one of them.
   */
  lemma BodyCountsEachDay(rebuild: DaySource, ro: MeteoDay.Rollover, w: Walker)
    requires 0 <= w.i < |w.rs|
    ensures var (w1, fatal) := Body(rebuild, ro, w);
      Total(w1) + (if fatal then 1 else 0)
        == Total(w) + (if w.rs[w.i].date > w.currDate
                       then |Gap(rebuild, w.cursor, w.currDate, w.rs[w.i].date, ro).days| else 1)
  {
    if w.rs[w.i].date > w.currDate {
      var g := Gap(rebuild, w.cursor, w.currDate, w.rs[w.i].date, ro);
      ResultsCounted(g.results);
      GapFatals(rebuild, w.cursor, w.currDate, w.rs[w.i].date, ro);
    }
  }

  /**
   * What a pass of the body keeps, at the state `w1` it reaches: the days
   * in strictly ascending order and every day added counted, and, unless
   * stopped, the outer loop's invariant.
   */
  ghost predicate Passed(w1: Walker, fatal: bool, orig: seq<Dayfilerec>, start: int) {
    && StrictlyAscending(w1.rs) && |w1.rs| == |orig| + w1.added
    && (!fatal ==> WalkState(w1.rs, w1.added, w1.i, orig, w1.currDate, start))
  }

  /**
   * After a gap's run `g` before stored day `w.i`, with the outer loop's
   * invariant before: the records it inserted keep the days ascending;
   * unless a fatal line stopped it, stepping back a day from the date
   * reached and on again (as Main does) leaves the outer loop's invariant
   * at the stored day, moved past the inserted records.
   */
  lemma AfterGapKeepsWalk(w: Walker, g: GapRun, orig: seq<Dayfilerec>, start: int, ro: MeteoDay.Rollover)
    requires WalkState(w.rs, w.added, w.i, orig, w.currDate, start) && 0 <= w.i < |w.rs|
    requires w.rs[w.i].date > w.currDate
    requires GapShape(Builts(g.results), w.currDate, w.rs[w.i].date, g.fatal, g.next)
    ensures Passed(AfterGap(w, g, ro), g.fatal, orig, start)
  {
    AfterGapWalk(w, g, orig, ro);
    if !g.fatal {
      AfterGapAhead(w, g, start, ro);
    }
  }

  /** The records a gap's run inserts, spliced in, keep the walk's invariant at the stored day. */
  lemma AfterGapWalk(w: Walker, g: GapRun, orig: seq<Dayfilerec>, ro: MeteoDay.Rollover)
    requires Walk(w.rs, w.added, w.i, orig) && w.i < |w.rs| && (w.i > 0 ==> w.rs[w.i - 1].date < w.currDate)
    requires var b := Builts(g.results);
      StrictlyAscending(b) && forall m :: 0 <= m < |b| ==> w.currDate <= b[m].date < w.rs[w.i].date
    ensures var w1 := AfterGap(w, g, ro); Walk(w1.rs, w1.added, w1.i, orig)
  {
    WalkAfterGap(w.rs, w.added, w.i, orig, Builts(g.results), w.currDate);
  }

  /**
   * Unless stopped, a gap's run leaves the day before the stored day, and
   * the day it started from, behind the date Main steps on to.
   */
  lemma AfterGapAhead(w: Walker, g: GapRun, start: int, ro: MeteoDay.Rollover)
    requires 0 <= w.i < |w.rs| && (w.i > 0 ==> w.rs[w.i - 1].date < w.currDate) && start <= w.currDate
    requires MeteoDay.Day(g.next) > MeteoDay.Day(w.currDate)
    requires forall m :: 0 <= m < |Builts(g.results)| ==> MeteoDay.Day(Builts(g.results)[m].date) < MeteoDay.Day(g.next)
    ensures var w1 := AfterGap(w, g, ro);
      (w1.i > 0 ==> w1.rs[w1.i - 1].date < w1.currDate) && start <= w1.currDate
  {
    SplicedNeighbourBehind(w.rs, w.i, Builts(g.results), w.currDate, g.next, start, ro);
  }

  /** AfterGapAhead on the spliced days themselves. */
  lemma SplicedNeighbourBehind(rs0: seq<Dayfilerec>, i: nat, b: seq<Dayfilerec>, d: int, next: int, start: int,
                               ro: MeteoDay.Rollover)
    requires i < |rs0| && (i > 0 ==> rs0[i - 1].date < d) && MeteoDay.Day(next) > MeteoDay.Day(d) && start <= d
    requires forall m :: 0 <= m < |b| ==> MeteoDay.Day(b[m].date) < MeteoDay.Day(next)
    ensures var s, d1 := rs0[..i] + b + rs0[i..], MeteoDay.IncrementMeteoDate(ro, next - MeteoDay.MinutesPerDay);
      (i + |b| > 0 ==> s[i + |b| - 1].date < d1) && start <= d1
  {
    GapLeavesNeighbourBehind(rs0, i, b, d, next);
    var s := rs0[..i] + b + rs0[i..];
    RestartStaysAhead(ro, next, if i + |b| > 0 then s[i + |b| - 1].date else d, d);
  }

  /** Unless it was stopped, the pass moves the date on. */
  lemma BodyAdvances(rebuild: DaySource, ro: MeteoDay.Rollover, w: Walker)
    requires 0 <= w.i < |w.rs|
    ensures var (w1, fatal) := Body(rebuild, ro, w);
      !fatal ==> w.currDate < w1.currDate
  {
    if w.rs[w.i].date > w.currDate {
      var g := Gap(rebuild, w.cursor, w.currDate, w.rs[w.i].date, ro);
      GapAdvances(rebuild, w.cursor, w.currDate, w.rs[w.i].date, ro);
      if !g.fatal {
        RestartStaysAhead(ro, g.next, w.currDate, w.currDate);
      }
    } else {
      MeteoDay.IncrementAdvancesOneDay(ro, w.currDate);
    }
  }

  /**
   * Main's outer loop from state `w`: it ends when the stored days run
   * out; otherwise a pass of its body with its step, after which it ends
   * when the date has reached `today`, or goes on. A fatal log line ends
   * it at once.
   */
  ghost function Walked(rebuild: DaySource, ro: MeteoDay.Rollover, today: int, w: Walker): (r: (Walker, bool))
    decreases if w.currDate < today then today - w.currDate else 0
  {
    if !(0 <= w.i < |w.rs|) then (w, false)
    else
      var (w1, fatal) := Body(rebuild, ro, w);
      if fatal || w1.currDate >= today then (w1, fatal)
      else
        BodyAdvances(rebuild, ro, w);
        Walked(rebuild, ro, today, w1)
  }

  /** One pass of the walk: Walked unfolded once. */
  lemma WalkedStep(rebuild: DaySource, ro: MeteoDay.Rollover, today: int, w: Walker)
    requires 0 <= w.i < |w.rs|
    ensures var (w1, fatal) := Body(rebuild, ro, w);
      && (!fatal ==> w.currDate < w1.currDate)
      && Walked(rebuild, ro, today, w) == if fatal || w1.currDate >= today then (w1, fatal) else Walked(rebuild, ro, today, w1)
  {
    BodyAdvances(rebuild, ro, w);
  }

  /**
   * A pass of the body keeps the days ascending and every day added
   * counted; unless stopped, it leaves the outer loop's invariant at the
   * state it reaches.
   */
  lemma BodyKeepsWalk(rebuild: DaySource, ro: MeteoDay.Rollover, w: Walker,
                      orig: seq<Dayfilerec>, start: int)
    requires BuildsOnItsDay(rebuild)
    requires WalkState(w.rs, w.added, w.i, orig, w.currDate, start) && 0 <= w.i < |w.rs|
    ensures var r := Body(rebuild, ro, w); Passed(r.0, r.1, orig, start)
  {
    if w.rs[w.i].date > w.currDate {
      var g := Gap(rebuild, w.cursor, w.currDate, w.rs[w.i].date, ro);
      GapFacts(rebuild, w.cursor, w.currDate, w.rs[w.i].date, ro);
      AfterGapKeepsWalk(w, g, orig, start, ro);
    } else if HasMissingData(w.rs[w.i]) {
      RepairedKeepsWalk(w, rebuild(w.cursor, w.currDate), orig, start, ro);
    } else {
      StoredDayPasses(w.rs, w.added, w.i, orig, w.currDate, start, ro);
    }
  }

  /** A pass that repairs stored day `w.i` keeps what BodyKeepsWalk says. */
  lemma RepairedKeepsWalk(w: Walker, got: (DayResult, Cursor), orig: seq<Dayfilerec>, start: int,
                          ro: MeteoDay.Rollover)
    requires WalkState(w.rs, w.added, w.i, orig, w.currDate, start) && 0 <= w.i < |w.rs|
    requires w.rs[w.i].date <= w.currDate
    ensures var r := Repaired(w, got, ro); Passed(r.0, r.1, orig, start)
  {
    if got.0.Built? {
      StoredDayKeeps(w.rs, MergeMissing(w.rs[w.i], got.0.rec), w.added, w.i, orig, w.currDate, start, ro);
    } else {
      StoredDayPasses(w.rs, w.added, w.i, orig, w.currDate, start, ro);
    }
  }

  /** A pass of the body keeps what the walk keeps of the loaded days. */
  lemma BodyKeepsKept(rebuild: DaySource, ro: MeteoDay.Rollover, w: Walker,
                      orig: seq<Dayfilerec>, start: int)
    requires BuildsOnItsDay(rebuild)
    requires WalkState(w.rs, w.added, w.i, orig, w.currDate, start) && 0 <= w.i < |w.rs|
    requires Kept(orig, w.rs, start)
    ensures Kept(orig, Body(rebuild, ro, w).0.rs, start)
  {
    if w.rs[w.i].date > w.currDate {
      var g := Gap(rebuild, w.cursor, w.currDate, w.rs[w.i].date, ro);
      GapFacts(rebuild, w.cursor, w.currDate, w.rs[w.i].date, ro);
      KeptAfterGap(orig, w.rs, w.added, w.i, Builts(g.results), w.currDate, start);
    } else if HasMissingData(w.rs[w.i]) {
      var (r, _) := rebuild(w.cursor, w.currDate);
      if r.Built? {
        KeptAfterRepair(orig, w.rs, w.i, MergeMissing(w.rs[w.i], r.rec), start);
      }
    }
  }

  /**
   * What a pass of the body from `w` keeps, for induction over the walk:
   * the state it reaches satisfies `done` and, unless a fatal line
   * stopped the program, `inv`.
   */
  ghost predicate PassKeeps(rebuild: DaySource, ro: MeteoDay.Rollover, w: Walker, inv: Walker -> bool,
                            done: Walker -> bool)
    requires 0 <= w.i < |w.rs|
  {
    var (w1, fatal) := Body(rebuild, ro, w);
    done(w1) && (!fatal ==> inv(w1))
  }

  /** Every state with `inv` past the stored days satisfies `done`. */
  ghost predicate EndsDone(inv: Walker -> bool, done: Walker -> bool) {
    forall v :: inv(v) && !(0 <= v.i < |v.rs|) ==> done(v)
  }

  /** Every pass of the body from a state with `inv` keeps `inv` and `done` as PassKeeps says. */
  ghost predicate PassesKeep(rebuild: DaySource, ro: MeteoDay.Rollover, inv: Walker -> bool, done: Walker -> bool) {
    forall v :: inv(v) && 0 <= v.i < |v.rs| ==> PassKeeps(rebuild, ro, v, inv, done)
  }

  /**
   * Induction over the walk: when `inv` holds at its start, every state
   * with `inv` past the stored days satisfies `done`, and every pass of
   * the body keeps `inv` and `done` as PassKeeps says, the walk ends in a
   * state satisfying `done`.
   */
  lemma {:induction false} WalkedInduction(rebuild: DaySource, ro: MeteoDay.Rollover, today: int, w: Walker,
                                           inv: Walker -> bool, done: Walker -> bool)
    requires inv(w) && EndsDone(inv, done) && PassesKeep(rebuild, ro, inv, done)
    ensures done(Walked(rebuild, ro, today, w).0)
    decreases if w.currDate < today then today - w.currDate else 0
  {
    if 0 <= w.i < |w.rs| {
      assert PassKeeps(rebuild, ro, w, inv, done);
      BodyAdvances(rebuild, ro, w);
      var (w1, fatal) := Body(rebuild, ro, w);
      if !fatal && w1.currDate < today {
        WalkedInduction(rebuild, ro, today, w1, inv, done);
      }
    }
  }

  /** The outer loop's invariant, with what the walk keeps, as a property of its states. */
  ghost function WalkInv(orig: seq<Dayfilerec>, start: int): Walker -> bool {
    (v: Walker) => WalkState(v.rs, v.added, v.i, orig, v.currDate, start) && 0 <= v.i && Kept(orig, v.rs, start)
  }

  /** What holds wherever the walk stops: days ascending, every day added counted, the loaded days kept. */
  ghost function WalkDone(orig: seq<Dayfilerec>, start: int): Walker -> bool {
    (v: Walker) => StrictlyAscending(v.rs) && |v.rs| == |orig| + v.added && Kept(orig, v.rs, start)
  }

  /** A pass of the body from a state with the outer loop's invariant keeps WalkInv and WalkDone. */
  lemma PassKeepsInv(rebuild: DaySource, ro: MeteoDay.Rollover, w: Walker,
                     orig: seq<Dayfilerec>, start: int)
    requires BuildsOnItsDay(rebuild) && 0 <= w.i < |w.rs| && WalkInv(orig, start)(w)
    ensures PassKeeps(rebuild, ro, w, WalkInv(orig, start), WalkDone(orig, start))
  {
    BodyKeepsWalk(rebuild, ro, w, orig, start);
    BodyKeepsKept(rebuild, ro, w, orig, start);
  }

  /** With logs rebuilt by DayRec, every pass keeps the outer loop's invariant. */
  lemma EveryPassKeepsWalk(rebuild: DaySource, ro: MeteoDay.Rollover,
                           orig: seq<Dayfilerec>, start: int)
    requires BuildsOnItsDay(rebuild)
    ensures PassesKeep(rebuild, ro, WalkInv(orig, start), WalkDone(orig, start))
  {
    forall v | WalkInv(orig, start)(v) && 0 <= v.i < |v.rs|
      ensures PassKeeps(rebuild, ro, v, WalkInv(orig, start), WalkDone(orig, start))
    {
      PassKeepsInv(rebuild, ro, v, orig, start);
    }
  }

  /** The walk from a state with WalkInv, when every pass keeps it, ends in a state with WalkDone. */
  lemma WalkedKeepsWhenPassesKeep(rebuild: DaySource, ro: MeteoDay.Rollover, today: int, w: Walker,
                                  orig: seq<Dayfilerec>, start: int)
    requires PassesKeep(rebuild, ro, WalkInv(orig, start), WalkDone(orig, start))
    requires WalkState(w.rs, w.added, w.i, orig, w.currDate, start) && 0 <= w.i && Kept(orig, w.rs, start)
    ensures var (w1, _) := Walked(rebuild, ro, today, w);
      StrictlyAscending(w1.rs) && |w1.rs| == |orig| + w1.added && Kept(orig, w1.rs, start)
  {
    WalkEndsDone(orig, start);
    WalkedInduction(rebuild, ro, today, w, WalkInv(orig, start), WalkDone(orig, start));
  }

  /** Wherever the walk runs out of stored days with the outer loop's invariant, WalkDone holds. */
  lemma WalkEndsDone(orig: seq<Dayfilerec>, start: int)
    ensures EndsDone(WalkInv(orig, start), WalkDone(orig, start))
  {
    forall v | WalkInv(orig, start)(v) && !(0 <= v.i < |v.rs|)
      ensures WalkDone(orig, start)(v)
    {
    }
  }

  /**
   * Whatever the walk does from a state with the outer loop's invariant,
   * the days stay in strictly ascending order, every day added is counted,
   * and what the walk keeps of the loaded days is kept.
   */
  lemma WalkedKeeps(rebuild: DaySource, env: LogEnv, ro: MeteoDay.Rollover, cfg: DayConfig,
                    today: int, w: Walker, orig: seq<Dayfilerec>, start: int)
    requires Rebuilds(rebuild, env, ro, cfg)
    requires WalkState(w.rs, w.added, w.i, orig, w.currDate, start) && 0 <= w.i && Kept(orig, w.rs, start)
    ensures var (w1, _) := Walked(rebuild, ro, today, w);
      StrictlyAscending(w1.rs) && |w1.rs| == |orig| + w1.added && Kept(orig, w1.rs, start)
  {
    RebuildsOnItsDay(rebuild, env, ro, cfg);
    EveryPassKeepsWalk(rebuild, ro, orig, start);
    WalkedKeepsWhenPassesKeep(rebuild, ro, today, w, orig, start);
  }

  /** A run of the inner loop not stopped by a fatal line reaches the stored day, on a later calendar day. */
  lemma {:induction false} GapAdvances(rebuild: DaySource, c: Cursor, d: int, stop: int, ro: MeteoDay.Rollover)
    ensures var g := Gap(rebuild, c, d, stop, ro);
      !g.fatal ==> stop <= g.next && (d < stop ==> MeteoDay.Day(g.next) > MeteoDay.Day(d))
    decreases stop - d
  {
    if d < stop {
      var (r, c1) := rebuild(c, d);
      if !r.Fatal? {
        MeteoDay.IncrementAdvancesOneDay(ro, d);
        GapAdvances(rebuild, c1, MeteoDay.IncrementMeteoDate(ro, d), stop, ro);
      }
    }
  }

  /** A record dated before every record of an ascending run can lead it. */
  lemma AscendingAfterFirst(x: Dayfilerec, t: seq<Dayfilerec>)
    requires StrictlyAscending(t) && forall m :: 0 <= m < |t| ==> x.date < t[m].date
    ensures StrictlyAscending([x] + t)
  {
    var s := [x] + t;
    forall a, b | 0 <= a < b < |s|
      ensures s[a].date < s[b].date
    {
      assert s[b] == t[b - 1];
      if a > 0 {
        assert s[a] == t[a - 1];
      }
    }
  }

  /**
   * Every record of `b` is dated from `lo` up to before `hi` and, when
   * `day` is given, on an earlier calendar day than `day`.
   */
  predicate DatedWithin(b: seq<Dayfilerec>, lo: int, hi: int, day: Option<int>) {
    forall m :: 0 <= m < |b| ==> lo <= b[m].date < hi && (day.Some? ==> MeteoDay.Day(b[m].date) < day.value)
  }

  /**
   * Records dated from `lo` up to before `hi`, each (when `day` is given)
   * on an earlier calendar day than `day`, stay so when joined.
   */
  lemma DatesWithin(h: seq<Dayfilerec>, t: seq<Dayfilerec>, lo: int, hi: int, day: Option<int>)
    requires DatedWithin(h, lo, hi, day) && DatedWithin(t, lo, hi, day)
    ensures DatedWithin(h + t, lo, hi, day)
  {
    forall m | 0 <= m < |h + t|
      ensures lo <= (h + t)[m].date < hi && (day.Some? ==> MeteoDay.Day((h + t)[m].date) < day.value)
    {
      if m >= |h| {
        assert (h + t)[m] == t[m - |h|];
      }
    }
  }

  /**
   * After a gap's run that rebuilt at least one day, the day before the
   * stored day, whether inserted or stored before `d`, lies on an earlier
   * calendar day than the date reached.
   */
  lemma GapLeavesNeighbourBehind(rs0: seq<Dayfilerec>, i: nat, b: seq<Dayfilerec>, d: int, next: int)
    requires i < |rs0| && (i > 0 ==> rs0[i - 1].date < d) && MeteoDay.Day(next) > MeteoDay.Day(d)
    requires forall m :: 0 <= m < |b| ==> MeteoDay.Day(b[m].date) < MeteoDay.Day(next)
    ensures var s := rs0[..i] + b + rs0[i..];
      i + |b| > 0 ==> MeteoDay.Day(s[i + |b| - 1].date) < MeteoDay.Day(next)
  {
    var s := rs0[..i] + b + rs0[i..];
    if |b| > 0 {
      assert s[i + |b| - 1] == b[|b| - 1];
    } else if i > 0 {
      assert s[i - 1] == rs0[i - 1];
      assert MeteoDay.Day(rs0[i - 1].date) <= MeteoDay.Day(d);
    }
  }

  /**
   * The day file and counters after one pass of the inner loop's body
   * before stored day `j`: a record built is inserted in front of the
   * stored day, which moves up one place; a day without log data is
   * counted; a fatal line changes nothing.
   */
  function Placed(rs: seq<Dayfilerec>, j: nat, added: nat, noData: nat, r: DayResult): (p: (seq<Dayfilerec>, nat, nat, nat))
    requires j <= |rs|
    ensures |p.0| == |rs| + (if r.Built? then 1 else 0) && p.1 <= |p.0|
    ensures p.2 + p.3 == added + noData + (if r.Fatal? then 0 else 1)
    ensures j < |rs| ==> p.1 < |p.0| && p.0[p.1] == rs[j]
  {
    match r
    case Built(rec) => (rs[..j] + [rec] + rs[j..], j + 1, added + 1, noData)
    case NoData => (rs, j, added, noData + 1)
    case Fatal(_) => (rs, j, added, noData)
  }

  /**
   * The day file and counters once the inner loop, started at stored day
   * `i` of `rs0`, has had `results`: the records built are inserted in
   * order in front of the stored day, and the days without data are
   * counted.
   */
  function Spliced(rs0: seq<Dayfilerec>, i: nat, added0: nat, noData0: nat, results: seq<DayResult>)
    : (s: (seq<Dayfilerec>, nat, nat, nat))
    requires i <= |rs0|
    ensures |s.0| == |rs0| + |Builts(results)| && s.1 == i + |Builts(results)|
    ensures s.2 == added0 + |Builts(results)| && s.3 == noData0 + NoDatas(results)
    ensures i < |rs0| ==> s.0[s.1] == rs0[i]
  {
    var b := Builts(results);
    (rs0[..i] + b + rs0[i..], i + |b|, added0 + |b|, noData0 + NoDatas(results))
  }

  /** One more pass of the inner loop's body extends the splice by its result. */
  lemma SplicedStep(rs0: seq<Dayfilerec>, i: nat, added0: nat, noData0: nat, results: seq<DayResult>, r: DayResult)
    requires i <= |rs0|
    ensures var s := Spliced(rs0, i, added0, noData0, results);
      Spliced(rs0, i, added0, noData0, results + [r]) == Placed(s.0, s.1, s.2, s.3, r)
  {
    BuiltsAppend(results, r);
    if r.Built? {
      var b := Builts(results);
      InsertAfterBlock(rs0, i, b, r.rec);
      var rs := rs0[..i] + b + rs0[i..];
      assert Placed(rs, i + |b|, added0 + |b|, noData0 + NoDatas(results), r)
          == (rs[..i + |b|] + [r.rec] + rs[i + |b|..], i + |b| + 1, added0 + |b| + 1, noData0 + NoDatas(results));
    } else {
      assert Builts(results + [r]) == Builts(results);
    }
  }

  /** The dates of the stored days. */
  function Dates(rs: seq<Dayfilerec>): set<int> {
    set k | 0 <= k < |rs| :: rs[k].date
  }

  /**
   * What the walk keeps of the loaded days `orig` in `rs`: every loaded
   * date is still there, a loaded day with nothing missing is there
   * unchanged, and every date that was not loaded lies from `start` on and
   * before the last loaded day.
   */
  predicate Kept(orig: seq<Dayfilerec>, rs: seq<Dayfilerec>, start: int) {
    && Dates(orig) <= Dates(rs)
    && (forall r :: r in CompleteDays(orig) ==> r in rs)
    && (forall m :: 0 <= m < |rs| && rs[m].date !in Dates(orig) ==>
          |orig| > 0 && start <= rs[m].date < orig[|orig| - 1].date)
  }

  /** The days of `rs` with nothing missing, in order. */
  function CompleteDays(rs: seq<Dayfilerec>): (c: seq<Dayfilerec>)
    ensures |c| <= |rs|
  {
    if rs == [] then []
    else (if HasMissingData(rs[0]) then [] else [rs[0]]) + CompleteDays(rs[1..])
  }

  /** CompleteDays holds exactly the days of `rs` with nothing missing. */
  lemma {:induction false} CompleteDaysAre(rs: seq<Dayfilerec>)
    ensures forall x :: x in CompleteDays(rs) <==> x in rs && !HasMissingData(x)
  {
    if rs != [] {
      CompleteDaysAre(rs[1..]);
      assert forall x :: x in rs <==> x == rs[0] || x in rs[1..];
    }
  }

  /** The days as loaded are kept. */
  lemma KeptAtStart(orig: seq<Dayfilerec>, start: int)
    ensures Kept(orig, orig, start)
  {
    CompleteDaysAre(orig);
  }

  /**
   * Inserting, before stored day `i`, records dated from `from` (not before
   * `start`) up to before that day keeps what the walk keeps.
   */
  lemma KeptAfterGap(orig: seq<Dayfilerec>, rs: seq<Dayfilerec>, added: nat, i: nat, b: seq<Dayfilerec>,
                     from: int, start: int)
    requires Walk(rs, added, i, orig) && i < |rs| && Kept(orig, rs, start) && start <= from
    requires forall m :: 0 <= m < |b| ==> from <= b[m].date < rs[i].date
    ensures Kept(orig, rs[..i] + b + rs[i..], start)
  {
    var s := rs[..i] + b + rs[i..];
    assert rs[|rs| - 1] == orig[|orig| - 1] by {
      assert rs[i..] == orig[i - added..];
      assert rs[i..][|rs| - 1 - i] == orig[i - added..][|rs| - 1 - i];
    }
    assert rs[i].date <= rs[|rs| - 1].date;
    SpliceKeepsMembers(rs, i, b);
    forall d | d in Dates(rs)
      ensures d in Dates(s)
    {
      var k :| 0 <= k < |rs| && rs[k].date == d;
      assert rs[k] in s;
    }
    forall m | 0 <= m < |s| && s[m].date !in Dates(orig)
      ensures |orig| > 0 && start <= s[m].date < orig[|orig| - 1].date
    {
      if m < i {
        assert s[m] == rs[m];
      } else if m < i + |b| {
        assert s[m] == b[m - i];
      } else {
        // a day from i on is a loaded one, whose date is a loaded date
        assert false;
      }
    }
  }

  /** Splicing records in before index `i` keeps every record there was. */
  lemma SpliceKeepsMembers(rs: seq<Dayfilerec>, i: nat, b: seq<Dayfilerec>)
    requires i <= |rs|
    ensures forall x :: x in rs ==> x in rs[..i] + b + rs[i..]
  {
    var s := rs[..i] + b + rs[i..];
    forall x | x in rs
      ensures x in s
    {
      var k :| 0 <= k < |rs| && rs[k] == x;
      if k < i {
        assert s[k] == x;
      } else {
        assert s[k + |b|] == rs[i..][k - i] == x;
      }
    }
  }

  /** When every loaded day lies before today, so does every day the walk added. */
  lemma KeptBeforeToday(orig: seq<Dayfilerec>, rs: seq<Dayfilerec>, start: int, today: int)
    requires Kept(orig, rs, start)
    ensures (forall k :: 0 <= k < |orig| ==> orig[k].date < today) ==>
      forall m :: 0 <= m < |rs| && rs[m].date !in Dates(orig) ==> start <= rs[m].date < today
  {
  }

  /** Repairing stored day `i` in place, when it has missing data, keeps what the walk keeps. */
  lemma KeptAfterRepair(orig: seq<Dayfilerec>, rs: seq<Dayfilerec>, i: nat, x: Dayfilerec, start: int)
    requires Kept(orig, rs, start) && i < |rs| && x.date == rs[i].date && HasMissingData(rs[i])
    ensures Kept(orig, rs[i := x], start)
  {
    var s := rs[i := x];
    assert Dates(s) == Dates(rs) by {
      forall d | d in Dates(rs) ensures d in Dates(s) {
        var k :| 0 <= k < |rs| && rs[k].date == d;
        assert s[k].date == d;
      }
      forall d | d in Dates(s) ensures d in Dates(rs) {
        var k :| 0 <= k < |s| && s[k].date == d;
        assert rs[k].date == d;
      }
    }
    CompleteDaysAre(orig);
    forall r | r in CompleteDays(orig)
      ensures r in s
    {
      var k :| 0 <= k < |rs| && rs[k] == r;
      assert k != i;
      assert s[k] == r;
    }
    forall m | 0 <= m < |s| && s[m].date !in Dates(orig)
      ensures |orig| > 0 && start <= s[m].date < orig[|orig| - 1].date
    {
      assert s[m].date == rs[m].date;
    }
  }

  /**
   * The outer loop's invariant at stored day `i` and date `currDate`: the
   * walk's invariant, the day before `i` lies before `currDate`, and the
   * walk started at `start`.
   */
  ghost predicate WalkState(rs: seq<Dayfilerec>, added: nat, i: int, orig: seq<Dayfilerec>, currDate: int, start: int) {
    && Walk(rs, added, i, orig)
    && (i > 0 ==> rs[i - 1].date < currDate)
    && start <= currDate
  }

  /** The walk starts at the first stored day with nothing added. */
  lemma WalkAtStart(orig: seq<Dayfilerec>, start: int)
    requires StrictlyAscending(orig)
    ensures WalkState(orig, 0, 0, orig, start, start)
  {
  }

  /**
   * Checking a stored day on or before `currDate`, and repairing it in
   * place with a record of the same date, leaves
   * the outer loop's invariant at the next stored day and the next date.
   */
  lemma StoredDayKeeps(rs: seq<Dayfilerec>, x: Dayfilerec, added: nat, i: nat, orig: seq<Dayfilerec>, currDate: int,
                       start: int, ro: MeteoDay.Rollover)
    requires WalkState(rs, added, i, orig, currDate, start) && i < |rs| && rs[i].date <= currDate
    requires x.date == rs[i].date
    ensures WalkState(rs[i := x], added, i + 1, orig, MeteoDay.IncrementMeteoDate(ro, currDate), start)
  {
    MeteoDay.IncrementAdvancesOneDay(ro, currDate);
    WalkRepairs(rs, added, i, orig, x);
  }

  /** Passing a stored day on or before `currDate` untouched leaves the outer loop's invariant at the next one. */
  lemma StoredDayPasses(rs: seq<Dayfilerec>, added: nat, i: nat, orig: seq<Dayfilerec>, currDate: int, start: int,
                        ro: MeteoDay.Rollover)
    requires WalkState(rs, added, i, orig, currDate, start) && i < |rs| && rs[i].date <= currDate
    ensures WalkState(rs, added, i + 1, orig, MeteoDay.IncrementMeteoDate(ro, currDate), start)
  {
    MeteoDay.IncrementAdvancesOneDay(ro, currDate);
    WalkPasses(rs, added, i, orig);
  }

  /** The program's state: the loaded day file, the log cursor and the four counters. */
  class Repair {
    const dayfile: DayFile
    const cursor: LogCursor
    var recsAdded: nat
    var recsUpdated: nat
    var recsNoData: nat
    var recsOk: nat

    constructor (dayfile: DayFile, cursor: LogCursor)
      ensures this.dayfile == dayfile && this.cursor == cursor
      ensures recsAdded == 0 && recsUpdated == 0 && recsNoData == 0 && recsOk == 0
    {
      this.dayfile := dayfile;
      this.cursor := cursor;
      recsAdded, recsUpdated, recsNoData, recsOk := 0, 0, 0, 0;
    }

    /**
     * AddMissingData: rebuilds the day at `idx` from the logs and fills in
     * its missing fields; a day with no log data is counted and left alone.
     */
    method AddMissingData(idx: nat, metDate: int, ghost rebuild: DaySource, env: LogEnv, ro: MeteoDay.Rollover,
                          cfg: DayConfig)
      returns (result: DayResult)
      requires idx < |dayfile.dayfileRecs| && Rebuilds(rebuild, env, ro, cfg)
      modifies this`recsUpdated, this`recsNoData, dayfile`dayfileRecs, cursor
      ensures (result, cursor.State()) == rebuild(old(cursor.State()), metDate)
      ensures result.Built? ==>
        && dayfile.dayfileRecs == old(dayfile.dayfileRecs)[idx := MergeMissing(old(dayfile.dayfileRecs)[idx], result.rec)]
        && recsUpdated == old(recsUpdated) + 1 && recsNoData == old(recsNoData)
      ensures result.NoData? ==>
        && dayfile.dayfileRecs == old(dayfile.dayfileRecs)
        && recsUpdated == old(recsUpdated) && recsNoData == old(recsNoData) + 1
      ensures result.Fatal? ==>
        && dayfile.dayfileRecs == old(dayfile.dayfileRecs)
        && recsUpdated == old(recsUpdated) && recsNoData == old(recsNoData)
    {
      result := cursor.GetDayRecFromMonthly(metDate, env, ro, cfg);
      match result
      case Fatal(_) =>
      case NoData =>
        recsNoData := recsNoData + 1;
      case Built(newRec) =>
        dayfile.dayfileRecs := dayfile.dayfileRecs[idx := MergeMissing(dayfile.dayfileRecs[idx], newRec)];
        recsUpdated := recsUpdated + 1;
    }

    /**
     * One pass of Main's inner loop body: rebuild the meteorological day at
     * `next` from the logs, and insert it in front of stored day `j` or
     * count it as having no data. Returns what the logs gave for the day
     * and the index the stored day has moved to.
     */
    method CreateMissingDay(j: nat, next: int, ghost rebuild: DaySource, env: LogEnv, ro: MeteoDay.Rollover,
                            cfg: DayConfig)
      returns (k: nat, result: DayResult)
      requires j <= |dayfile.dayfileRecs| && Rebuilds(rebuild, env, ro, cfg)
      modifies this`recsAdded, this`recsNoData, dayfile`dayfileRecs, cursor
      ensures (result, cursor.State()) == rebuild(old(cursor.State()), next)
      ensures (dayfile.dayfileRecs, k, recsAdded, recsNoData)
           == Placed(old(dayfile.dayfileRecs), j, old(recsAdded), old(recsNoData), result)
    {
      result := cursor.GetDayRecFromMonthly(next, env, ro, cfg);
      k := j;
      if result.NoData? {
        recsNoData := recsNoData + 1;
      } else if result.Built? {
        dayfile.dayfileRecs := dayfile.dayfileRecs[..j] + [result.rec] + dayfile.dayfileRecs[j..];
        recsAdded := recsAdded + 1;
        k := j + 1;
      }
    }

    /**
     * The inner loop of Main: while stored day `i` lies ahead of
     * `currDate`, create the meteorological day at `currDate` and step a
     * day on. Returns the index the stored day has moved to, the date
     * reached and whether a fatal log line stopped the program; as ghosts,
     * the days rebuilt and what each gave. All of it is the run `Gap`
     * describes, and the records built are spliced in front of the stored
     * day.
     */
    method FillGap(i: nat, currDate: int, ghost rebuild: DaySource, env: LogEnv, ro: MeteoDay.Rollover, cfg: DayConfig)
      returns (j: nat, next: int, fatal: bool, ghost days: seq<int>, ghost results: seq<DayResult>)
      requires i < |dayfile.dayfileRecs| && dayfile.dayfileRecs[i].date > currDate
      requires Rebuilds(rebuild, env, ro, cfg)
      modifies this`recsAdded, this`recsNoData, dayfile`dayfileRecs, cursor
      ensures Gap(rebuild, old(cursor.State()), currDate, old(dayfile.dayfileRecs[i].date), ro)
           == GapRun(days, results, cursor.State(), next, fatal)
      ensures (dayfile.dayfileRecs, j, recsAdded, recsNoData)
           == Spliced(old(dayfile.dayfileRecs), i, old(recsAdded), old(recsNoData), results)
    {
      j, next, fatal := i, currDate, false;
      ghost var rs0, stop, c0 := dayfile.dayfileRecs, dayfile.dayfileRecs[i].date, cursor.State();
      ghost var added0, noData0 := recsAdded, recsNoData;
      ghost var run := Gap(rebuild, c0, currDate, stop, ro);
      days, results := [], [];
      assert rs0[..i] + Builts(results) + rs0[i..] == rs0;
      while !fatal && dayfile.dayfileRecs[j].date > next
        invariant (dayfile.dayfileRecs, j, recsAdded, recsNoData) == Spliced(rs0, i, added0, noData0, results)
        invariant run == Resumed(rebuild, days, results, cursor.State(), next, fatal, stop, ro)
        decreases stop - next, if fatal then 0 else 1
      {
        GapStep(run, rebuild, days, results, cursor.State(), next, stop, ro);
        var result;
        j, result := CreateMissingDay(j, next, rebuild, env, ro, cfg);
        SplicedStep(rs0, i, added0, noData0, results, result);
        days, results := days + [next], results + [result];
        fatal := result.Fatal?;
        if !fatal {
          MeteoDay.IncrementAdvancesOneDay(ro, next);
          next := MeteoDay.IncrementMeteoDate(ro, next);
        }
      }
    }

    /** The walk's state at stored day `i` and date `currDate`. */
    function Now(i: int, currDate: int): (w: Walker)
      reads this, dayfile, cursor
      ensures w.rs == dayfile.dayfileRecs && w.i == i && w.currDate == currDate && w.cursor == cursor.State()
      ensures w.added == recsAdded && w.updated == recsUpdated && w.noData == recsNoData && w.ok == recsOk
    {
      Walker(dayfile.dayfileRecs, i, currDate, cursor.State(), recsAdded, recsUpdated, recsNoData, recsOk)
    }

    /**
     * The branch of Main for a day the file has: repaired through
     * AddMissingData when it has missing data, counted as OK otherwise.
     * Returns whether a fatal log line stopped the program.
     */
    method CheckStoredDay(i: nat, currDate: int, ghost rebuild: DaySource, env: LogEnv, ro: MeteoDay.Rollover,
                          cfg: DayConfig)
      returns (fatal: bool)
      requires i < |dayfile.dayfileRecs| && dayfile.dayfileRecs[i].date <= currDate
      requires Rebuilds(rebuild, env, ro, cfg)
      modifies this`recsUpdated, this`recsNoData, this`recsOk, dayfile`dayfileRecs, cursor
      ensures (Now(i + 1, MeteoDay.IncrementMeteoDate(ro, currDate)), fatal) == Body(rebuild, ro, old(Now(i, currDate)))
    {
      if HasMissingData(dayfile.dayfileRecs[i]) {
        var result := AddMissingData(i, currDate, rebuild, env, ro, cfg);
        fatal := result.Fatal?;
      } else {
        recsOk := recsOk + 1;
        fatal := false;
      }
    }

    /**
     * The branch of Main for a stored day that lies ahead: the inner loop
     * (FillGap), then one day and one index back, so that the step of the
     * outer loop lands on the date reached and on the stored day.
     */
    method PassGap(i: nat, currDate: int, ghost rebuild: DaySource, env: LogEnv, ro: MeteoDay.Rollover,
                   cfg: DayConfig)
      returns (back: int, prev: int, fatal: bool)
      requires i < |dayfile.dayfileRecs| && dayfile.dayfileRecs[i].date > currDate
      requires Rebuilds(rebuild, env, ro, cfg)
      modifies this`recsAdded, this`recsNoData, dayfile`dayfileRecs, cursor
      ensures i <= back + 1
      ensures (Now(back + 1, MeteoDay.IncrementMeteoDate(ro, prev)), fatal) == Body(rebuild, ro, old(Now(i, currDate)))
    {
      var j, next;
      ghost var days, results;
      j, next, fatal, days, results := FillGap(i, currDate, rebuild, env, ro, cfg);
      // back a day, so that the outer loop's step lands on the date reached
      prev := next - MeteoDay.MinutesPerDay;
      back := j as int - 1;
    }

    /**
     * One pass of Main's outer loop body: the branch for the stored day at
     * `i`, then the step to the next meteorological day. Returns the index
     * before the next stored day (the loop's own step moves past it), the
     * next date, and whether a fatal log line stopped the program.
     */
    method PassDay(i: nat, currDate: int, ghost today: int, ghost rebuild: DaySource, env: LogEnv, ro: MeteoDay.Rollover,
                   cfg: DayConfig)
      returns (back: int, next: int, fatal: bool)
      requires i < |dayfile.dayfileRecs|
      requires Rebuilds(rebuild, env, ro, cfg)
      modifies this, dayfile`dayfileRecs, cursor
      ensures i <= back + 1
      ensures var w := old(Now(i, currDate)); var w1 := Now(back + 1, next);
        Walked(rebuild, ro, today, w) == if fatal || next >= today then (w1, fatal) else Walked(rebuild, ro, today, w1)
      ensures !fatal ==> currDate < next
    {
      ghost var w := Now(i, currDate);
      WalkedStep(rebuild, ro, today, w);
      var prev;
      if dayfile.dayfileRecs[i].date > currDate {
        back, prev, fatal := PassGap(i, currDate, rebuild, env, ro, cfg);
      } else {
        fatal := CheckStoredDay(i, currDate, rebuild, env, ro, cfg);
        back, prev := i, currDate;
      }
      next := MeteoDay.IncrementMeteoDate(ro, prev);
    }

    /**
     * Main's walk over the day file from `start`, the first meteorological
     * day, up to `today`: the run `Walked` describes. Returns whether a
     * fatal log line stopped the program and, as ghosts, the stored day and
     * the date the walk stopped at.
     */
    method WalkDays(start: int, today: int, ghost rebuild: DaySource, env: LogEnv, ro: MeteoDay.Rollover,
                    cfg: DayConfig)
      returns (fatal: bool, ghost at: int, ghost date: int)
      requires Rebuilds(rebuild, env, ro, cfg)
      modifies this, dayfile`dayfileRecs, cursor
      ensures (Now(at, date), fatal) == Walked(rebuild, ro, today, old(Now(0, start)))
    {
      var currDate := start;
      var i: nat := 0;
      ghost var spec := Walked(rebuild, ro, today, Now(i, currDate));
      while i < |dayfile.dayfileRecs|
        invariant Walked(rebuild, ro, today, Now(i, currDate)) == spec
        decreases if currDate < today then today - currDate else 0
      {
        var back;
        back, currDate, fatal := PassDay(i, currDate, today, rebuild, env, ro, cfg);
        if fatal || currDate >= today {
          at, date := back + 1, currDate;
          return;
        }
        i := back + 1;
      }
      fatal, at, date := false, i, currDate;
    }

    /**
     * Main from the loaded day file to the written one. The walk starts at
     * the records-began date, or at the first stored day when that is
     * earlier; it stops unless confirmed and when the start is not before
     * today. A fatal log line stops the program before anything is written.
     */
    method Run(recordsBegan: int, confirmed: bool, today: int, env: LogEnv, ro: MeteoDay.Rollover,
               cfg: DayConfig, w: Formatter, f: Formats) returns (outcome: RunOutcome, ghost fatal: bool)
      requires StrictlyAscending(dayfile.dayfileRecs)
      requires recsAdded == 0
      requires forall d :: env.addMonths(d) > d
      modifies this, dayfile`dayfileRecs, cursor
      ensures StrictlyAscending(dayfile.dayfileRecs)
      ensures |dayfile.dayfileRecs| == |old(dayfile.dayfileRecs)| + recsAdded
      ensures outcome.Exited? ==> outcome.code == 1
      ensures !confirmed ==> outcome == Exited(1)
      ensures WalkStart(recordsBegan, old(dayfile.dayfileRecs)) >= today ==> outcome == Exited(1)
      ensures outcome.Exited? <==> !confirmed || WalkStart(recordsBegan, old(dayfile.dayfileRecs)) >= today || fatal
      ensures confirmed && WalkStart(recordsBegan, old(dayfile.dayfileRecs)) < today ==>
        var start := MeteoDay.SetStartTime(ro, WalkStart(recordsBegan, old(dayfile.dayfileRecs)));
        var walked := Walked(Rebuilder(env, ro, cfg), ro, today, old(Now(0, start)));
        fatal == walked.1 && Now(walked.0.i, walked.0.currDate) == walked.0 &&
        Kept(old(dayfile.dayfileRecs), dayfile.dayfileRecs, start)
      ensures confirmed && WalkStart(recordsBegan, old(dayfile.dayfileRecs)) < today &&
              (forall k :: 0 <= k < |old(dayfile.dayfileRecs)| ==> old(dayfile.dayfileRecs)[k].date < today) ==>
        forall m :: 0 <= m < |dayfile.dayfileRecs| && dayfile.dayfileRecs[m].date !in Dates(old(dayfile.dayfileRecs)) ==>
          MeteoDay.SetStartTime(ro, WalkStart(recordsBegan, old(dayfile.dayfileRecs))) <= dayfile.dayfileRecs[m].date < today
      ensures outcome.Saved? ==> outcome.text == WrittenText(dayfile.dayfileRecs, w, f, dayfile.Seps())
    {
      var currDate := recordsBegan;
      var dayfileStart := if |dayfile.dayfileRecs| > 0 then dayfile.dayfileRecs[0].date else MaxTime;
      if dayfileStart < currDate {
        currDate := dayfileStart;
      }
      assert currDate == WalkStart(recordsBegan, dayfile.dayfileRecs);
      fatal := false;
      if !confirmed {
        return Exited(1), fatal;
      }
      if currDate >= today {
        return Exited(1), fatal;
      }
      currDate := MeteoDay.SetStartTime(ro, currDate);
      ghost var orig, w0 := dayfile.dayfileRecs, Now(0, currDate);
      var stopped;
      ghost var at, date;
      stopped, at, date := WalkDays(currDate, today, Rebuilder(env, ro, cfg), env, ro, cfg);
      fatal := stopped;
      WalkAtStart(orig, currDate);
      KeptAtStart(orig, currDate);
      WalkedKeeps(Rebuilder(env, ro, cfg), env, ro, cfg, today, w0, orig, currDate);
      KeptBeforeToday(orig, dayfile.dayfileRecs, currDate, today);
      if stopped {
        return Exited(1), fatal;
      }
      var text := dayfile.WriteDayFile(w, f);
      outcome := Saved(text);
    }
  }

  /**
   * Stepping back a day from `next` and on again lands on the same
   * calendar day: still after any time on an earlier day.
   */
  lemma RestartStaysAhead(ro: MeteoDay.Rollover, next: int, x: int, c0: int)
    requires MeteoDay.Day(x) < MeteoDay.Day(next) && MeteoDay.Day(c0) < MeteoDay.Day(next)
    ensures var d := MeteoDay.IncrementMeteoDate(ro, next - MeteoDay.MinutesPerDay);
      x < d && c0 < d
  {
    var d := MeteoDay.IncrementMeteoDate(ro, next - MeteoDay.MinutesPerDay);
    assert MeteoDay.Day(d) == MeteoDay.Day(next);
    MeteoDay.EarlierDayIsEarlier(x, d);
    MeteoDay.EarlierDayIsEarlier(c0, d);
  }

  /**
   * Splicing an ascending run of records dated from `from` up to before
   * stored day `i`, when the day before `i` lies before `from`, keeps the
   * walk's invariant, with the stored day moved past the run.
   */
  lemma WalkAfterGap(rs: seq<Dayfilerec>, added: nat, i: nat, orig: seq<Dayfilerec>, b: seq<Dayfilerec>, from: int)
    requires Walk(rs, added, i, orig) && i < |rs| && (i > 0 ==> rs[i - 1].date < from)
    requires StrictlyAscending(b) && forall m :: 0 <= m < |b| ==> from <= b[m].date < rs[i].date
    ensures Walk(rs[..i] + b + rs[i..], added + |b|, i + |b|, orig)
  {
    var s := rs[..i] + b + rs[i..];
    assert s[i + |b|..] == rs[i..];
    forall x, y | 0 <= x < y < |s|
      ensures s[x].date < s[y].date
    {
      if y < i {
        assert s[x] == rs[x] && s[y] == rs[y];
      } else if y < i + |b| {
        assert s[y] == b[y - i];
        if x < i {
          assert s[x] == rs[x];
          assert rs[x].date <= rs[i - 1].date;
        } else {
          assert s[x] == b[x - i];
        }
      } else {
        assert s[y] == rs[y - |b|];
        if x < i {
          assert s[x] == rs[x];
        } else if x < i + |b| {
          assert s[x] == b[x - i];
          assert rs[i].date <= rs[y - |b|].date;
        } else {
          assert s[x] == rs[x - |b|];
        }
      }
    }
  }

  /** Inserting one more record after a block inserted at `i`. */
  lemma InsertAfterBlock(rs0: seq<Dayfilerec>, i: nat, b: seq<Dayfilerec>, r: Dayfilerec)
    requires i <= |rs0|
    ensures var rs := rs0[..i] + b + rs0[i..];
      rs[..i + |b|] + [r] + rs[i + |b|..] == rs0[..i] + (b + [r]) + rs0[i..]
  {
    var rs := rs0[..i] + b + rs0[i..];
    assert rs[..i + |b|] == rs0[..i] + b;
    assert rs[i + |b|..] == rs0[i..];
  }
}
