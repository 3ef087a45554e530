/**
 * Hour-bucket averaging over a dictionary of weather readings
 * (WeatherDataDict.cs). The dictionary is its enumeration: a sequence of
 * (timestamp, reading) entries, timestamps in minutes.
 */
module WeatherDataDict {
  import opened Wrappers
  import MeteoLib

  /** One set of readings; each may be null. */
  datatype WeatherData = WeatherData(
    temp: Option<real>,
    humidity: Option<int>,
    pressure: Option<real>,
    solarRad: Option<int>,
    solarMax: Option<int>,
    windSpeed: Option<real>)

  datatype Entry = Entry(key: int, value: WeatherData)

  const MinutesPerDay: int := 1440

  /** DateTime.Date, as a day number. */
  function DateOf(t: int): int { t / MinutesPerDay }

  /** DateTime.Hour. */
  function HourOf(t: int): int { (t % MinutesPerDay) / 60 }

  /** `t` lies in the same calendar date and hour of day as `date`. */
  predicate SameHour(t: int, date: int) {
    DateOf(t) == DateOf(date) && HourOf(t) == HourOf(date)
  }

  /** The readings whose key shares the date and hour of `date`, in order. */
  function DataForHour(dict: seq<Entry>, date: int): (r: seq<WeatherData>)
    ensures |r| <= |dict|
    ensures forall w :: w in r ==> exists e :: e in dict && SameHour(e.key, date) && e.value == w
    ensures forall e :: e in dict && SameHour(e.key, date) ==> e.value in r
    ensures r == [] <==> forall e :: e in dict ==> !SameHour(e.key, date)
  {
    if dict == [] then []
    else
      var rest := DataForHour(dict[1..], date);
      assert forall e :: e in dict[1..] ==> e in dict;
      if SameHour(dict[0].key, date) then [dict[0].value] + rest else rest
  }

  /**
   * The bucket of a dictionary enumerated in two parts is the bucket of the
   * first part followed by that of the second: the readings keep their
   * enumeration order.
   */
  lemma {:induction false} DataForHourKeepsOrder(a: seq<Entry>, b: seq<Entry>, date: int)
    ensures DataForHour(a + b, date) == DataForHour(a, date) + DataForHour(b, date)
  {
    if a != [] {
      assert (a + b)[1..] == a[1..] + b;
      DataForHourKeepsOrder(a[1..], b, date);
    } else {
      assert a + b == b;
    }
  }

  function Sum(xs: seq<real>): real {
    if xs == [] then 0.0 else xs[0] + Sum(xs[1..])
  }

  /** LINQ's Average over a non-empty sequence. */
  function Mean(xs: seq<real>): real
    requires xs != []
  {
    Sum(xs) / |xs| as real
  }

  /** A null reading counts as 0. */
  function OrZero(v: Option<real>): real { v.GetOr(0.0) }
  function IntOrZero(v: Option<int>): real { v.GetOr(0) as real }

  function Temps(ws: seq<WeatherData>): seq<real> { seq(|ws|, i requires 0 <= i < |ws| => OrZero(ws[i].temp)) }
  function Humidities(ws: seq<WeatherData>): seq<real> { seq(|ws|, i requires 0 <= i < |ws| => IntOrZero(ws[i].humidity)) }
  function Pressures(ws: seq<WeatherData>): seq<real> { seq(|ws|, i requires 0 <= i < |ws| => OrZero(ws[i].pressure)) }
  function SolarRads(ws: seq<WeatherData>): seq<real> { seq(|ws|, i requires 0 <= i < |ws| => IntOrZero(ws[i].solarRad)) }
  function SolarMaxes(ws: seq<WeatherData>): seq<real> { seq(|ws|, i requires 0 <= i < |ws| => IntOrZero(ws[i].solarMax)) }
  function WindSpeeds(ws: seq<WeatherData>): seq<real> { seq(|ws|, i requires 0 <= i < |ws| => OrZero(ws[i].windSpeed)) }

  /**
   * The averages of the readings in the date-and-hour bucket of `date`, or
   * None when the bucket is empty. Null readings count as 0; humidity and
   * the two solar values are truncated to int, the rest are plain means.
   */
  function GetAverages(dict: seq<Entry>, date: int): (r: Option<WeatherData>)
    ensures r.None? <==> forall e :: e in dict ==> !SameHour(e.key, date)
    ensures r.Some? ==>
      var ws := DataForHour(dict, date);
      ws != []
      && r.value.temp == Some(Mean(Temps(ws)))
      && r.value.humidity == Some(MeteoLib.Truncate(Mean(Humidities(ws))))
      && r.value.pressure == Some(Mean(Pressures(ws)))
      && r.value.solarRad == Some(MeteoLib.Truncate(Mean(SolarRads(ws))))
      && r.value.solarMax == Some(MeteoLib.Truncate(Mean(SolarMaxes(ws))))
      && r.value.windSpeed == Some(Mean(WindSpeeds(ws)))
  {
    var ws := DataForHour(dict, date);
    if ws != [] then
      Some(WeatherData(
        Some(Mean(Temps(ws))),
        Some(MeteoLib.Truncate(Mean(Humidities(ws)))),
        Some(Mean(Pressures(ws))),
        Some(MeteoLib.Truncate(Mean(SolarRads(ws)))),
        Some(MeteoLib.Truncate(Mean(SolarMaxes(ws)))),
        Some(Mean(WindSpeeds(ws)))))
    else None
  }

  /** Only the date and hour of the argument matter, not its minutes. */
  lemma {:induction false} BucketDecidesAverages(dict: seq<Entry>, d1: int, d2: int)
    requires DateOf(d1) == DateOf(d2) && HourOf(d1) == HourOf(d2)
    ensures GetAverages(dict, d1) == GetAverages(dict, d2)
  {
    SameBucketSameData(dict, d1, d2);
  }

  lemma {:induction false} SameBucketSameData(dict: seq<Entry>, d1: int, d2: int)
    requires DateOf(d1) == DateOf(d2) && HourOf(d1) == HourOf(d2)
    ensures DataForHour(dict, d1) == DataForHour(dict, d2)
  {
    if dict != [] {
      SameBucketSameData(dict[1..], d1, d2);
    }
  }

  /** The smallest and largest element of a non-empty sequence. */
  function MinOf(xs: seq<real>): (r: real)
    requires xs != []
    ensures r in xs && forall x :: x in xs ==> r <= x
  {
    if |xs| == 1 then xs[0]
    else
      var m := MinOf(xs[1..]);
      assert forall x :: x in xs ==> x == xs[0] || x in xs[1..];
      if xs[0] <= m then xs[0] else m
  }

  function MaxOf(xs: seq<real>): (r: real)
    requires xs != []
    ensures r in xs && forall x :: x in xs ==> x <= r
  {
    if |xs| == 1 then xs[0]
    else
      var m := MaxOf(xs[1..]);
      assert forall x :: x in xs ==> x == xs[0] || x in xs[1..];
      if xs[0] >= m then xs[0] else m
  }

  /** A sum of n terms each between lo and hi lies between n*lo and n*hi. */
  lemma {:induction false} SumBounds(xs: seq<real>, lo: real, hi: real)
    requires forall x :: x in xs ==> lo <= x <= hi
    ensures |xs| as real * lo <= Sum(xs) <= |xs| as real * hi
  {
    if xs != [] {
      var rest := xs[1..];
      assert forall x :: x in rest ==> x in xs;
      SumBounds(rest, lo, hi);
      assert xs[0] in xs;
      assert Sum(xs) == xs[0] + Sum(rest);
      assert |xs| as real == |rest| as real + 1.0;
      AddOneBounded(xs[0], Sum(rest), |rest| as real, lo, hi);
    }
  }

  /** Adding one more value within the bounds to a bounded sum of `k` values. */
  lemma AddOneBounded(x: real, s: real, k: real, lo: real, hi: real)
    requires lo <= x <= hi && k * lo <= s <= k * hi
    ensures (k + 1.0) * lo <= x + s <= (k + 1.0) * hi
  {
    assert (k + 1.0) * lo == lo + k * lo;
    assert (k + 1.0) * hi == hi + k * hi;
  }

  /** The mean of a non-empty sequence lies between its minimum and maximum. */
  lemma MeanBetweenExtremes(xs: seq<real>)
    requires xs != []
    ensures MinOf(xs) <= Mean(xs) <= MaxOf(xs)
  {
    var n := |xs| as real;
    var lo, hi := MinOf(xs), MaxOf(xs);
    SumBounds(xs, lo, hi);
    DivideBounds(Sum(xs), n, lo, hi);
  }

  lemma DivideBounds(s: real, n: real, lo: real, hi: real)
    requires n > 0.0 && n * lo <= s <= n * hi
    ensures lo <= s / n <= hi
  {
    var q := s / n;
    assert (q - lo) * n == s - n * lo;
    assert (hi - q) * n == n * hi - s;
    FactorNonNeg(q - lo, n);
    FactorNonNeg(hi - q, n);
  }

  /** A product with a positive factor is non-negative only if the other factor is. */
  lemma FactorNonNeg(a: real, n: real)
    requires n > 0.0 && a * n >= 0.0
    ensures a >= 0.0
  {
  }

  /**
   * Every average GetAverages reports lies between the smallest and the
   * largest contributing value (nulls taken as 0); for the truncated fields
   * this holds before truncation.
   */
  lemma AveragesWithinReadings(dict: seq<Entry>, date: int)
    requires GetAverages(dict, date).Some?
    ensures var ws := DataForHour(dict, date);
      && MinOf(Temps(ws)) <= GetAverages(dict, date).value.temp.value <= MaxOf(Temps(ws))
      && MinOf(Pressures(ws)) <= GetAverages(dict, date).value.pressure.value <= MaxOf(Pressures(ws))
      && MinOf(WindSpeeds(ws)) <= GetAverages(dict, date).value.windSpeed.value <= MaxOf(WindSpeeds(ws))
      && MinOf(Humidities(ws)) <= Mean(Humidities(ws)) <= MaxOf(Humidities(ws))
      && MinOf(SolarRads(ws)) <= Mean(SolarRads(ws)) <= MaxOf(SolarRads(ws))
      && MinOf(SolarMaxes(ws)) <= Mean(SolarMaxes(ws)) <= MaxOf(SolarMaxes(ws))
      && MeteoLib.Truncate(MinOf(Humidities(ws))) <= GetAverages(dict, date).value.humidity.value
      && GetAverages(dict, date).value.humidity.value <= MeteoLib.Truncate(MaxOf(Humidities(ws)))
      && MeteoLib.Truncate(MinOf(SolarRads(ws))) <= GetAverages(dict, date).value.solarRad.value
      && GetAverages(dict, date).value.solarRad.value <= MeteoLib.Truncate(MaxOf(SolarRads(ws)))
      && MeteoLib.Truncate(MinOf(SolarMaxes(ws))) <= GetAverages(dict, date).value.solarMax.value
      && GetAverages(dict, date).value.solarMax.value <= MeteoLib.Truncate(MaxOf(SolarMaxes(ws)))
  {
    var ws := DataForHour(dict, date);
    MeanBetweenExtremes(Temps(ws));
    MeanBetweenExtremes(Pressures(ws));
    MeanBetweenExtremes(WindSpeeds(ws));
    MeanBetweenExtremes(Humidities(ws));
    MeanBetweenExtremes(SolarRads(ws));
    MeanBetweenExtremes(SolarMaxes(ws));
    TruncatedBetween(Humidities(ws));
    TruncatedBetween(SolarRads(ws));
    TruncatedBetween(SolarMaxes(ws));
  }

  lemma TruncatedBetween(xs: seq<real>)
    requires xs != [] && MinOf(xs) <= Mean(xs) <= MaxOf(xs)
    ensures MeteoLib.Truncate(MinOf(xs)) <= MeteoLib.Truncate(Mean(xs)) <= MeteoLib.Truncate(MaxOf(xs))
  {
    MeteoLib.TruncateMonotone(MinOf(xs), Mean(xs));
    MeteoLib.TruncateMonotone(Mean(xs), MaxOf(xs));
  }
}
