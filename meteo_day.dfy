/**
 * Meteorological-day stepping (Program.cs SetStartTime and
 * IncrementMeteoDate). A meteorological day starts at midnight, or at
 * 09:00 (10:00 in summer when configured) when the rollover hour is not
 * midnight. Whether local time is on daylight saving is an oracle.
 */
module MeteoDay {

  /** Minutes in a day and in an hour. */
  const MinutesPerDay: int := 1440
  const MinutesPerHour: int := 60

  /** The rollover settings and the local time zone's daylight-saving test. */
  datatype Rollover = Rollover(rolloverHour: int, use10amInSummer: bool, isDst: int -> bool)

  /** The calendar day of a time, as a day number. */
  function Day(t: int): int { t / 1440 }

  /** DateTime.Date: midnight at the start of the day of `t`. */
  function Midnight(t: int): (r: int)
    ensures r <= t < r + MinutesPerDay && Day(r) == Day(t) && r % MinutesPerDay == 0
  {
    Day(t) * 1440
  }

  /** DateTime.Hour. */
  function Hour(t: int): (h: int)
    ensures 0 <= h < 24
  {
    (t % 1440) / 60
  }

  /**
   * The start of the meteorological day for `t`: `t` itself with a
   * midnight rollover, otherwise 09:00 of the same calendar day, or 10:00
   * when summer time applies at `t` and 10 am in summer is configured.
   */
  function SetStartTime(ro: Rollover, t: int): (r: int)
    ensures ro.rolloverHour == 0 ==> r == t
    ensures ro.rolloverHour != 0 ==>
      Day(r) == Day(t) &&
      r == Midnight(t) + (if ro.use10amInSummer && ro.isDst(t) then 10 else 9) * MinutesPerHour
  {
    if ro.rolloverHour == 0 then t
    else
      var rawDate := Midnight(t);
      if ro.use10amInSummer && ro.isDst(t) then rawDate + 600
      else rawDate + 540
  }

  /** The start of the next meteorological day. */
  function IncrementMeteoDate(ro: Rollover, t: int): int {
    SetStartTime(ro, t + MinutesPerDay)
  }

  /**
   * Stepping always moves forward, and by exactly one calendar day: with a
   * midnight rollover by exactly 24 hours, otherwise to 09:00 or 10:00 of
   * the next day.
   */
  lemma IncrementAdvancesOneDay(ro: Rollover, t: int)
    ensures IncrementMeteoDate(ro, t) > t
    ensures Day(IncrementMeteoDate(ro, t)) == Day(t) + 1
    ensures ro.rolloverHour == 0 ==> IncrementMeteoDate(ro, t) == t + MinutesPerDay
  {
    var n := t + MinutesPerDay;
    assert Day(n) == Day(t) + 1 by {
      assert n / MinutesPerDay == t / MinutesPerDay + 1;
    }
    if ro.rolloverHour != 0 {
      assert Midnight(n) > t;
    }
  }

  /** Once a time is a meteorological day start, the next start is a day start of the same kind. */
  lemma StartTimesStayAtRollover(ro: Rollover, t: int)
    requires ro.rolloverHour != 0
    ensures var r := IncrementMeteoDate(ro, t);
      r - Midnight(r) == 9 * MinutesPerHour || r - Midnight(r) == 10 * MinutesPerHour
  {
    var n := t + MinutesPerDay;
    var r := SetStartTime(ro, n);
    assert Midnight(r) == Midnight(n);
  }

  /** A time on an earlier calendar day is the earlier time. */
  lemma EarlierDayIsEarlier(x: int, y: int)
    requires Day(x) < Day(y)
    ensures x < y
  {
    assert Midnight(x) + MinutesPerDay == (Day(x) + 1) * MinutesPerDay;
    assert (Day(x) + 1) * MinutesPerDay <= Day(y) * MinutesPerDay;
  }
}
