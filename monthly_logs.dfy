/**
 * The walk over the monthly log files that builds one day (Program.cs
 * GetDayRecFromMonthly), with the log cursor that survives from one day
 * to the next (CurrentLogLines, CurrentLogName, CurrentLogLineNum).
 *
 * File names, file contents and AddMonths are parameters: `fileName`
 * stands for GetLogFileName, `logs` for File.Exists / File.ReadAllLines
 * followed by splitting and parsing each line.
 */
module MonthlyLogs {
  import opened Wrappers
  import opened DayFile
  import MeteoDay
  import opened DayBuilder

  /** The log cursor: the lines of the file loaded last, its name (none yet) and the next line. */
  datatype Cursor = Cursor(lines: seq<LogLine>, name: Option<string>, lineNum: nat)

  /** What the walk yields for a day: a record, nothing, or a fatal line (the program exits). */
  datatype DayResult = Built(rec: Dayfilerec) | NoData | Fatal(line: nat)

  /** The file system as the walk sees it. */
  datatype LogEnv = LogEnv(
    logs: string -> Option<seq<LogLine>>,
    fileName: int -> string,
    addMonths: int -> int)

  /** The cursor once the file `name` is current: reloaded from line 0 only when the name differs. */
  function Opened(cursor: Cursor, name: string, lines: seq<LogLine>): Cursor {
    if cursor.name != Some(name) then Cursor(lines, Some(name), 0) else cursor
  }

  /**
   * The walk from the file for `fileDate` on. A missing file ends the day:
   * finalised when samples were seen and the day was not closed, no record
   * otherwise. A pass that returns or fails ends it too. A file that runs
   * out is followed by the next month's file, once: after the second file,
   * or once the closing sample was seen, the day ends with the record as
   * it stands, not finalised, or with no record when no sample was seen.
   */
  function FilePass(fileDate: int, date: int, cursor: Cursor, acc: DayAcc, env: LogEnv,
                    win: DayWindow, cfg: DayConfig): (r: (DayResult, Cursor))
    requires fileDate >= date && env.addMonths(date) > date
    decreases if fileDate > date then 0 else 1
  {
    var name := env.fileName(fileDate);
    match env.logs(name)
    case None =>
      (if acc.started && !acc.finished then Built(Finalise(acc, cfg)) else NoData, cursor)
    case Some(fileLines) =>
      var c := Opened(cursor, name, fileLines);
      match Scan(c.lines, c.lineNum, acc, win, cfg)
      case Failed(line) => (Fatal(line), c.(lineNum := line))
      case Returned(result, lineNum, _) =>
        (if result.Some? then Built(result.value) else NoData, c.(lineNum := lineNum))
      case Exhausted(a, lineNum) =>
        if a.finished || fileDate > date then
          (if a.started then Built(a.rec) else NoData, c.(lineNum := lineNum))
        else FilePass(env.addMonths(fileDate), date, c.(lineNum := lineNum), a, env, win, cfg)
  }

  /** GetDayRecFromMonthly's result and the cursor it leaves, for the day starting at `date`. */
  function DayRec(cursor: Cursor, date: int, env: LogEnv, ro: MeteoDay.Rollover, cfg: DayConfig): (DayResult, Cursor)
    requires env.addMonths(date) > date
  {
    FilePass(date, date, cursor, InitialAcc(date), env, Window(ro, date), cfg)
  }

  /** Whatever record the walk yields dominates the state it started from. */
  lemma {:induction false} FilePassDominates(fileDate: int, date: int, cursor: Cursor, acc: DayAcc, env: LogEnv,
                                             win: DayWindow, cfg: DayConfig)
    requires fileDate >= date && env.addMonths(date) > date
    ensures var r := FilePass(fileDate, date, cursor, acc, env, win, cfg).0;
      r.Built? ==> Dominates(r.rec, acc.rec)
    decreases if fileDate > date then 0 else 1
  {
    var name := env.fileName(fileDate);
    if env.logs(name).Some? {
      var c := Opened(cursor, name, env.logs(name).value);
      ScanDominates(c.lines, c.lineNum, acc, win, cfg);
      var e := Scan(c.lines, c.lineNum, acc, win, cfg);
      if e.Exhausted? && !(e.acc.finished || fileDate > date) {
        FilePassDominates(env.addMonths(fileDate), date, c.(lineNum := e.lineNum), e.acc, env, win, cfg);
      }
    }
  }

  /**
   * A record the walk builds is for the day asked for, has no chill hours,
   * and has ET, sunshine, high solar, high UV and high hourly rain at 0 or
   * above (they start at 0 and only rise).
   */
  lemma BuiltRecordBounds(cursor: Cursor, date: int, env: LogEnv, ro: MeteoDay.Rollover, cfg: DayConfig)
    requires env.addMonths(date) > date
    ensures var r := DayRec(cursor, date, env, ro, cfg).0;
      r.Built? ==>
        && r.rec.date == date && r.rec.chillHours == NoHigh
        && r.rec.et >= 0.0 && r.rec.sunshineHours >= 0.0 && r.rec.highSolar.value >= 0
        && r.rec.highUv.value >= 0.0 && r.rec.highHourlyRain.value >= 0.0
  {
    FilePassDominates(date, date, cursor, InitialAcc(date), env, Window(ro, date), cfg);
  }

  /**
   * When no log file exists for the day, the walk yields no record and
   * leaves the cursor alone.
   */
  lemma NoLogNoRecord(cursor: Cursor, date: int, env: LogEnv, ro: MeteoDay.Rollover, cfg: DayConfig)
    requires env.addMonths(date) > date && env.logs(env.fileName(date)).None?
    ensures DayRec(cursor, date, env, ro, cfg) == (NoData, cursor)
  {
  }

  /**
   * Neither the lines the cursor holds nor the log files of the day's
   * month and the next hold a line inside the day.
   */
  predicate NoSampleInLogs(cursor: Cursor, date: int, env: LogEnv, win: DayWindow) {
    && NoDayLine(cursor.lines, 0, win)
    && (env.logs(env.fileName(date)).Some? ==> NoDayLine(env.logs(env.fileName(date)).value, 0, win))
    && (env.logs(env.fileName(env.addMonths(date))).Some? ==>
          NoDayLine(env.logs(env.fileName(env.addMonths(date))).value, 0, win))
  }

  /** A day without a logged sample is not created: the walk yields no record (or fails on a bad line). */
  lemma NoSampleNoRecord(cursor: Cursor, date: int, env: LogEnv, ro: MeteoDay.Rollover, cfg: DayConfig)
    requires env.addMonths(date) > date
    requires NoSampleInLogs(cursor, date, env, Window(ro, date))
    ensures !DayRec(cursor, date, env, ro, cfg).0.Built?
  {
    FilePassWithoutSamples(date, date, cursor, InitialAcc(date), env, Window(ro, date), cfg);
  }

  lemma {:induction false} FilePassWithoutSamples(fileDate: int, date: int, cursor: Cursor, acc: DayAcc, env: LogEnv,
                                                  win: DayWindow, cfg: DayConfig)
    requires env.addMonths(date) > date
    requires fileDate == date || fileDate == env.addMonths(date)
    requires !acc.started && !acc.finished
    requires NoSampleInLogs(cursor, date, env, win)
    ensures !FilePass(fileDate, date, cursor, acc, env, win, cfg).0.Built?
    decreases if fileDate > date then 0 else 1
  {
    var name := env.fileName(fileDate);
    if env.logs(name).Some? {
      var c := Opened(cursor, name, env.logs(name).value);
      assert NoDayLine(c.lines, c.lineNum, win);
      ScanWithoutSamples(c.lines, c.lineNum, acc, win, cfg);
      var e := Scan(c.lines, c.lineNum, acc, win, cfg);
      if e.Exhausted? && !(e.acc.finished || fileDate > date) {
        assert NoDayLine(c.lines, 0, win);
        FilePassWithoutSamples(env.addMonths(fileDate), date, c.(lineNum := e.lineNum), e.acc, env, win, cfg);
      }
    }
  }

  /**
   * A file that runs out after the day's closing sample, or the second
   * file running out, ends the day with the record as it stands: built
   * however few samples were seen, and never finalised, so its mean
   * temperature and dominant bearing are still those of the start of the
   * walk (the missing values, from DayRec).
   */
  lemma {:induction false} ExhaustedFileLeavesRecordUnfinalised(fileDate: int, date: int, cursor: Cursor, acc: DayAcc,
                                                                env: LogEnv, win: DayWindow, cfg: DayConfig)
    requires fileDate >= date && env.addMonths(date) > date
    requires env.logs(env.fileName(fileDate)).Some?
    requires var c := Opened(cursor, env.fileName(fileDate), env.logs(env.fileName(fileDate)).value);
      var e := Scan(c.lines, c.lineNum, acc, win, cfg);
      e.Exhausted? && e.acc.started && (e.acc.finished || fileDate > date)
    ensures var r := FilePass(fileDate, date, cursor, acc, env, win, cfg).0;
      r.Built? && r.rec.avgTemp == acc.rec.avgTemp && r.rec.dominantWindBearing == acc.rec.dominantWindBearing
  {
    var c := Opened(cursor, env.fileName(fileDate), env.logs(env.fileName(fileDate)).value);
    ScanLeavesMeanUnset(c.lines, c.lineNum, acc, win, cfg);
  }

  /**
   * When the day's file runs out before the day closes and the next
   * month's file is missing, the day is finalised and built whatever the
   * number of samples: the five-sample minimum is not applied.
   */
  lemma NextFileMissingFinalises(cursor: Cursor, date: int, env: LogEnv, ro: MeteoDay.Rollover, cfg: DayConfig)
    requires env.addMonths(date) > date
    requires env.logs(env.fileName(date)).Some? && env.logs(env.fileName(env.addMonths(date))).None?
    requires var c := Opened(cursor, env.fileName(date), env.logs(env.fileName(date)).value);
      var e := Scan(c.lines, c.lineNum, InitialAcc(date), Window(ro, date), cfg);
      e.Exhausted? && e.acc.started && !e.acc.finished
    ensures var c := Opened(cursor, env.fileName(date), env.logs(env.fileName(date)).value);
      var e := Scan(c.lines, c.lineNum, InitialAcc(date), Window(ro, date), cfg);
      DayRec(cursor, date, env, ro, cfg) == (Built(Finalise(e.acc, cfg)), c.(lineNum := e.lineNum))
  {
    var win := Window(ro, date);
    var c := Opened(cursor, env.fileName(date), env.logs(env.fileName(date)).value);
    var e := Scan(c.lines, c.lineNum, InitialAcc(date), win, cfg);
    var next := env.addMonths(date);
    assert FilePass(next, date, c.(lineNum := e.lineNum), e.acc, env, win, cfg)
        == (Built(Finalise(e.acc, cfg)), c.(lineNum := e.lineNum));
    assert FilePass(date, date, cursor, InitialAcc(date), env, win, cfg)
        == FilePass(next, date, c.(lineNum := e.lineNum), e.acc, env, win, cfg);
  }

  /**
   * The inner loop of GetDayRecFromMonthly: reads lines from `n` on until
   * one ends the day or the file runs out.
   */
  method ReadPass(lines: seq<LogLine>, n: nat, acc: DayAcc, win: DayWindow, cfg: DayConfig) returns (e: ScanEnd)
    ensures e == Scan(lines, n, acc, win, cfg)
  {
    var i, a := n, acc;
    while i < |lines|
      invariant Scan(lines, i, a, win, cfg) == Scan(lines, n, acc, win, cfg)
      decreases |lines| - i
    {
      var step := LineStep(lines[i], i, a, win, cfg);
      if step.Stop? {
        return step.end;
      }
      a := step.acc;
      i := i + 1;
    }
    return Exhausted(a, i);
  }

  /** The cursor of Program.cs: the current log file, its name and the next line to read. */
  class LogCursor {
    var currentLogLines: seq<LogLine>
    var currentLogName: Option<string>
    var currentLogLineNum: nat

    function State(): Cursor
      reads this
    {
      Cursor(currentLogLines, currentLogName, currentLogLineNum)
    }

    /** No file loaded yet (CurrentLogName is null). */
    constructor ()
      ensures State() == Cursor([], None, 0)
    {
      currentLogLines := [];
      currentLogName := None;
      currentLogLineNum := 0;
    }

    /**
     * GetDayRecFromMonthly: walks the log file of `date` and, if needed,
     * the next month's, leaving the cursor where the next day starts.
     */
    method GetDayRecFromMonthly(date: int, env: LogEnv, ro: MeteoDay.Rollover, cfg: DayConfig)
      returns (result: DayResult)
      requires env.addMonths(date) > date
      modifies this
      ensures (result, State()) == DayRec(old(State()), date, env, ro, cfg)
    {
      var win := Window(ro, date);
      var acc := InitialAcc(date);
      result := WalkFiles(date, acc, win, env, cfg);
    }

    /**
     * The file loop of GetDayRecFromMonthly: the file of `date`, then, if
     * it runs out before the day is over, the next month's.
     */
    method WalkFiles(date: int, acc: DayAcc, win: DayWindow, env: LogEnv, cfg: DayConfig)
      returns (result: DayResult)
      requires env.addMonths(date) > date
      modifies this
      ensures (result, State()) == FilePass(date, date, old(State()), acc, env, win, cfg)
    {
      var acc := acc;
      var fileDate := date;
      ghost var spec := FilePass(date, date, State(), acc, env, win, cfg);
      while true
        invariant fileDate >= date
        invariant FilePass(fileDate, date, State(), acc, env, win, cfg) == spec
        decreases if fileDate > date then 0 else 1
      {
        ghost var before := State();
        var fileName := env.fileName(fileDate);
        var file := env.logs(fileName);
        if file.None? {
          if acc.started && !acc.finished {
            return Built(Finalise(acc, cfg));
          }
          return NoData;
        }
        if currentLogName != Some(fileName) {
          currentLogLines := file.value;
          currentLogName := Some(fileName);
          currentLogLineNum := 0;
        }
        ghost var current := State();
        assert current == Opened(before, fileName, file.value);
        var pass := ReadPass(currentLogLines, currentLogLineNum, acc, win, cfg);
        match pass
        case Failed(line) =>
          currentLogLineNum := line;
          return Fatal(line);
        case Returned(rec, lineNum, _) =>
          currentLogLineNum := lineNum;
          if rec.Some? {
            return Built(rec.value);
          }
          return NoData;
        case Exhausted(a, lineNum) =>
          acc := a;
          currentLogLineNum := lineNum;
        assert State() == current.(lineNum := pass.lineNum);
        if acc.finished || fileDate > date {
          if acc.started {
            return Built(acc.rec);
          }
          return NoData;
        }
        fileDate := env.addMonths(fileDate);
      }
    }
  }
}
