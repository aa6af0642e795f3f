/**
 * `VectorDBMonitor`: the health report over the updater's two log files and
 * the database check, and the exit status of the monitor script.
 *
 * File contents are inputs: a log file is either missing or present with a
 * size and the lines that could be read from it. Parsing a log timestamp
 * (`strptime` with `'%Y-%m-%d %H:%M:%S'`) is an abstract partial function to
 * seconds, and the 24-hour cutoff is a number of seconds on the same scale.
 */
module Monitor {
  import opened Wrappers
  import opened Text

  const MainLogName := "vector_db_updater.log"
  const UpdateLogName := "update_logs.log"
  const UpdateMarker := "Update completed successfully"
  const TimestampSeparator := " - "

  /**
   * A log file on disk. `lines` are the lines (as `readlines` returns them)
   * read before `readError` was raised, or all of them when it is `None`.
   */
  datatype LogFile =
    | Missing
    | Present(size: nat, lines: seq<string>, readError: Option<string>)

  /** The `status` dictionary of `check_log_files`. */
  datatype LogStatus = LogStatus(
    mainLogExists: bool,
    updateLogExists: bool,
    mainLogSize: nat,
    updateLogSize: nat,
    lastUpdate: Option<string>)

  /** The result of `check_database_stats`: the updater answered, or the message it raised. */
  datatype DatabaseCheck = StatsRead | StatsFailed(error: string)

  /** `health_status`, which starts out as `"unknown"`. */
  datatype Health = Unknown | Critical | Warning | Healthy

  /** The report of `generate_report`. */
  datatype Report = Report(
    timestamp: string,
    logStatus: LogStatus,
    databaseStats: DatabaseCheck,
    recentErrors: seq<string>,
    healthStatus: Health)

  // ---------------------------------------------------------------------------
  // The last successful update
  // ---------------------------------------------------------------------------

  /** The index of the last line mentioning a completed update. */
  function LastMarkerIndex(lines: seq<string>): (r: Option<nat>)
    ensures r.Some? ==> r.value < |lines| && Contains(lines[r.value], UpdateMarker)
    ensures forall j :: 0 <= j < |lines| && Contains(lines[j], UpdateMarker) ==> r.Some? && j <= r.value
  {
    if lines == [] then None
    else if Contains(lines[|lines| - 1], UpdateMarker) then Some(|lines| - 1)
    else LastMarkerIndex(lines[..|lines| - 1])
  }

  /**
   * `last_update`: the text before the first `" - "` of the last line that
   * mentions a completed update; `None` when the update log is missing or
   * unreadable, or has no such line.
   */
  function LastUpdate(update: LogFile): Option<string> {
    if update.Missing? || update.readError.Some? then None
    else match LastMarkerIndex(update.lines)
      case None => None
      case Some(i) => Some(BeforeFirst(update.lines[i], TimestampSeparator))
  }

  /** `check_log_files`: sizes of the present files, then a backward scan of the update log for the last marker line. */
  method CheckLogFiles(main: LogFile, update: LogFile) returns (status: LogStatus)
    ensures status.mainLogExists == main.Present? && status.updateLogExists == update.Present?
    ensures status.mainLogSize == if main.Present? then main.size else 0
    ensures status.updateLogSize == if update.Present? then update.size else 0
    ensures status.lastUpdate == LastUpdate(update)
  {
    status := LogStatus(main.Present?, update.Present?, 0, 0, None);
    if status.mainLogExists {
      status := status.(mainLogSize := main.size);
    }
    if status.updateLogExists {
      status := status.(updateLogSize := update.size);
      if update.readError.None? {
        var lines := update.lines;
        var i := |lines|;
        while i > 0
          invariant 0 <= i <= |lines|
          invariant status.lastUpdate.None? ==> forall j :: i <= j < |lines| ==> !Contains(lines[j], UpdateMarker)
          invariant status.lastUpdate.Some? ==> status.lastUpdate == LastUpdate(update)
          invariant status.mainLogExists == main.Present? && status.updateLogExists
          invariant status.mainLogSize == (if main.Present? then main.size else 0) && status.updateLogSize == update.size
          decreases if status.lastUpdate.None? then i else 0
        {
          i := i - 1;
          if Contains(lines[i], UpdateMarker) {
            status := status.(lastUpdate := Some(BeforeFirst(lines[i], TimestampSeparator)));
            break;
          }
        }
      }
    }
  }

  // ---------------------------------------------------------------------------
  // Recent errors
  // ---------------------------------------------------------------------------

  /** The line mentions `"ERROR"` or `"FAILED"`. */
  predicate IsErrorLine(line: string) {
    Contains(line, "ERROR") || Contains(line, "FAILED")
  }

  /**
   * The line's timestamp is after the cutoff, or it does not parse: a line
   * whose timestamp does not parse is kept.
   */
  predicate IsRecent(line: string, cutoff: int, parseTime: string -> Option<int>) {
    match parseTime(BeforeFirst(line, TimestampSeparator))
    case None => true
    case Some(t) => t > cutoff
  }

  predicate Reported(line: string, cutoff: int, parseTime: string -> Option<int>) {
    IsErrorLine(line) && IsRecent(line, cutoff, parseTime)
  }

  /** The recent error lines of one file, stripped, in file order. */
  function ErrorsIn(lines: seq<string>, cutoff: int, parseTime: string -> Option<int>): (r: seq<string>)
    ensures |r| <= |lines|
    ensures forall x :: x in r ==> IsErrorLine(x)
  {
    if lines == [] then []
    else
      var last := lines[|lines| - 1];
      if Reported(last, cutoff, parseTime) then
        StrippedErrorLine(last);
        ErrorsIn(lines[..|lines| - 1], cutoff, parseTime) + [Strip(last)]
      else
        ErrorsIn(lines[..|lines| - 1], cutoff, parseTime)
  }

  /** Stripping keeps the keyword that made a line an error line. */
  lemma StrippedErrorLine(line: string)
    requires IsErrorLine(line)
    ensures IsErrorLine(Strip(line))
  {
    if Contains(line, "ERROR") {
      StripKeepsWord(line, "ERROR");
    } else {
      StripKeepsWord(line, "FAILED");
    }
  }

  /** A word without whitespace at its ends survives `strip()`. */
  lemma StripKeepsWord(s: string, w: string)
    requires w != [] && !IsSpace(w[0]) && !IsSpace(w[|w| - 1])
    requires Contains(s, w)
    ensures Contains(Strip(s), w)
  {
    var i: nat :| OccursAt(s, w, i);
    var r := Strip(s);
    var lead := LeadingSpaces(s);
    assert s[i] == w[0] && s[i + |w| - 1] == w[|w| - 1];
    assert lead <= i && i + |w| <= lead + |r|;
    forall k | 0 <= k < |w| ensures r[i - lead + k] == w[k] {
      assert r[i - lead + k] == s[i + k];
      assert s[i + k] == s[i..i + |w|][k];
    }
    assert r[i - lead..i - lead + |w|] == w;
    assert OccursAt(r, w, i - lead);
  }

  /** Error lines of consecutive parts come out part by part, in order. */
  lemma {:induction false} ErrorsInAppend(a: seq<string>, b: seq<string>, cutoff: int, parseTime: string -> Option<int>)
    decreases |b|
    ensures ErrorsIn(a + b, cutoff, parseTime) == ErrorsIn(a, cutoff, parseTime) + ErrorsIn(b, cutoff, parseTime)
  {
    if b == [] {
      assert a + b == a;
    } else {
      assert (a + b)[..|a + b| - 1] == a + b[..|b| - 1];
      ErrorsInAppend(a, b[..|b| - 1], cutoff, parseTime);
    }
  }

  /**
   * When no timestamp parses, every error line is kept whatever the cutoff.
   * The updater's log lines begin with `asctime`, which carries milliseconds
   * (`2024-01-01 12:00:00,123`), and the format `'%Y-%m-%d %H:%M:%S'` rejects
   * the trailing `,123`; on those lines the 24-hour window has no effect.
   */
  lemma {:induction false} CutoffIgnoredWhenUnparsable(lines: seq<string>, c1: int, c2: int, parseTime: string -> Option<int>)
    requires forall line :: line in lines ==> parseTime(BeforeFirst(line, TimestampSeparator)).None?
    decreases |lines|
    ensures ErrorsIn(lines, c1, parseTime) == ErrorsIn(lines, c2, parseTime)
  {
    if lines != [] {
      var prefix := lines[..|lines| - 1];
      assert forall line :: line in prefix ==> line in lines;
      CutoffIgnoredWhenUnparsable(prefix, c1, c2, parseTime);
    }
  }

  /**
   * A single line is reported, stripped, exactly when it mentions ERROR or
   * FAILED and its timestamp is after the cutoff or does not parse.
   */
  lemma ErrorLineReportedIff(line: string, cutoff: int, parseTime: string -> Option<int>)
    ensures ErrorsIn([line], cutoff, parseTime) == (if Reported(line, cutoff, parseTime) then [Strip(line)] else [])
    ensures ErrorsIn([line], cutoff, parseTime) != [] <==>
              IsErrorLine(line)
              && (parseTime(BeforeFirst(line, TimestampSeparator)).None?
                  || parseTime(BeforeFirst(line, TimestampSeparator)).value > cutoff)
  {
    assert [line][..0] == [];
  }

  lemma ErrorsInExtend(lines: seq<string>, k: nat, cutoff: int, parseTime: string -> Option<int>)
    requires k < |lines|
    ensures ErrorsIn(lines[..k + 1], cutoff, parseTime)
            == ErrorsIn(lines[..k], cutoff, parseTime)
               + (if Reported(lines[k], cutoff, parseTime) then [Strip(lines[k])] else [])
  {
    assert lines[..k + 1][..k] == lines[..k];
  }

  /** What one log file contributes: its recent error lines, then the read error, if any. */
  function FileErrors(name: string, file: LogFile, cutoff: int, parseTime: string -> Option<int>): seq<string> {
    match file
    case Missing => []
    case Present(_, lines, readError) =>
      ErrorsIn(lines, cutoff, parseTime)
      + (if readError.Some? then ["Error reading " + name + ": " + readError.value] else [])
  }

  /** The errors `check_recent_errors` collects: the main log's, then the update log's. */
  function RecentErrors(main: LogFile, update: LogFile, cutoff: int, parseTime: string -> Option<int>): seq<string> {
    FileErrors(MainLogName, main, cutoff, parseTime) + FileErrors(UpdateLogName, update, cutoff, parseTime)
  }

  /** The errors collected from the first `f` of the two log files. */
  function ErrorsOfFirst(f: nat, main: LogFile, update: LogFile, cutoff: int, parseTime: string -> Option<int>): seq<string> {
    if f == 0 then []
    else if f == 1 then FileErrors(MainLogName, main, cutoff, parseTime)
    else RecentErrors(main, update, cutoff, parseTime)
  }

  /** `check_recent_errors`: a loop over the main log, then the update log. */
  method CheckRecentErrors(main: LogFile, update: LogFile, cutoff: int, parseTime: string -> Option<int>)
    returns (errors: seq<string>)
    ensures errors == RecentErrors(main, update, cutoff, parseTime)
  {
    errors := [];
    for f := 0 to 2
      invariant errors == ErrorsOfFirst(f, main, update, cutoff, parseTime)
    {
      if f == 0 {
        errors := CollectFileErrors(errors, MainLogName, main, cutoff, parseTime);
      } else {
        errors := CollectFileErrors(errors, UpdateLogName, update, cutoff, parseTime);
      }
    }
  }

  /** The body of the outer loop of `check_recent_errors`: one file's lines, in order. */
  method CollectFileErrors(errors: seq<string>, name: string, file: LogFile, cutoff: int, parseTime: string -> Option<int>)
    returns (result: seq<string>)
    ensures result == errors + FileErrors(name, file, cutoff, parseTime)
  {
    result := errors;
    if file.Missing? {
      return;
    }
    var lines := file.lines;
    for k := 0 to |lines|
      invariant result == errors + ErrorsIn(lines[..k], cutoff, parseTime)
    {
      var line := lines[k];
      ErrorsInExtend(lines, k, cutoff, parseTime);
      if IsErrorLine(line) {
        if IsRecent(line, cutoff, parseTime) {
          result := result + [Strip(line)];
        }
      }
    }
    assert lines[..|lines|] == lines;
    if file.readError.Some? {
      result := result + ["Error reading " + name + ": " + file.readError.value];
    }
  }

  // ---------------------------------------------------------------------------
  // Overall health and exit status
  // ---------------------------------------------------------------------------

  /**
   * The decision of `generate_report`: a missing main log is critical whatever
   * else holds; then a missing update log is a warning even when the database
   * check failed; then a failed database check is critical; then any recent
   * error is a warning; otherwise the system is healthy.
   */
  function ClassifyHealth(log: LogStatus, db: DatabaseCheck, errors: seq<string>): (h: Health)
    ensures h != Unknown
    ensures h == Critical <==> !log.mainLogExists || (log.updateLogExists && db.StatsFailed?)
    ensures h == Warning <==>
              log.mainLogExists && (!log.updateLogExists || (db.StatsRead? && errors != []))
    ensures h == Healthy <==>
              log.mainLogExists && log.updateLogExists && db.StatsRead? && errors == []
  {
    if !log.mainLogExists then Critical
    else if !log.updateLogExists then Warning
    else if db.StatsFailed? then Critical
    else if |errors| > 0 then Warning
    else Healthy
  }

  /**
   * `generate_report`: the three checks in the order the report lists them,
   * then the health decision. `main` is the main log as `check_log_files`
   * finds it and `mainLater` the same file as `check_recent_errors` reads it:
   * the database check in between constructs a `VectorDBUpdater`, whose log
   * handler opens that file for appending and writes to it.
   */
  method GenerateReport(now: string, main: LogFile, update: LogFile, db: DatabaseCheck, mainLater: LogFile,
                        cutoff: int, parseTime: string -> Option<int>)
    returns (report: Report)
    ensures report.timestamp == now
    ensures report.logStatus.mainLogExists == main.Present?
    ensures report.logStatus.updateLogExists == update.Present?
    ensures report.logStatus.mainLogSize == if main.Present? then main.size else 0
    ensures report.logStatus.updateLogSize == if update.Present? then update.size else 0
    ensures report.logStatus.lastUpdate == LastUpdate(update)
    ensures report.databaseStats == db
    ensures report.recentErrors == RecentErrors(mainLater, update, cutoff, parseTime)
    ensures report.healthStatus == ClassifyHealth(report.logStatus, db, report.recentErrors)
    ensures report.healthStatus != Unknown
  {
    var logStatus := CheckLogFiles(main, update);
    var errors := CheckRecentErrors(mainLater, update, cutoff, parseTime);
    report := Report(now, logStatus, db, errors, Unknown);
    if !report.logStatus.mainLogExists {
      report := report.(healthStatus := Critical);
    } else if !report.logStatus.updateLogExists {
      report := report.(healthStatus := Warning);
    } else if report.databaseStats.StatsFailed? {
      report := report.(healthStatus := Critical);
    } else if |report.recentErrors| > 0 {
      report := report.(healthStatus := Warning);
    } else {
      report := report.(healthStatus := Healthy);
    }
  }

  /** The exit status of the monitor script for a health status. */
  function ExitCode(h: Health): (code: int)
    ensures code == 2 <==> h == Critical
    ensures code == 1 <==> h == Warning
    ensures code == 0 <==> h != Critical && h != Warning
  {
    if h == Critical then 2 else if h == Warning then 1 else 0
  }

  /** For any report the monitor generates, the script exits with 0 exactly when the system is healthy. */
  lemma ExitZeroIffHealthy(log: LogStatus, db: DatabaseCheck, errors: seq<string>)
    ensures ExitCode(ClassifyHealth(log, db, errors)) == 0 <==> ClassifyHealth(log, db, errors) == Healthy
  {
  }
}
