/** The test agent's reporter (src/core/test_reporter.py): the in-memory report of a run
    (test information, one record per iteration with its actions, the errors logged, the
    summary), the statistics drawn from it and the rows of its CSV report. Times are
    seconds given by the caller; writing the reports to files is not modelled. */
module Reporter {
  import opened Wrappers
  import opened JsonValues
  import opened CoreSettings

  /** The `status` of an iteration record. */
  datatype Status = InProgress | Completed | Failed

  /** One element of an iteration's `actions`. */
  datatype ActionRecord = ActionRecord(timestamp: real, action: string, result: string, duration: real)

  /** One element of `iterations`: the keys set when the iteration starts, and the ones
      `log_iteration_complete` adds (absent until then). */
  datatype IterationRecord = IterationRecord(
    iteration: int,
    startTime: real,
    actions: seq<ActionRecord>,
    status: Status,
    endTime: Option<real>,
    success: Option<bool>,
    errorMessage: Option<string>,
    duration: Option<real>)

  /** One element of `errors`. */
  datatype ErrorRecord = ErrorRecord(timestamp: real, errorType: string, message: string, context: Dict)

  /** `test_info` */
  datatype TestInfo = TestInfo(scenario: string, startTime: real, targetIterations: int,
                               targetControllers: string, targetNetwork: string, dryRun: bool)

  /** `summary`, once a report has been generated. */
  datatype ReportSummary = ReportSummary(endTime: real, totalDuration: real, success: bool,
                                         iterationsCompleted: int, iterationsRequested: int,
                                         summaryText: string, errorMessage: Option<string>)

  /** The KeyError raised when the report data is used before `initialize`. */
  datatype ReportError = NotInitialized

  /** The record of an iteration that has just started. */
  function Started(iteration: int, now: real): IterationRecord
  {
    IterationRecord(iteration, now, [], InProgress, None, None, None, None)
  }

  /** The status and the success flag of a record agree: a record is in progress exactly
      when no success is recorded, and completed exactly when success is true. */
  predicate Consistent(r: IterationRecord)
  {
    (r.status == InProgress <==> r.success.None?) && (r.status == Completed <==> r.success == Some(true))
  }

  /** The position of the first record of iteration `n`, as the search loops of the
      reporter find it. */
  function FirstMatch(records: seq<IterationRecord>, n: int): (k: Option<nat>)
    ensures k.Some? ==> k.value < |records| && records[k.value].iteration == n
                        && forall j :: 0 <= j < k.value ==> records[j].iteration != n
    ensures k.None? <==> forall j :: 0 <= j < |records| ==> records[j].iteration != n
  {
    if records == [] then None
    else if records[0].iteration == n then Some(0)
    else
      var k := FirstMatch(records[1..], n);
      if k.Some? then Some(k.value + 1) else None
  }

  /** A record after `log_iteration_complete`: the end time, the status, the success flag
      and the duration are set; an error message only when a non-empty one is given. */
  function Finished(r: IterationRecord, success: bool, errorMessage: Option<string>, now: real): (f: IterationRecord)
    ensures Consistent(f)
    ensures f.iteration == r.iteration && f.startTime == r.startTime && f.actions == r.actions
    ensures f.status == (if success then Completed else Failed) && f.success == Some(success)
    ensures f.errorMessage == if errorMessage.Some? && errorMessage.value != "" then errorMessage else r.errorMessage
    ensures f.endTime == Some(now) && f.duration == Some(now - r.startTime)
  {
    r.(endTime := Some(now), status := if success then Completed else Failed, success := Some(success),
       errorMessage := if errorMessage.Some? && errorMessage.value != "" then errorMessage else r.errorMessage,
       duration := Some(now - r.startTime))
  }

  /** The number of records satisfying `p`. */
  function Count(records: seq<IterationRecord>, p: IterationRecord -> bool): (c: nat)
    ensures c <= |records|
  {
    if records == [] then 0 else (if p(records[0]) then 1 else 0) + Count(records[1..], p)
  }

  function IsCompleted(r: IterationRecord): bool
  {
    r.status == Completed
  }

  function IsSuccessful(r: IterationRecord): bool
  {
    r.success == Some(true)
  }

  /** `get_current_stats` */
  datatype Stats = Stats(totalIterations: nat, completedIterations: nat, successfulIterations: nat,
                         errorCount: nat, successRate: real)

  function CurrentStats(records: seq<IterationRecord>, errors: seq<ErrorRecord>): (s: Stats)
    ensures s.totalIterations == |records| && s.errorCount == |errors|
    ensures s.completedIterations <= s.totalIterations && s.successfulIterations <= s.totalIterations
    ensures s.successRate * (if s.completedIterations > 0 then s.completedIterations as real else 1.0)
            == s.successfulIterations as real * 100.0
  {
    var completed := Count(records, IsCompleted);
    var successful := Count(records, IsSuccessful);
    var denominator := if completed > 1 then completed else 1;
    Stats(|records|, completed, successful, |errors|, successful as real / denominator as real * 100.0)
  }

  /** With consistent records, the successful iterations are exactly the completed ones. */
  lemma {:induction false} SuccessfulAreCompleted(records: seq<IterationRecord>)
    requires forall j :: 0 <= j < |records| ==> Consistent(records[j])
    ensures Count(records, IsSuccessful) == Count(records, IsCompleted)
  {
    if records != [] {
      assert Consistent(records[0]);
      SuccessfulAreCompleted(records[1..]);
    }
  }

  lemma WholePercent(c: nat)
    requires c > 0
    ensures c as real / c as real * 100.0 == 100.0
  {
  }

  /** Hence the success rate of consistent records is 100 once an iteration has completed,
      and 0 before. */
  lemma SuccessRateAllOrNothing(records: seq<IterationRecord>, errors: seq<ErrorRecord>)
    requires forall j :: 0 <= j < |records| ==> Consistent(records[j])
    ensures CurrentStats(records, errors).successfulIterations == CurrentStats(records, errors).completedIterations
    ensures CurrentStats(records, errors).successRate == if Count(records, IsCompleted) > 0 then 100.0 else 0.0
  {
    SuccessfulAreCompleted(records);
    var c := Count(records, IsCompleted);
    if c > 0 {
      WholePercent(c);
    }
  }

  /** A cell of the CSV report. */
  datatype Cell = StrCell(s: string) | IntCell(i: int) | NumCell(r: real) | BoolCell(b: bool)

  const CsvHeader: seq<Cell> := [StrCell("Iteration"), StrCell("Status"), StrCell("Success"), StrCell("Duration_Seconds"),
                                 StrCell("Actions_Count"), StrCell("Error_Message"), StrCell("Start_Time"), StrCell("End_Time")]

  function StatusText(s: Status): string
  {
    match s
    case InProgress => "in_progress"
    case Completed => "completed"
    case Failed => "failed"
  }

  /** The CSV row of one iteration: a missing success is false, a missing duration 0, a
      missing error message or end time empty. */
  function CsvRow(r: IterationRecord): (row: seq<Cell>)
    ensures |row| == |CsvHeader|
    ensures row[0] == IntCell(r.iteration) && row[1] == StrCell(StatusText(r.status)) && row[4] == IntCell(|r.actions|)
    ensures row[2] == BoolCell(r.success == Some(true))
    ensures row[3] == NumCell(if r.duration.Some? then r.duration.value else 0.0)
    ensures row[5] == StrCell(if r.errorMessage.Some? then r.errorMessage.value else "")
    ensures row[6] == NumCell(r.startTime)
    ensures row[7] == if r.endTime.Some? then NumCell(r.endTime.value) else StrCell("")
  {
    [IntCell(r.iteration), StrCell(StatusText(r.status)), BoolCell(r.success == Some(true)),
     NumCell(if r.duration.Some? then r.duration.value else 0.0), IntCell(|r.actions|),
     StrCell(if r.errorMessage.Some? then r.errorMessage.value else ""), NumCell(r.startTime),
     if r.endTime.Some? then NumCell(r.endTime.value) else StrCell("")]
  }

  /** The rows `_generate_csv_report` writes: the header, then one row per iteration in
      order. */
  function CsvRows(records: seq<IterationRecord>): (rows: seq<seq<Cell>>)
    ensures |rows| == |records| + 1 && rows[0] == CsvHeader
    ensures forall i :: 0 <= i < |records| ==> rows[i + 1] == CsvRow(records[i])
    ensures forall i :: 0 <= i < |rows| ==> |rows[i]| == |CsvHeader|
  {
    [CsvHeader] + seq(|records|, i requires 0 <= i < |records| => CsvRow(records[i]))
  }

  /** `str(dir / name)` for a POSIX directory and a single file name: the current directory
      adds no prefix, and a directory that already ends in "/" (the root) adds no second
      separator. */
  function JoinPath(dir: string, name: string): (p: string)
    ensures |p| >= |name| && p[|p| - |name|..] == name
    ensures dir == "" || dir == "." ==> p == name
    ensures dir != "" && dir != "." ==>
              && |dir| + |name| <= |p| <= |dir| + 1 + |name|
              && p[..|dir|] == dir && p[|p| - |name| - 1] == '/'
  {
    if dir == "" || dir == "." then name
    else if dir[|dir| - 1] == '/' then dir + name
    else dir + "/" + name
  }

  /** Where a file named `name` lands for the default directory, the current directory, the
      root and a directory given with a trailing separator. */
  lemma JoinPathExamples(name: string)
    ensures JoinPath("logs", name) == "logs/" + name
    ensures JoinPath(".", name) == name
    ensures JoinPath("/", name) == "/" + name
    ensures JoinPath("/tmp/run/", name) == "/tmp/run/" + name
  {
    assert "logs"[3] == 's' && "/tmp/run/"[8] == '/';
    assert "logs" + "/" == "logs/";
  }

  class TestReporter {
    const config: Config
    /** `test_info`; None while the report data is empty, before `initialize`. */
    var info: Option<TestInfo>
    var iterations: seq<IterationRecord>
    var errors: seq<ErrorRecord>
    var summary: Option<ReportSummary>
    var startTime: Option<real>
    var endTime: Option<real>

    /** Nothing is recorded before `initialize`, and every iteration record is consistent. */
    ghost predicate Valid()
      reads this
    {
      (info.None? ==> iterations == [] && errors == [])
      && forall j :: 0 <= j < |iterations| ==> Consistent(iterations[j])
    }

    constructor (config: Config)
      ensures Valid() && this.config == config
      ensures info == None && iterations == [] && errors == [] && summary == None
      ensures startTime == None && endTime == None
    {
      this.config := config;
      info := None;
      iterations := [];
      errors := [];
      summary := None;
      startTime := None;
      endTime := None;
    }

    /** `initialize`: the test information from the configuration; no iterations, no
        errors, no summary. */
    method Initialize(now: real)
      modifies this
      ensures Valid()
      ensures info == Some(TestInfo(config.scenario, now, config.iterationCount, config.targetControllers,
                                    config.targetNetwork, config.dryRun))
      ensures iterations == [] && errors == [] && summary == None
      ensures startTime == Some(now) && endTime == old(endTime)
    {
      startTime := Some(now);
      info := Some(TestInfo(config.scenario, now, config.iterationCount, config.targetControllers,
                            config.targetNetwork, config.dryRun));
      iterations := [];
      errors := [];
      summary := None;
    }

    /** `cleanup` */
    method Cleanup(now: real)
      modifies this`endTime
      ensures endTime == Some(now)
    {
      endTime := Some(now);
    }

    /** `log_iteration_start`: one record, in progress and without actions, is appended. */
    method LogIterationStart(iteration: int, now: real) returns (r: Result<(), ReportError>)
      requires Valid()
      modifies this`iterations
      ensures Valid()
      ensures r.Err? <==> info.None?
      ensures r.Ok? ==> iterations == old(iterations) + [Started(iteration, now)]
      ensures r.Err? ==> iterations == old(iterations)
    {
      if info.None? {
        return Err(NotInitialized);
      }
      iterations := iterations + [Started(iteration, now)];
      r := Ok(());
    }

    /** The search loop shared by `log_action` and `log_iteration_complete`. */
    method FindIteration(iteration: int) returns (k: Option<nat>)
      ensures k == FirstMatch(iterations, iteration)
    {
      var i := 0;
      while i < |iterations|
        invariant 0 <= i <= |iterations|
        invariant forall j :: 0 <= j < i ==> iterations[j].iteration != iteration
      {
        if iterations[i].iteration == iteration {
          FirstMatchIsFirst(iterations, iteration, i);
          return Some(i);
        }
        i := i + 1;
      }
      k := None;
    }

    /** `log_action`: the action is appended to the first record of the iteration only;
        without such a record nothing changes. */
    method LogAction(iteration: int, action: string, result: string, duration: real, now: real)
      returns (r: Result<(), ReportError>)
      requires Valid()
      modifies this`iterations
      ensures Valid()
      ensures r.Err? <==> info.None?
      ensures var k := FirstMatch(old(iterations), iteration);
              && (k.None? ==> iterations == old(iterations))
              && (k.Some? ==> iterations == old(iterations)[k.value := old(iterations)[k.value].(
                                actions := old(iterations)[k.value].actions + [ActionRecord(now, action, result, duration)])])
    {
      if info.None? {
        return Err(NotInitialized);
      }
      var k := FindIteration(iteration);
      if k.Some? {
        var record := iterations[k.value];
        iterations := iterations[k.value := record.(actions := record.actions + [ActionRecord(now, action, result, duration)])];
      }
      r := Ok(());
    }

    /** `log_iteration_complete`: the first record of the iteration only is finished;
        without such a record nothing changes. */
    method LogIterationComplete(iteration: int, success: bool, errorMessage: Option<string>, now: real)
      returns (r: Result<(), ReportError>)
      requires Valid()
      modifies this`iterations
      ensures Valid()
      ensures r.Err? <==> info.None?
      ensures var k := FirstMatch(old(iterations), iteration);
              && (k.None? ==> iterations == old(iterations))
              && (k.Some? ==> iterations == old(iterations)[k.value := Finished(old(iterations)[k.value], success, errorMessage, now)])
    {
      if info.None? {
        return Err(NotInitialized);
      }
      var k := FindIteration(iteration);
      if k.Some? {
        iterations := iterations[k.value := Finished(iterations[k.value], success, errorMessage, now)];
      }
      r := Ok(());
    }

    /** `log_error`: one error is appended; a missing context is empty. */
    method LogError(errorType: string, message: string, context: Option<Dict>, now: real)
      returns (r: Result<(), ReportError>)
      requires Valid()
      modifies this`errors
      ensures Valid()
      ensures r.Err? <==> info.None?
      ensures r.Ok? ==> errors == old(errors) + [ErrorRecord(now, errorType, message,
                                                             if context.Some? then context.value else map[])]
      ensures r.Err? ==> errors == old(errors)
    {
      if info.None? {
        return Err(NotInitialized);
      }
      errors := errors + [ErrorRecord(now, errorType, message, if context.Some? then context.value else map[])];
      r := Ok(());
    }

    /** `get_current_stats` */
    function GetCurrentStats(): (s: Result<Stats, ReportError>)
      reads this
      ensures s.Err? <==> info.None?
      ensures s.Ok? ==> s.value == CurrentStats(iterations, errors)
    {
      if info.None? then Err(NotInitialized) else Ok(CurrentStats(iterations, errors))
    }

    /** `generate_report`: the summary is recorded; the report files then need the test
        information, and the result's log file path names the text report. */
    method GenerateReport(totalDuration: real, success: bool, iterationsCompleted: int, summaryText: string,
                          errorMessage: Option<string>, now: real)
      returns (r: Result<string, ReportError>)
      modifies this`summary, this`endTime
      ensures endTime == Some(now)
      ensures summary == Some(ReportSummary(now, totalDuration, success, iterationsCompleted,
                                            config.iterationCount, summaryText, errorMessage))
      ensures r.Err? <==> info.None?
      ensures r.Ok? ==> r.value == JoinPath(config.outputDir, "test_report.txt")
    {
      endTime := Some(now);
      summary := Some(ReportSummary(now, totalDuration, success, iterationsCompleted,
                                    config.iterationCount, summaryText, errorMessage));
      if info.None? {
        return Err(NotInitialized);
      }
      r := Ok(JoinPath(config.outputDir, "test_report.txt"));
    }

    /** The CSV report of the current iterations. */
    function GetCsvRows(): (rows: Result<seq<seq<Cell>>, ReportError>)
      reads this
      ensures rows.Err? <==> info.None?
      ensures rows.Ok? ==> |rows.value| == |iterations| + 1
    {
      if info.None? then Err(NotInitialized) else Ok(CsvRows(iterations))
    }
  }

  /** The first record found is the first one of the iteration. */
  lemma FirstMatchIsFirst(records: seq<IterationRecord>, n: int, i: nat)
    requires i < |records| && records[i].iteration == n
    requires forall j :: 0 <= j < i ==> records[j].iteration != n
    ensures FirstMatch(records, n) == Some(i)
  {
  }

  /** Logging actions and completions keeps the statistics' premise: every record stays
      consistent, so the successful iterations remain the completed ones. */
  lemma ReporterStatsAgree(t: TestReporter)
    requires t.Valid()
    ensures t.info.Some? ==> t.GetCurrentStats().value.successfulIterations
                             == t.GetCurrentStats().value.completedIterations
  {
    SuccessfulAreCompleted(t.iterations);
  }
}
