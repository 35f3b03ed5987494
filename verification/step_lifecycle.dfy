/**
 * One step of a synchronisation (src/Step.php): its status, how it stops itself,
 * and the log records it writes when it starts and finishes, including the SQL
 * statistics gathered from the two query logs since the step started.
 *
 * A step's `perform` is user code; here it is a fixed `Action`: what it writes into
 * the shared data, the queries it runs, how long it takes and how it ends.
 */
module StepLifecycle {
  import opened PhpValues
  import opened Instrumentation
  import opened Logging
  import opened Platform

  /** `$status`: null until a stop method sets it. */
  datatype Status = Unset | Skipped | Finished | Failed

  /** An exception escaping `perform`, by the catch clause of the run loop that receives it. */
  datatype Thrown =
    | StopStep(message: string)
    | StopSync(message: string)
    | AnException(exceptionClass: string, message: string)
    | AnError(exceptionClass: string, message: string)

  /** How a step's `perform` ends: it returns, calls one of the stop methods, or throws. */
  datatype Ending =
    | Return
    | CallStopAsSkipped(message: string)
    | CallStopAsFinished(message: string)
    | CallStopAsFailed(message: string)
    | CallStopEverything(message: string)
    | Throw(thrown: Thrown)

  datatype Action = Action(
    writes: map<string, PhpValue>,
    bitrixQueries: seq<Query>,
    ormQueries: seq<Query>,
    duration: real,
    ending: Ending)

  /** The methods of a step that the run loop calls, as recorded in the step's call log. */
  datatype Hook =
    | SetLoggerCall
    | SetSqlLoggingParamsCall
    | SetSharedDataCall
    | OnBeforeLogStartCall
    | OnAfterLogStartCall
    | LogStartCall
    | PerformCall
    | OnBeforeLogFinishCall
    | LogFinishCall
    | OnAfterLogFinishCall

  /** The exception `perform` lets escape, None when it returns normally. */
  function Raised(e: Ending): (r: Option<Thrown>)
    ensures r == None <==> e == Return
    ensures (e.CallStopAsSkipped? || e.CallStopAsFinished? || e.CallStopAsFailed?) ==> r == Some(StopStep(e.message))
    ensures e.CallStopEverything? ==> r == Some(StopSync(e.message))
  {
    match e
    case Return => None
    case CallStopAsSkipped(m) => Some(StopStep(m))
    case CallStopAsFinished(m) => Some(StopStep(m))
    case CallStopAsFailed(m) => Some(StopStep(m))
    case CallStopEverything(m) => Some(StopSync(m))
    case Throw(t) => Some(t)
  }

  /** The status after `perform` ends as `e`, from the status `s` it had before. */
  function StatusAfter(e: Ending, s: Status): (r: Status)
    ensures e.CallStopAsSkipped? ==> r == Skipped
    ensures e.CallStopAsFinished? ==> r == Finished
    ensures (e.CallStopAsFailed? || e.CallStopEverything?) ==> r == Failed
    ensures (e.Return? || e.Throw?) ==> r == s
  {
    match e
    case CallStopAsSkipped(_) => Skipped
    case CallStopAsFinished(_) => Finished
    case CallStopAsFailed(_) => Failed
    case CallStopEverything(_) => Failed
    case _ => s
  }

  /** The data array the steps pass to each other; every step holds the same one. */
  class SharedData {
    var data: map<string, PhpValue>

    constructor (data: map<string, PhpValue>)
      ensures this.data == data
    {
      this.data := data;
    }
  }

  function BitrixVerbs(log: seq<Query>): (r: seq<string>)
    ensures |r| == |log|
  {
    seq(|log|, j requires 0 <= j < |log| => BitrixVerb(log[j].sql))
  }

  function IlluminateVerbs(log: seq<Query>): (r: seq<string>)
    ensures |r| == |log|
  {
    seq(|log|, j requires 0 <= j < |log| => IlluminateVerb(log[j].sql))
  }

  /** Bitrix tracker times are in seconds. */
  function TrackerTimes(log: seq<Query>): (r: seq<real>)
    ensures |r| == |log|
  {
    seq(|log|, j requires 0 <= j < |log| => log[j].time)
  }

  /** Illuminate query-log times are in milliseconds and are divided by 1000. */
  function MillisecondsAsSeconds(log: seq<Query>): (r: seq<real>)
    ensures |r| == |log|
  {
    seq(|log|, j requires 0 <= j < |log| => log[j].time / 1000.0)
  }

  /** The statistics record for one query log: entry count, total time and per-verb groups. */
  function Statistics(source: SqlSource, verbs: seq<string>, times: seq<real>): Record
    requires |verbs| == |times|
  {
    Record(Info, SqlStatistics(source, |verbs|, SumTimes(times), Grouped(verbs, times)))
  }

  /**
   * A statistics record counts every entry of its log, its per-verb counts add up to
   * that count, and its groups are exactly the verbs met, each with its own count and time.
   */
  lemma StatisticsSummary(source: SqlSource, verbs: seq<string>, times: seq<real>)
    requires |verbs| == |times|
    ensures var r := Statistics(source, verbs, times);
      && r.level == Info && r.event.SqlStatistics? && r.event.source == source
      && r.event.count == |verbs| && SumCounts(r.event.details) == r.event.count
      && r.event.totalTime == SumTimes(times) && DetailsOf(r.event.details, verbs, times)
  {
    GroupedIsDetails(verbs, times);
  }

  /** One statistics record when `on`, none otherwise. */
  function StatisticsIf(on: bool, source: SqlSource, verbs: seq<string>, times: seq<real>): seq<Record>
    requires |verbs| == |times|
  {
    if on then [Statistics(source, verbs, times)] else []
  }

  /** What `logSqlQueriesSinceStepStart` logs: one record per enabled source, Bitrix first. */
  function SqlRecords(bitrixOn: bool, illuminateOn: bool, bitrixLog: seq<Query>, illuminateLog: seq<Query>): seq<Record> {
    StatisticsIf(bitrixOn, BitrixTracker, BitrixVerbs(bitrixLog), TrackerTimes(bitrixLog))
      + StatisticsIf(illuminateOn, IlluminateQueryLog, IlluminateVerbs(illuminateLog), MillisecondsAsSeconds(illuminateLog))
  }

  lemma SqlRecordsLayout(bitrixOn: bool, illuminateOn: bool, bitrixLog: seq<Query>, illuminateLog: seq<Query>)
    ensures var r := SqlRecords(bitrixOn, illuminateOn, bitrixLog, illuminateLog);
      && |r| == (if bitrixOn then 1 else 0) + (if illuminateOn then 1 else 0)
      && (bitrixOn ==> r[0] == Statistics(BitrixTracker, BitrixVerbs(bitrixLog), TrackerTimes(bitrixLog)))
      && (illuminateOn ==> r[|r| - 1] == Statistics(IlluminateQueryLog, IlluminateVerbs(illuminateLog), MillisecondsAsSeconds(illuminateLog)))
  {
  }

  /** The statistics look only at the enabled query logs. */
  lemma SqlRecordsSeeEnabledLogsOnly(bitrixOn: bool, illuminateOn: bool, bitrix1: seq<Query>, bitrix2: seq<Query>,
                                     illuminate1: seq<Query>, illuminate2: seq<Query>)
    requires bitrixOn ==> bitrix1 == bitrix2
    requires illuminateOn ==> illuminate1 == illuminate2
    ensures SqlRecords(bitrixOn, illuminateOn, bitrix1, illuminate1) == SqlRecords(bitrixOn, illuminateOn, bitrix2, illuminate2)
  {
  }

  /**
   * Everything `logFinish` logs, in order: the finish line under the step's name, the
   * time spent, the SQL statistics, then the current and the peak memory reading.
   */
  datatype FinishLines = FinishLines(name: string, spent: Elapsed, sql: seq<Record>, current: MemoryFigure, peak: MemoryFigure)
  {
    function Records(): seq<Record> {
      [Record(Info, StepFinished(name)), Record(Info, TimeSpent(spent))] + sql
        + [Record(Info, CurrentMemory(current)), Record(Info, PeakMemory(peak))]
    }
  }

  /**
   * What `logFinish` logs for a step started at clock reading `start` and finishing at
   * `end`, with the SQL logs as they stood before the flush and the two memory readings.
   */
  function FinishOf(name: string, start: real, end: real, bitrixOn: bool, illuminateOn: bool,
                    bitrixLog: seq<Query>, illuminateLog: seq<Query>, usage: nat, peak: nat): FinishLines
  {
    FinishLines(name, ElapsedOf(end - start), SqlRecords(bitrixOn, illuminateOn, bitrixLog, illuminateLog),
      MemoryFigureOf(usage), MemoryFigureOf(peak))
  }

  class Step {
    /** The step's class (`get_called_class()`), its display name and its dependencies. */
    const className: string
    const name: string
    const dependsOn: seq<string>
    /** What the step's `perform` does. */
    const action: Action

    var status: Status
    var logger: Logger?
    var shared: SharedData
    var sqlLogsBitrix: bool
    var sqlLogsIlluminate: bool
    var startTime: real
    /** The methods called on this step so far, in order; each of them appends itself. */
    ghost var calls: seq<Hook>

    constructor (className: string, name: string, dependsOn: seq<string>, action: Action)
      ensures this.className == className && this.name == name
      ensures this.dependsOn == dependsOn && this.action == action
      ensures status == Unset && logger == null
      ensures fresh(shared) && shared.data == map[]
      ensures !sqlLogsBitrix && !sqlLogsIlluminate
      ensures calls == []
    {
      this.className := className;
      this.name := name;
      this.dependsOn := dependsOn;
      this.action := action;
      status := Unset;
      logger := null;
      shared := new SharedData(map[]);
      sqlLogsBitrix, sqlLogsIlluminate := false, false;
      startTime := 0.0;
      calls := [];
    }

    /** `getName`: the name when it is truthy ("" and "0" are not), else the class name. */
    function GetName(): (r: string)
      ensures TruthyString(name) ==> r == name
      ensures !TruthyString(name) ==> r == className
    {
      if TruthyString(name) then name else className
    }

    function GetStatus(): Status
      reads this
    {
      status
    }

    /** The lifecycle hooks; the base class leaves them empty, so only the call is recorded. */
    method OnBeforeLogStart()
      modifies this`calls
      ensures calls == old(calls) + [OnBeforeLogStartCall]
    {
      calls := calls + [OnBeforeLogStartCall];
    }

    method OnAfterLogStart()
      modifies this`calls
      ensures calls == old(calls) + [OnAfterLogStartCall]
    {
      calls := calls + [OnAfterLogStartCall];
    }

    method OnBeforeLogFinish()
      modifies this`calls
      ensures calls == old(calls) + [OnBeforeLogFinishCall]
    {
      calls := calls + [OnBeforeLogFinishCall];
    }

    method OnAfterLogFinish()
      modifies this`calls
      ensures calls == old(calls) + [OnAfterLogFinishCall]
    {
      calls := calls + [OnAfterLogFinishCall];
    }

    /** Each stop method sets the status and never returns: it hands back what it throws. */
    method StopAsSkipped(message: string) returns (thrown: Thrown)
      modifies this`status
      ensures status == Skipped && thrown == StopStep(message)
    {
      status := Skipped;
      thrown := StopStep(message);
    }

    method StopAsFinished(message: string) returns (thrown: Thrown)
      modifies this`status
      ensures status == Finished && thrown == StopStep(message)
    {
      status := Finished;
      thrown := StopStep(message);
    }

    method StopAsFailed(message: string) returns (thrown: Thrown)
      modifies this`status
      ensures status == Failed && thrown == StopStep(message)
    {
      status := Failed;
      thrown := StopStep(message);
    }

    /** Stops the whole synchronisation: status "failed" and a stop-sync exception, not a stop-step one. */
    method StopEverything(message: string) returns (thrown: Thrown)
      modifies this`status
      ensures status == Failed && thrown == StopSync(message) && !thrown.StopStep?
    {
      status := Failed;
      thrown := StopSync(message);
    }

    /**
     * The user's `perform`: writes into the shared data, runs its queries (each query
     * log keeps them only while enabled), takes its time, then ends as `action.ending` says.
     */
    method Perform(host: Host) returns (outcome: Option<Thrown>)
      modifies this`status, this`calls, shared`data, host`bitrixQueries, host`illuminateLog, host`clock
      ensures calls == old(calls) + [PerformCall]
      ensures shared.data == old(shared.data) + action.writes
      ensures host.bitrixQueries == old(host.bitrixQueries) + (if host.bitrixTracking then action.bitrixQueries else [])
      ensures host.illuminateLog == old(host.illuminateLog) + (if host.illuminateLogging then action.ormQueries else [])
      ensures host.clock == old(host.clock) + action.duration
      ensures outcome == Raised(action.ending)
      ensures status == StatusAfter(action.ending, old(status))
    {
      calls := calls + [PerformCall];
      shared.data := shared.data + action.writes;
      host.RunQueries(action.bitrixQueries, action.ormQueries);
      host.Elapse(action.duration);
      var thrown: Thrown;
      match action.ending {
        case Return =>
          return None;
        case CallStopAsSkipped(m) =>
          thrown := StopAsSkipped(m);
        case CallStopAsFinished(m) =>
          thrown := StopAsFinished(m);
        case CallStopAsFailed(m) =>
          thrown := StopAsFailed(m);
        case CallStopEverything(m) =>
          thrown := StopEverything(m);
        case Throw(t) =>
          thrown := t;
      }
      outcome := Some(thrown);
    }

    method SetLogger(logger: Logger)
      modifies this`logger, this`calls
      ensures this.logger == logger
      ensures calls == old(calls) + [SetLoggerCall]
    {
      this.logger := logger;
      calls := calls + [SetLoggerCall];
    }

    /** Binds the step to the caller's data by reference: afterwards both name the same array. */
    method SetSharedData(data: SharedData)
      modifies this`shared, this`calls
      ensures shared == data
      ensures calls == old(calls) + [SetSharedDataCall]
    {
      shared := data;
      calls := calls + [SetSharedDataCall];
    }

    method SetSqlLoggingParams(bitrix: bool, illuminate: bool)
      modifies this`sqlLogsBitrix, this`sqlLogsIlluminate, this`calls
      ensures sqlLogsBitrix == bitrix && sqlLogsIlluminate == illuminate
      ensures calls == old(calls) + [SetSqlLoggingParamsCall]
    {
      sqlLogsBitrix, sqlLogsIlluminate := bitrix, illuminate;
      calls := calls + [SetSqlLoggingParamsCall];
    }

    method LogStart(host: Host)
      requires logger != null
      modifies this`startTime, this`calls, logger`records
      ensures startTime == host.clock
      ensures calls == old(calls) + [LogStartCall]
      ensures logger.records == old(logger.records) + [Record(Info, Separator), Record(Info, StepStarted(GetName()))]
    {
      startTime := host.clock;
      calls := calls + [LogStartCall];
      logger.Log(Info, Separator);
      logger.Log(Info, StepStarted(GetName()));
    }

    /** One pass over a query log: counts, times and groups its entries by verb, then logs the result. */
    method LogStatistics(source: SqlSource, verbs: seq<string>, times: seq<real>)
      requires logger != null && |verbs| == |times|
      modifies logger`records
      ensures logger.records == old(logger.records) + [Statistics(source, verbs, times)]
    {
      var groups, total := Tally(verbs, times);
      logger.Log(Info, SqlStatistics(source, |verbs|, total, groups));
    }

    /** Counts, times and groups by verb each enabled query log, as it stands. */
    method LogSqlQueriesSinceStepStart(host: Host)
      requires logger != null
      modifies logger`records
      ensures logger.records == old(logger.records) + SqlRecords(sqlLogsBitrix, sqlLogsIlluminate, host.bitrixQueries, host.illuminateLog)
    {
      var bitrixLog, illuminateLog := host.bitrixQueries, host.illuminateLog;
      ghost var before := logger.records;
      if sqlLogsBitrix {
        LogStatistics(BitrixTracker, BitrixVerbs(bitrixLog), TrackerTimes(bitrixLog));
      }
      if sqlLogsIlluminate {
        LogStatistics(IlluminateQueryLog, IlluminateVerbs(illuminateLog), MillisecondsAsSeconds(illuminateLog));
      }
      AppendAssociative(before, StatisticsIf(sqlLogsBitrix, BitrixTracker, BitrixVerbs(bitrixLog), TrackerTimes(bitrixLog)),
        StatisticsIf(sqlLogsIlluminate, IlluminateQueryLog, IlluminateVerbs(illuminateLog), MillisecondsAsSeconds(illuminateLog)));
    }

    /** Empties a query log only when its flag is set. */
    method FlushSqlLogs(host: Host)
      modifies host`bitrixQueries, host`illuminateLog
      ensures host.bitrixQueries == if sqlLogsBitrix then [] else old(host.bitrixQueries)
      ensures host.illuminateLog == if sqlLogsIlluminate then [] else old(host.illuminateLog)
    {
      if sqlLogsBitrix {
        host.ResetBitrixTracker();
      }
      if sqlLogsIlluminate {
        host.FlushIlluminateLog();
      }
    }

    method LogCurrentMemoryUsage(host: Host)
      requires logger != null
      modifies logger`records
      ensures logger.records == old(logger.records) + [Record(Info, CurrentMemory(MemoryFigureOf(host.memoryUsage)))]
    {
      logger.Log(Info, CurrentMemory(MemoryFigureOf(host.memoryUsage)));
    }

    method LogPeakMemoryUsage(host: Host)
      requires logger != null
      modifies logger`records
      ensures logger.records == old(logger.records) + [Record(Info, PeakMemory(MemoryFigureOf(host.peakMemoryUsage)))]
    {
      logger.Log(Info, PeakMemory(MemoryFigureOf(host.peakMemoryUsage)));
    }

    /** The first two lines of `logFinish`: the finish line and the time since the start. */
    method LogFinishLines(host: Host)
      requires logger != null
      modifies logger`records
      ensures logger.records == old(logger.records)
        + [Record(Info, StepFinished(GetName())), Record(Info, TimeSpent(ElapsedOf(host.clock - startTime)))]
    {
      logger.Log(Info, StepFinished(GetName()));
      logger.Log(Info, TimeSpent(ElapsedOf(host.clock - startTime)));
    }

    /** The last two lines of `logFinish`: the current and the peak memory reading. */
    method LogMemoryUsage(host: Host)
      requires logger != null
      modifies logger`records
      ensures logger.records == old(logger.records)
        + [Record(Info, CurrentMemory(MemoryFigureOf(host.memoryUsage))), Record(Info, PeakMemory(MemoryFigureOf(host.peakMemoryUsage)))]
    {
      LogCurrentMemoryUsage(host);
      LogPeakMemoryUsage(host);
    }

    /** The statistics are taken from the query logs before they are flushed. */
    method LogFinish(host: Host)
      requires logger != null
      modifies this`calls, logger`records, host`bitrixQueries, host`illuminateLog
      ensures logger.records == old(logger.records) + FinishOf(GetName(), startTime, host.clock,
        sqlLogsBitrix, sqlLogsIlluminate, old(host.bitrixQueries), old(host.illuminateLog), host.memoryUsage, host.peakMemoryUsage).Records()
      ensures host.bitrixQueries == if sqlLogsBitrix then [] else old(host.bitrixQueries)
      ensures host.illuminateLog == if sqlLogsIlluminate then [] else old(host.illuminateLog)
      ensures calls == old(calls) + [LogFinishCall]
    {
      ghost var before := logger.records;
      ghost var finish := FinishOf(GetName(), startTime, host.clock, sqlLogsBitrix, sqlLogsIlluminate,
        host.bitrixQueries, host.illuminateLog, host.memoryUsage, host.peakMemoryUsage);
      ghost var head := [Record(Info, StepFinished(finish.name)), Record(Info, TimeSpent(finish.spent))];
      ghost var tail := [Record(Info, CurrentMemory(finish.current)), Record(Info, PeakMemory(finish.peak))];
      LogFinishLines(host);
      LogSqlQueriesSinceStepStart(host);
      FlushSqlLogs(host);
      LogMemoryUsage(host);
      AppendBlocks(before, head, finish.sql, tail);
      assert finish.Records() == head + finish.sql + tail;
      calls := calls + [LogFinishCall];
    }

    /** The finish the run loop calls: the before-finish hook, `logFinish`, the after-finish hook. */
    method LogFinishWithEvents(host: Host)
      requires logger != null
      modifies this`calls, logger`records, host`bitrixQueries, host`illuminateLog
      ensures logger.records == old(logger.records) + FinishOf(GetName(), startTime, host.clock,
        sqlLogsBitrix, sqlLogsIlluminate, old(host.bitrixQueries), old(host.illuminateLog), host.memoryUsage, host.peakMemoryUsage).Records()
      ensures host.bitrixQueries == if sqlLogsBitrix then [] else old(host.bitrixQueries)
      ensures host.illuminateLog == if sqlLogsIlluminate then [] else old(host.illuminateLog)
      ensures calls == old(calls) + [OnBeforeLogFinishCall, LogFinishCall, OnAfterLogFinishCall]
    {
      OnBeforeLogFinish();
      LogFinish(host);
      OnAfterLogFinish();
    }
  }
}
