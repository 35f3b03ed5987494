/**
 * The run's logger. Monolog's handlers and formatters are not modelled: the
 * logger is the ordered list of records it was given, each a level and a
 * structured event standing for one message of src/Sync.php or src/Step.php.
 */
module Logging {
  import opened Instrumentation

  datatype Level = Info | Alert

  /** How a step that stopped itself is described ("failed", "skipped" or "successful"). */
  datatype StopLabel = FailedLabel | SkippedLabel | SuccessLabel

  datatype SqlSource = BitrixTracker | IlluminateQueryLog

  datatype Event =
    | SyncStarted
    | Separator
    | SyncFinished
    | TimeSpent(elapsed: Elapsed)
    | LockExists(env: string, lockPath: string)
    | StepStarted(name: string)
    | StepFinished(name: string)
    | StepStopped(outcome: StopLabel, message: string)
    | StopSyncRequested(message: string)
    | UnhandledException(exceptionClass: string, message: string)
    | UnhandledThrowable(exceptionClass: string, message: string)
    | SqlStatistics(source: SqlSource, count: nat, totalTime: real, details: seq<Group>)
    | CurrentMemory(figure: MemoryFigure)
    | PeakMemory(figure: MemoryFigure)

  datatype Record = Record(level: Level, event: Event)

  lemma AppendAssociative(a: seq<Record>, b: seq<Record>, c: seq<Record>)
    ensures a + (b + c) == (a + b) + c
  {
  }

  /** Three runs of records: appended one after the other or as one block. */
  lemma AppendBlocks(base: seq<Record>, head: seq<Record>, middle: seq<Record>, tail: seq<Record>)
    ensures base + (head + middle + tail) == base + head + middle + tail
  {
  }

  class Logger {
    var records: seq<Record>

    constructor ()
      ensures records == []
    {
      records := [];
    }

    method Log(level: Level, event: Event)
      modifies this`records
      ensures records == old(records) + [Record(level, event)]
    {
      records := records + [Record(level, event)];
    }
  }
}
