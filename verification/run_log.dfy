/**
 * What the run loop of src/Sync.php leaves behind for each step it reaches: the
 * shared data the step found, its status, and the records it added to the log;
 * and what a whole run leaves behind once validation accepted the steps.
 */
module RunLog {
  import opened PhpValues
  import opened Instrumentation
  import opened Logging
  import opened Platform
  import opened StepLifecycle
  import opened SyncRules

  /** The closing lines of a run: separator, end of the synchronisation, time spent between the clock readings `start` and `end`. */
  function ClosingRecords(start: real, end: real): seq<Record> {
    [Record(Info, Separator), Record(Info, SyncFinished), Record(Info, TimeSpent(ElapsedOf(end - start)))]
  }

  /** The log of a run after `before`: the records of each step reached, then the closing lines. */
  predicate Logged(log: seq<Record>, before: seq<Record>, runs: seq<StepRun>, start: real, end: real) {
    log == before + RecordsOf(runs) + ClosingRecords(start, end)
  }

  /**
   * What a run that got past validation leaves behind: `reached` steps ran (up to and
   * including the first that ended the run), in the order of the hook calls, each
   * seeing the shared data of the steps before it and starting from the status the loop
   * found it in or an earlier run of the same object left; the steps end in the
   * statuses `final`, those the runs leave; and the log holds their records followed
   * by the closing lines.
   */
  predicate Executed(steps: seq<Entry>, reached: nat, calls: seq<Call>, runs: seq<StepRun>, init: map<string, PhpValue>,
                     shared: map<string, PhpValue>, log: seq<Record>, before: seq<Record>, start: real, end: real, p: Profile,
                     initial: seq<Status>, final: seq<Status>)
    requires AllSteps(steps)
  {
    && reached == Reached(Outcomes(steps)) == |runs|
    && calls == RunCalls(reached)
    && Ran(runs, init, steps, p, initial)
    && StatusesAt(final, steps, runs, initial, reached)
    && shared == SharedAfter(init, Writes(steps)[..reached])
    && Logged(log, before, runs, start, end)
  }

  /**
   * What the run loop did with one step: the shared data the step found, its status
   * before and after `perform`, and the records it added to the log, in three parts:
   * the start lines under its name, the record of the catch clause that received its
   * outcome, and its finish block.
   */
  datatype StepRun = StepRun(seen: map<string, PhpValue>, prior: Status, status: Status,
                             name: string, handled: seq<Record>, finish: FinishLines)
  {
    function Records(): seq<Record> {
      StartRecords(name) + handled + finish.Records()
    }
  }

  /**
   * What the finish blocks of a run depend on, fixed for the whole loop: the two SQL
   * flags every step receives, whether each query log records, what the two logs held
   * when the loop began, and the current and peak memory readings.
   */
  datatype Profile = Profile(bitrixOn: bool, illuminateOn: bool, bitrixTracking: bool, illuminateLogging: bool,
                             bitrixStart: seq<Query>, illuminateStart: seq<Query>, usage: nat, peak: nat)

  /**
   * What an enabled query log holds when step `n` starts: what it held when the loop
   * began for the first step, and nothing for a later one, whose predecessor flushed it.
   */
  function StartLog(start: seq<Query>, n: nat): seq<Query> {
    if n == 0 then start else []
  }

  /**
   * The finish block of `step` when it is the `n`-th of the loop: its name, the time its
   * `perform` took, the statistics of each enabled query log over what it held at the
   * step's start and the step's own queries that reached it, and the memory readings.
   */
  function FinishFor(p: Profile, step: Step, n: nat): FinishLines {
    var a := step.action;
    FinishLines(step.GetName(), ElapsedOf(a.duration),
      SqlRecords(p.bitrixOn, p.illuminateOn,
        StartLog(p.bitrixStart, n) + (if p.bitrixTracking then a.bitrixQueries else []),
        StartLog(p.illuminateStart, n) + (if p.illuminateLogging then a.ormQueries else [])),
      MemoryFigureOf(p.usage), MemoryFigureOf(p.peak))
  }

  /**
   * A finish block reports the time the step's `perform` took; and when a query log is
   * enabled, recording, and empty at the step's start, its statistics are those of the
   * step's own queries, counting each of them.
   */
  lemma FinishCountsOwnQueries(p: Profile, step: Step, n: nat)
    ensures FinishFor(p, step, n).spent == ElapsedOf(step.action.duration)
    ensures p.bitrixOn && p.bitrixTracking && StartLog(p.bitrixStart, n) == [] ==>
      var sql := FinishFor(p, step, n).sql;
      |sql| > 0 && sql[0] == Statistics(BitrixTracker, BitrixVerbs(step.action.bitrixQueries), TrackerTimes(step.action.bitrixQueries))
      && sql[0].event.count == |step.action.bitrixQueries|
    ensures p.illuminateOn && p.illuminateLogging && StartLog(p.illuminateStart, n) == [] ==>
      var sql := FinishFor(p, step, n).sql;
      |sql| > 0 && sql[|sql| - 1] == Statistics(IlluminateQueryLog, IlluminateVerbs(step.action.ormQueries), MillisecondsAsSeconds(step.action.ormQueries))
      && sql[|sql| - 1].event.count == |step.action.ormQueries|
  {
    var a := step.action;
    var bitrix := StartLog(p.bitrixStart, n) + (if p.bitrixTracking then a.bitrixQueries else []);
    var illuminate := StartLog(p.illuminateStart, n) + (if p.illuminateLogging then a.ormQueries else []);
    var sql := FinishFor(p, step, n).sql;
    assert sql == SqlRecords(p.bitrixOn, p.illuminateOn, bitrix, illuminate);
    SqlRecordsLayout(p.bitrixOn, p.illuminateOn, bitrix, illuminate);
    if p.bitrixOn && p.bitrixTracking && StartLog(p.bitrixStart, n) == [] {
      assert bitrix == a.bitrixQueries;
      StatisticsSummary(BitrixTracker, BitrixVerbs(bitrix), TrackerTimes(bitrix));
    }
    if p.illuminateOn && p.illuminateLogging && StartLog(p.illuminateStart, n) == [] {
      assert illuminate == a.ormQueries;
      StatisticsSummary(IlluminateQueryLog, IlluminateVerbs(illuminate), MillisecondsAsSeconds(illuminate));
    }
  }

  /**
   * The finish block `logFinish` makes for the `n`-th step, read at `end`, when its
   * `perform` ran from `start` and the flags and memory readings are those of `p`:
   * when each enabled log holds what it held at the step's start, as `StartLog` says,
   * followed by the step's own queries if that log records, it is the one `FinishFor`
   * names.
   */
  lemma FinishOfStep(p: Profile, step: Step, n: nat, start: real, end: real, bitrixOn: bool, illuminateOn: bool,
                     bitrixLog: seq<Query>, illuminateLog: seq<Query>, usage: nat, peak: nat)
    requires end == start + step.action.duration
    requires bitrixOn == p.bitrixOn && illuminateOn == p.illuminateOn && usage == p.usage && peak == p.peak
    requires p.bitrixOn ==> bitrixLog == StartLog(p.bitrixStart, n) + (if p.bitrixTracking then step.action.bitrixQueries else [])
    requires p.illuminateOn ==> illuminateLog == StartLog(p.illuminateStart, n) + (if p.illuminateLogging then step.action.ormQueries else [])
    ensures FinishOf(step.GetName(), start, end, bitrixOn, illuminateOn, bitrixLog, illuminateLog, usage, peak) == FinishFor(p, step, n)
  {
    var a := step.action;
    SqlRecordsSeeEnabledLogsOnly(p.bitrixOn, p.illuminateOn, bitrixLog,
      StartLog(p.bitrixStart, n) + (if p.bitrixTracking then a.bitrixQueries else []), illuminateLog,
      StartLog(p.illuminateStart, n) + (if p.illuminateLogging then a.ormQueries else []));
    assert end - start == a.duration;
  }

  /**
   * The run of step `n` when its status before `perform` was `prior`: it found the data
   * the steps before it wrote, ended in the status its outcome leads to, and logged its
   * start lines, the record of the catch clause that received its outcome, and its
   * finish block, all under its own name.
   */
  function RunFor(init: map<string, PhpValue>, steps: seq<Entry>, n: nat, prior: Status, p: Profile): StepRun
    requires AllSteps(steps) && n < |steps|
  {
    var step := steps[n].step;
    var status := StatusAfter(step.action.ending, prior);
    StepRun(SharedAfter(init, Writes(steps)[..n]), prior, status, step.GetName(),
            HandlerRecords(Raised(step.action.ending), status), FinishFor(p, step, n))
  }

  /** `run` is a run of step `n`, whatever its prior status. */
  predicate RunOf(run: StepRun, init: map<string, PhpValue>, steps: seq<Entry>, n: nat, p: Profile)
    requires AllSteps(steps) && n < |steps|
  {
    run == RunFor(init, steps, n, run.prior, p)
  }

  /**
   * The status step `j` has once the first `k` runs are over: what the last of them on
   * the same step object left, or, when none of them ran that object, what it had when
   * the loop began. The steps array may hold the same object more than once.
   */
  function PriorAt(steps: seq<Entry>, runs: seq<StepRun>, initial: seq<Status>, j: nat, k: nat): Status
    requires AllSteps(steps) && j < |steps| == |initial| && k <= |runs| && k <= |steps|
    decreases k
  {
    if k == 0 then initial[j]
    else if steps[k - 1].step == steps[j].step then runs[k - 1].status
    else PriorAt(steps, runs, initial, j, k - 1)
  }

  /** Later runs do not change what the first `k` runs left. */
  lemma {:induction false} PriorAtPrefix(steps: seq<Entry>, runs: seq<StepRun>, more: seq<StepRun>, initial: seq<Status>, j: nat, k: nat)
    requires AllSteps(steps) && j < |steps| == |initial| && k <= |runs| && k <= |steps|
    ensures PriorAt(steps, runs + more, initial, j, k) == PriorAt(steps, runs, initial, j, k)
    decreases k
  {
    if k > 0 {
      assert (runs + more)[k - 1] == runs[k - 1];
      PriorAtPrefix(steps, runs, more, initial, j, k - 1);
    }
  }

  /** A step object none of the first `k` runs touched still has the status it had when the loop began. */
  lemma {:induction false} PriorOfUntouched(steps: seq<Entry>, runs: seq<StepRun>, initial: seq<Status>, j: nat, k: nat)
    requires AllSteps(steps) && j < |steps| == |initial| && k <= |runs| && k <= |steps|
    requires forall m :: 0 <= m < k ==> steps[m].step != steps[j].step
    ensures PriorAt(steps, runs, initial, j, k) == initial[j]
    decreases k
  {
    if k > 0 {
      PriorOfUntouched(steps, runs, initial, j, k - 1);
    }
  }

  /** A step object run at position `m` and not again before `k` has the status that run ended in. */
  lemma {:induction false} PriorOfLastRun(steps: seq<Entry>, runs: seq<StepRun>, initial: seq<Status>, j: nat, k: nat, m: nat)
    requires AllSteps(steps) && j < |steps| == |initial| && k <= |runs| && k <= |steps|
    requires m < k && steps[m].step == steps[j].step
    requires forall m' :: m < m' < k ==> steps[m'].step != steps[j].step
    ensures PriorAt(steps, runs, initial, j, k) == runs[m].status
    decreases k
  {
    if k - 1 != m {
      PriorOfLastRun(steps, runs, initial, j, k - 1, m);
    }
  }

  /** `statuses` once step object `s` ended a run in status `st`: every position holding `s` takes it. */
  function Restatus(statuses: seq<Status>, steps: seq<Entry>, s: Step, st: Status): (r: seq<Status>)
    requires |statuses| == |steps|
    ensures |r| == |steps|
  {
    seq(|steps|, j requires 0 <= j < |steps| => if steps[j].Instance? && steps[j].step == s then st else statuses[j])
  }

  /** In `statuses`, every step has the status `PriorAt` gives it once `i` runs are over. */
  predicate StatusesAt(statuses: seq<Status>, steps: seq<Entry>, runs: seq<StepRun>, initial: seq<Status>, i: nat)
    requires AllSteps(steps) && |steps| == |initial| && i <= |runs| && i <= |steps|
  {
    |statuses| == |steps| && forall j :: 0 <= j < |steps| ==> statuses[j] == PriorAt(steps, runs, initial, j, i)
  }

  /**
   * What the statuses are once `k` runs are over: a step object none of them ran keeps
   * the status it had when the loop began, and a step run at position `j` whose object
   * does not come up again before `k` holds the status that run ended in.
   */
  lemma FinalStatuses(statuses: seq<Status>, steps: seq<Entry>, runs: seq<StepRun>, initial: seq<Status>, k: nat, j: nat)
    requires AllSteps(steps) && |steps| == |initial| && k <= |runs| && k <= |steps| && j < |steps|
    requires StatusesAt(statuses, steps, runs, initial, k)
    ensures (forall m :: 0 <= m < k ==> steps[m].step != steps[j].step) ==> statuses[j] == initial[j]
    ensures j < k && (forall m :: j < m < k ==> steps[m].step != steps[j].step) ==> statuses[j] == runs[j].status
  {
    if forall m :: 0 <= m < k ==> steps[m].step != steps[j].step {
      PriorOfUntouched(steps, runs, initial, j, k);
    }
    if j < k && (forall m :: j < m < k ==> steps[m].step != steps[j].step) {
      PriorOfLastRun(steps, runs, initial, j, k, j);
    }
  }

  /**
   * One more run keeps `StatusesAt`: once step `i` ended its run, the positions holding the
   * same object take the status that run ended in, and the others keep theirs.
   */
  lemma StatusesAfterRun(statuses: seq<Status>, steps: seq<Entry>, runs: seq<StepRun>, initial: seq<Status>, run: StepRun, i: nat)
    requires AllSteps(steps) && |steps| == |initial| && i == |runs| < |steps|
    requires StatusesAt(statuses, steps, runs, initial, i)
    ensures StatusesAt(Restatus(statuses, steps, steps[i].step, run.status), steps, runs + [run], initial, i + 1)
  {
    var after := Restatus(statuses, steps, steps[i].step, run.status);
    forall j | 0 <= j < |steps|
      ensures after[j] == PriorAt(steps, runs + [run], initial, j, i + 1)
    {
      PriorAtPrefix(steps, runs, [run], initial, j, i);
    }
  }

  /**
   * `runs[j]` is the run of step `j`, for every step reached, started from the status
   * `PriorAt` gives it, the loop having begun with the statuses `initial`.
   */
  predicate Ran(runs: seq<StepRun>, init: map<string, PhpValue>, steps: seq<Entry>, p: Profile, initial: seq<Status>)
    requires AllSteps(steps)
  {
    && |runs| <= |steps| == |initial|
    && runs == seq(|runs|, j requires 0 <= j < |runs| && j < |steps| == |initial| && |runs| <= |steps| =>
         RunFor(init, steps, j, PriorAt(steps, runs, initial, j, j), p))
  }

  lemma RanExtend(runs: seq<StepRun>, init: map<string, PhpValue>, steps: seq<Entry>, p: Profile, initial: seq<Status>, run: StepRun)
    requires AllSteps(steps) && Ran(runs, init, steps, p, initial) && |runs| < |steps|
    requires RunOf(run, init, steps, |runs|, p) && run.prior == PriorAt(steps, runs, initial, |runs|, |runs|)
    ensures Ran(runs + [run], init, steps, p, initial)
  {
    var ext := runs + [run];
    forall j | 0 <= j < |ext|
      ensures ext[j] == RunFor(init, steps, j, PriorAt(steps, ext, initial, j, j), p)
    {
      PriorAtPrefix(steps, runs, [run], initial, j, j);
      if j < |runs| {
        assert ext[j] == runs[j];
      }
    }
  }

  /**
   * Every step reached found the data all earlier steps wrote, ended in the status
   * its `perform` leads to, and left its own records: start lines, what its outcome
   * caused, finish block.
   */
  lemma RanAt(runs: seq<StepRun>, init: map<string, PhpValue>, steps: seq<Entry>, p: Profile, initial: seq<Status>, j: nat)
    requires AllSteps(steps) && Ran(runs, init, steps, p, initial) && j < |runs|
    ensures runs[j].seen == SharedAfter(init, Writes(steps)[..j])
    ensures runs[j].prior == PriorAt(steps, runs, initial, j, j)
    ensures runs[j].status == StatusAfter(steps[j].step.action.ending, runs[j].prior)
    ensures runs[j].Records() == StartRecords(steps[j].step.GetName())
      + HandlerRecords(Raised(steps[j].step.action.ending), runs[j].status) + runs[j].finish.Records()
    ensures runs[j].finish == FinishFor(p, steps[j].step, j)
  {
  }

  /** The records of the steps reached, one after the other. */
  function RecordsOf(runs: seq<StepRun>): seq<Record> {
    if runs == [] then [] else RecordsOf(runs[..|runs| - 1]) + runs[|runs| - 1].Records()
  }

  /** A log holding `base` and the records of `runs`, once one more run appends its records. */
  lemma RecordsOfExtend(base: seq<Record>, logged: seq<Record>, runs: seq<StepRun>, run: StepRun)
    requires logged == base + RecordsOf(runs)
    ensures logged + run.Records() == base + RecordsOf(runs + [run])
  {
    assert (runs + [run])[..|runs|] == runs;
  }
}
