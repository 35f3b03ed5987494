# bitrix-sync: the synchronisation engine and its steps, in Dafny

This project models the core of `arrilot/bitrix-sync`. That core is the `Sync` class, which runs a named synchronisation as an ordered list of steps, and the `Step` base class, whose lifecycle `Sync` drives. The model also proves properties of both.

A synchronisation:
- is built from a name that must match `[a-zA-Z0-9_-]+`, and derives its log directory, its lock file and its log file from that name;
- fills its configuration from the user's settings, with defaults, and lets setters override each entry;
- on `perform`:
  - removes log files at least as old as the retention period;
  - refuses to start while another run's lock file exists, and otherwise creates the lock and registers its removal at shutdown;
  - turns class names into step instances and checks that every element is a step and that every dependency is the class of a step at or before it;
  - runs the steps one by one with a shared logger and a shared data array;
  - logs the totals and mails the log file to the final-log recipients.

Each step:
- logs a start block;
- runs its `perform`, which may stop itself as skipped, finished or failed, or stop the whole synchronisation;
- logs a finish block: the time spent, SQL statistics grouped by query verb from two optional query logs (which are then flushed), and the current and peak memory readings.

## Layout

| file | module | what it holds |
|---|---|---|
| `php_values.dfy` | `PhpValues` | PHP truthiness, the `(int)`/`(array)`/string casts, `ltrim`, `strtok`, `strtolower` |
| `instrumentation.dfy` | `Instrumentation` | elapsed-time and memory rendering; verb keys of queries; grouping a query log by verb (`Tally`) |
| `logging.dfy` | `Logging` | log records as structured events; the `Logger` class |
| `platform.dfy` | `Platform` | the `Host` class: log directories and files, shutdown callbacks, outgoing mail, the two query logs, clocks, memory readings |
| `step_lifecycle.dfy` | `StepLifecycle` | the `Step` class: stop methods, `getName`, `logStart`, `logFinish`, SQL statistics, flushing |
| `sync_rules.dfy` | `SyncRules` | the decisions `Sync` takes without changing anything: name check, paths, configuration defaults, retention, final-log mail, step validation, how far the run loop gets, the calls it makes |
| `run_log.dfy` | `RunLog` | what the run loop leaves behind for each step it reaches and for a whole run |
| `orchestration.dfy` | `Orchestration` | the `Sync` class: constructor, setters, clean-up, overlap guard, normalisation, validation, run loop, final mail, `perform` |

Everything the engine reads from outside is an explicit input:
- time: `microtime(true)` is `Host.clock`, which each step's `perform` advances; `time()` is `Host.unixTime`, fixed for the run;
- memory: `Host.memoryUsage` and `Host.peakMemoryUsage`, fixed for the run;
- database and site: whether the Illuminate layer is in use, the time the session-timeout query takes on each connection, and the site options `site_name` and `email_from`, are `Host` constants;
- construction: the user's `bitrix-sync` settings, the default environment label, the root that `logs_path` prefixes and the date stamp of the log file are parameters of the constructor;
- `new $class`: a registry from class names to class declarations.

A step's `perform` is user code. It is a fixed `Action`: what it writes into the shared data, the queries it runs, how long it takes, and how it ends (it returns, calls one of the four stop methods, or throws). An `Action` does not log. A `perform` that writes to the logger it was given is outside the model, so the statements below that a run logs exactly certain records (`Logged`, `RunStep`, `RunFor`) hold for a `perform` that logs nothing of its own.

Each step keeps a ghost log of the calls the run loop makes on it (`Step.calls`): every setter, hook, `logStart`, `perform` and `logFinish` appends its own entry, so the calls a run makes are read off the steps rather than asserted beside them.

Thrown exceptions are modelled as follows:
- before the loop, they are a `Failure` value that aborts `perform`;
- inside the loop, they are a `Thrown` value. The catch clauses tell its four kinds apart.

### Behaviour of the code kept as written

The model keeps the following behaviour exactly as the code has it:
- **Elapsed time.** It is shown in minutes only when it is strictly more than 60 seconds (`> 60`, `src/Step.php:254`, `src/Sync.php:169`).
- **Self-dependency.** The ordering test rejects a dependency whose first position is *after* the dependent (`> $i`, `src/Sync.php:605`). So a step may depend on its own class, or on a class that also appears earlier.
- **Step-scoped stops.** Every such stop is logged at info level, whatever the status. A step with no status, or with status "finished", is labelled successful (`src/Sync.php:121-131`).
- **Start hooks.** `onBeforeLogStart` is called twice around `logStart`, and `onAfterLogStart` is never called (`src/Sync.php:114-116`).
- **Clean-up before the guard.** The clean-up runs before the overlap guard, so a lock file at least as old as the retention period is deleted and the run proceeds (`CleanUpReachesLock`, `Sync.Prepare`).
- **Final-log fallback.** The fallback body of the final-log mail is used whenever the file's contents are falsy: unreadable, empty, or "0".
- **Name check.** It accepts one trailing "\n", because `$` without the `D` modifier matches before a final newline (`NameAcceptedIff`).
- **Lock before validation.** The overlap guard runs before normalisation and validation (`src/Sync.php:100-102`). A run refused for an unknown class or for invalid steps therefore leaves its lock file in place until the process shuts down (`Sync.Perform`).
- **Illuminate log at profiling.** `doProfileSql` restarts the Bitrix tracker empty but only switches the Illuminate query log on, without emptying it (`src/Sync.php:509-516`). The first step's Illuminate statistics therefore also count queries logged before `perform`, among them the `SET wait_timeout=28800` that `adjustPhpSettings` sends when that log already records (`src/Sync.php:488-498`; `ProfiledStepsCountOwnQueries`, `Sync.Perform`).
- **Class names.** `new $step` finds a class whatever the case of the name and with or without a leading backslash, and the instance carries the class's declared name (what `get_class` returns). A class declaration therefore holds its declared name apart from the string that looked it up (`ClassDecl`, `Sync.NormalizeSteps`).
- **Step seen twice.** The steps array may hold the same step object at several positions. Each pass starts from the status the previous pass on that object left (`PriorAt`).
- **`logFinishWithEvents`.** It is called by the run loop but is not defined in `src/Step.php`. It is modelled as the before-finish hook, then `logFinish`, then the after-finish hook, following the order documented at `src/Step.php:159-163`.

## Model

| member | source | states |
|---|---|---|
| Instrumentation.ElapsedOf | src/Step.php:253-258 | minutes exactly when more than 60 seconds elapsed, the amount in minutes times 60 being the elapsed time; otherwise the seconds themselves |
| Instrumentation.MemoryFigureOf | src/Step.php:81-88 | unit B exactly below 1024, MB exactly from 1024*1024 on, KB in between; amount times unit size is the reading; outside B the amount is at least 1, and in KB below 1024 |
| Instrumentation.MemoryFigureExamples | src/Step.php:82-87 | 500 is 500 B, 2048 is 2 KB, 3*1024*1024 is 3 MB |
| Instrumentation.BitrixVerb | src/Step.php:121-122 | the two `strtok` calls after `ltrim`, lower-cased, equal the lower-cased longest prefix of the left-trimmed query free of space, CR and LF; the key holds no such character and no capital |
| Instrumentation.IlluminateVerb | src/Step.php:142 | the first space-delimited token, never empty and space-free; the key "0" (PHP's `false` as an array key) when the query holds only spaces |
| Instrumentation.KeyIndex | src/Step.php:123 | `isset($details[$type])`: finds the group with that key, or none has it |
| Instrumentation.AddEntryNew | src/Step.php:123-128 | a query of an unseen verb appends a group with count 1 and its time; the details stay exact and the counts grow by one |
| Instrumentation.AddEntryExisting | src/Step.php:126-127 | a query of a seen verb adds one to that group's count and its time to that group's total; the details stay exact and the counts grow by one |
| Instrumentation.AddEntryKeepsDetails | src/Step.php:120-128 | one more query keeps the details exact, whether its verb is new or not |
| Instrumentation.GroupedIsDetails | src/Step.php:117-129 | the grouping has one group per distinct verb and no other, each with the number and cumulative time of its queries; the counts add up to the number of entries |
| Instrumentation.Tally | src/Step.php:117-129 | the grouping loop yields the per-verb groups (whose counts add up to the number of entries) and the total time as the sum of all times |
| Platform.Host.MakeDirectory | src/Sync.php:67-69 | the log directory is created, empty, only when missing |
| Platform.Host.CreateEmptyFile | src/Sync.php:547-548 | an empty file stamped with the current time is created exactly when its directory exists |
| Platform.Host.Unlink | src/Sync.php:193 | the file is gone afterwards; nothing else changes |
| Platform.Host.RegisterShutdownUnlink | src/Sync.php:551-553 | the lock file's removal is appended to the shutdown callbacks |
| Platform.Host.Shutdown | src/Sync.php:551-553 | at process end every file whose removal was registered is gone, no file appears, every other file is still there with its contents and modification time, and the directories stay |
| Platform.Host.StartBitrixTracker | src/Sync.php:509-510 | a fresh, empty tracker that records |
| Platform.Host.ResetBitrixTracker | src/Step.php:289 | the tracker's log is emptied |
| Platform.Host.EnableIlluminateLog | src/Sync.php:515 | the Illuminate query log records from now on |
| Platform.Host.FlushIlluminateLog | src/Step.php:293 | the Illuminate query log is emptied |
| StepLifecycle.Raised | src/Step.php:174-211 | nothing escapes `perform` exactly when it returns; the three step stops throw a stop-step exception with their message, `stopEverything` a stop-sync one |
| StepLifecycle.StatusAfter | src/Step.php:174-211 | skipped, finished, failed, failed for the four stop methods; unchanged when `perform` returns or throws anything else |
| StepLifecycle.StatisticsSummary | src/Step.php:115-133 | a statistics record is at info level, counts every entry of its log, carries the sum of the times, and its groups are exactly the verbs met with their counts (adding up to the entry count) and times |
| StepLifecycle.SqlRecordsLayout | src/Step.php:113-157 | one statistics record per enabled source, the Bitrix one first |
| StepLifecycle.SqlRecordsSeeEnabledLogsOnly | src/Step.php:113-157 | the statistics records depend only on the query logs whose flag is set; a disabled log may hold anything |
| StepLifecycle.Step.constructor | src/Step.php:15-53 | a new step has no status, no logger, both SQL flags off and an empty shared array of its own |
| StepLifecycle.Step.GetName | src/Step.php:63-66 | the display name when it is truthy (not "" nor "0"), otherwise the class name |
| StepLifecycle.Step.StopAsSkipped | src/Step.php:174-178 | status skipped and a stop-step exception with the message |
| StepLifecycle.Step.StopAsFinished | src/Step.php:185-189 | status finished and a stop-step exception with the message |
| StepLifecycle.Step.StopAsFailed | src/Step.php:196-200 | status failed and a stop-step exception with the message |
| StepLifecycle.Step.StopEverything | src/Step.php:207-211 | status failed and a stop-sync exception, never a stop-step one |
| StepLifecycle.Step.Perform | src/Step.php:58 | the user's `perform`: its writes land on the shared array, its queries reach each log only while that log records, its time passes, and the outcome and status are those of its ending |
| StepLifecycle.Step.SetLogger | src/Step.php:217-222 | the step logs to the given logger |
| StepLifecycle.Step.SetSharedData | src/Step.php:228-233 | the step holds the caller's array itself (by reference), not a copy |
| StepLifecycle.Step.SetSqlLoggingParams | src/Step.php:275-281 | the two SQL flags are exactly the values passed |
| StepLifecycle.Step.LogStart | src/Step.php:238-245 | the start time is the clock reading; a separator and the start line under the step's name are logged |
| StepLifecycle.Step.LogStatistics | src/Step.php:117-133 | one pass over a query log logs exactly its statistics record |
| StepLifecycle.Step.LogSqlQueriesSinceStepStart | src/Step.php:113-157 | logs the statistics of each enabled query log as it stands, Bitrix first |
| StepLifecycle.Step.FlushSqlLogs | src/Step.php:286-295 | each query log is emptied exactly when its flag is set, otherwise left as it is |
| StepLifecycle.Step.LogCurrentMemoryUsage | src/Step.php:79-91 | logs the current memory reading in its unit |
| StepLifecycle.Step.LogPeakMemoryUsage | src/Step.php:96-108 | logs the peak memory reading in its unit |
| StepLifecycle.Step.LogFinish | src/Step.php:250-266 | logs exactly the `FinishOf` block: the finish line, the time since the start, the statistics of the enabled query logs as they were before the flush, then the memory readings; then flushes the flagged logs, and records the call |
| StepLifecycle.Step.LogFinishLines | src/Step.php:252-258 | the finish line under the step's name and the time since its start, in that order |
| StepLifecycle.Step.LogMemoryUsage | src/Step.php:262-263 | the current memory reading, then the peak one, each in its unit |
| StepLifecycle.Step.LogFinishWithEvents | src/Step.php:159-167 | the finish hooks around `logFinish`: the same records and the same flush |
| SyncRules.NameTailIff | src/Sync.php:60 | after the first character the pattern accepts exactly name characters, optionally followed by one final "\n" |
| SyncRules.NameAcceptedIff | src/Sync.php:60-62 | a name is accepted exactly when it is one or more of `a-z A-Z 0-9 _ -`, or such a name followed by one "\n" |
| SyncRules.LockPath | src/Sync.php:77 | the lock file is `logDir/<name>_is_in_process.lock` |
| SyncRules.LogFilePath | src/Sync.php:73 | the log file is `logDir/<stamp>.log` |
| SyncRules.LockPathsDistinct | src/Sync.php:77 | two syncs with different names never share a lock file |
| SyncRules.LockIsNotLog | src/Sync.php:73-77 | a sync's lock file is never its log file |
| SyncRules.FlagSetting | src/Sync.php:80-81 | a flag is a bool, true exactly when the setting is set and truthy |
| SyncRules.ListSetting | src/Sync.php:82-84 | an unset recipient setting is the empty list, a scalar becomes a one-element list |
| SyncRules.DefaultConfig | src/Sync.php:79-88 | flags are bools, alert recipients a list, retention the `(int)` of the setting or 30, the environment the setting or the default |
| SyncRules.DefaultsWithoutUserConfig | src/Sync.php:79-88 | with no user settings: no overlap allowed, no profiling, no echo, no recipients, 30 days |
| SyncRules.Retained | src/Sync.php:188-195 | with a non-zero period, a file survives exactly when it is younger than `days * 86400` seconds; with 0 nothing is touched; survivors are unchanged |
| SyncRules.RetentionMonotone | src/Sync.php:192 | a longer period keeps every file a shorter one keeps |
| SyncRules.NegativeRetentionDeletesAll | src/Sync.php:192 | when no file is stamped in the future, a negative period deletes every file |
| SyncRules.EmailFrom | src/Sync.php:470-474 | the `email_from` option when truthy, otherwise `mail@greensight.ru` |
| SyncRules.FinalLogMail | src/Sync.php:615-633 | no mail exactly when there are no recipients; otherwise to all of them comma-joined, from `emailFrom()`, under the site name, environment and sync name, with the log file's contents, or the fallback naming the file exactly when those are unreadable or falsy |
| SyncRules.Names | src/Sync.php:591-597 | the class names of the steps, position by position |
| SyncRules.IndexOf | src/Sync.php:605 | `array_search`: the first position of the name, absent exactly when the name is not there |
| SyncRules.FirstNonStep | src/Sync.php:592-597 | the first element that is not a step, with every element before it a step; none exactly when all are steps |
| SyncRules.DependencyError | src/Sync.php:600-608 | no error exactly when every dependency is a class name at or before the step's position |
| SyncRules.OrderError | src/Sync.php:599-609 | no error exactly when every dependency of every step from position `i` on is a class at or before that step |
| SyncRules.ValidationAcceptsIff | src/Sync.php:589-610 | the steps are accepted exactly when all of them are steps and every dependency is the class of a step at or before it |
| SyncRules.SelfDependencyAccepted | src/Sync.php:605 | steps that each depend only on their own class are accepted |
| SyncRules.Reached | src/Sync.php:108-164 | the loop reaches every step up to and including the first whose outcome breaks it, or all of them; it breaks on everything but a step-scoped stop |
| SyncRules.ReachedAt | src/Sync.php:139-161 | where the loop stops, read off from its progress: right after the first breaking outcome, or at the end |
| SyncRules.StepCallsListed | src/Sync.php:109-161 | one pass calls the three setters, `onBeforeLogStart`, `logStart`, `onBeforeLogStart`, `perform`, then the finish with its hooks; the same ten calls each step records in its own call log |
| SyncRules.PassOnCallLog | src/Sync.php:109-161 | a step's call log that grew by the start calls, `perform` and the finish with its hooks grew by exactly one pass of the loop body |
| SyncRules.RunCallsLayout | src/Sync.php:108-164 | the calls of a run are those of each step reached, one after the other, ten per step |
| SyncRules.RunCallsStayWithinReach | src/Sync.php:108-164 | no step after the last one reached is called at all, and `onAfterLogStart` never is |
| SyncRules.LogFinishOncePerStep | src/Sync.php:139-161 | every step reached is finished exactly once, right after its single `perform`, and no other step is |
| SyncRules.BeforeLogStartTwicePerStep | src/Sync.php:114-116 | every step reached gets `onBeforeLogStart` exactly twice, just before and just after its single `logStart` |
| SyncRules.SharedAfterStep | src/Sync.php:108-112 | each step's writes land on what the earlier steps left in the one shared array |
| SyncRules.WriteVisibleLater | src/Sync.php:108-112 | a value written by a step is what every later step sees under that key, until a step in between writes the key again |
| SyncRules.StopLabelOf | src/Sync.php:121-127 | "failed" exactly for status failed, "skipped" exactly for skipped, successful for no status or finished |
| SyncRules.HandlerRecords | src/Sync.php:118-159 | nothing is logged for a normal return; otherwise one record, an alert exactly for an exception or error that is not a stop: a step stop at info with its label and message, a sync stop at info with its message, an exception or an error at alert with its class and message |
| RunLog.PriorAtPrefix | src/Sync.php:108-162 | the status a step has once the first `k` runs are over does not depend on the runs after them |
| RunLog.PriorOfUntouched | src/Sync.php:108-162 | a step object none of the first `k` runs touched still has the status it had when the loop began |
| RunLog.PriorOfLastRun | src/Sync.php:108-162 | a step object whose last run before `k` was at position `m` has the status that run ended in |
| RunLog.FinalStatuses | src/Sync.php:108-164 | once the loop has reached `k` steps, a step object none of them is ends in the status it had before the loop, and step `j` among them that no later reached step repeats ends in the status its own run ended in |
| RunLog.StatusesAfterRun | src/Sync.php:108-162 | once step `i` ends its run, every later position holding the same object takes the status that run ended in, and the others keep theirs: the status at every position stays the one `PriorAt` gives |
| RunLog.RanAt | src/Sync.php:108-164 | each step reached started from the status `PriorAt` gives it (the status the loop began with, or the one its last earlier run on the same object left), found the data of all earlier steps, ended in the status its `perform` leads to, and logged its start lines, its catch-clause record and its finish lines under its own name; its finish block is the one `FinishFor` gives for its position |
| RunLog.RanExtend | src/Sync.php:108-164 | a run of the next step, appended to the runs of the steps before it, gives the runs of one more step |
| RunLog.FinishCountsOwnQueries | src/Step.php:250-266 | a finish block reports the time the step's `perform` took; when a query log is enabled, recording and empty at the step's start, its statistics are those of the step's own queries and count every one of them |
| RunLog.FinishOfStep | src/Step.php:250-266 | the block `logFinish` makes from the clock, the flags and the query logs of the step in its loop position is `FinishFor` of that position, whatever a disabled log holds |
| Orchestration.CleanUpReachesLock | src/Sync.php:188-195 | with the clean-up on and the lock in the log directory, the lock survives the clean-up exactly when it is younger than the period; a lock elsewhere survives |
| Orchestration.FirstUnknown | src/Sync.php:578-582 | the first class name the registry does not know, all earlier ones known; none exactly when all are known |
| Orchestration.PrepareVerdictCases | src/Sync.php:96-102 | the preparation succeeds exactly when the directory check passes, the lock does not refuse the run, every class is known and the steps are valid; it fails with an unreadable directory, as already running, on an unknown class (naming the first) or on invalid steps (with the validation error) exactly when the earlier checks pass and that check fails |
| Orchestration.ProfiledStepsCountOwnQueries | src/Sync.php:505-520 | with profiling on, every step's Bitrix statistics are those of its own queries alone, the tracker having restarted empty; with the Illuminate layer in use, so are the Illuminate statistics of every step after the first (that log is not emptied when profiling starts) |
| Orchestration.NewSync | src/Sync.php:58-89 | refused exactly when the name does not match; otherwise a new sync with the lock and log paths under `logs/syncs/<name>`, the default configuration, and its log directory existing |
| Orchestration.Sync.constructor | src/Sync.php:64-89 | name, log directory, log and lock files, default configuration, no steps, empty shared data and log; the directory is created if missing |
| Orchestration.Sync.SetSteps | src/Sync.php:224-229 | the steps are replaced |
| Orchestration.Sync.SetEnv | src/Sync.php:237-242 | only the environment entry changes |
| Orchestration.Sync.SetSharedData | src/Sync.php:250-255 | the data the steps start from is replaced |
| Orchestration.Sync.SendOutputToEcho | src/Sync.php:291-296 | only the echo entry changes, to the value given (true by default) |
| Orchestration.Sync.AllowOverlapping | src/Sync.php:322-327 | only the overlap entry changes, to true |
| Orchestration.Sync.SetOverlapping | src/Sync.php:335-340 | only the overlap entry changes, to the value given |
| Orchestration.Sync.ProfileSql | src/Sync.php:346-351 | only the profiling entry changes, to the value given (true by default) |
| Orchestration.Sync.EmailErrorsTo | src/Sync.php:361-364 | the same as `emailAlertsTo`; the level is ignored |
| Orchestration.Sync.EmailAlertsTo | src/Sync.php:372-377 | only the alert recipients change, stored as given |
| Orchestration.Sync.SendAlertsToTelegram | src/Sync.php:395-400 | only the Telegram entry changes, to the triple bot, channel, proxy |
| Orchestration.Sync.EmailFinalLogTo | src/Sync.php:408-413 | only the final-log recipients change; a single value becomes a one-element list |
| Orchestration.Sync.CleanOldLogs | src/Sync.php:421-426 | only the retention entry changes, to the `(int)` of the value (30 by default) |
| Orchestration.Sync.SetLogDir | src/Sync.php:434-439 | the directory the clean-up walks changes; the lock and log paths do not |
| Orchestration.Sync.ApplyConfiguration | src/Sync.php:188-196 | with a non-zero period and a missing directory it fails and changes nothing; otherwise the log directory holds exactly the files `Retained` keeps |
| Orchestration.Sync.PreventOverlapping | src/Sync.php:533-571 | when overlapping is allowed nothing is read or changed; an existing lock logs an alert and aborts, creating nothing; otherwise the lock exists afterwards and its removal is registered |
| Orchestration.Sync.NormalizeSteps | src/Sync.php:576-584 | length and positions are kept, each class name becomes a new instance of the class it resolves to, carrying that class's declared name (or a foreign object of that class), other entries are untouched; an unknown class stops it there; on success every entry's status is as before (a new step has none) |
| Orchestration.Sync.ValidateSteps | src/Sync.php:589-610 | returns exactly the error the validation rules give, changing nothing |
| Orchestration.Sync.CollectStepNames | src/Sync.php:591-597 | fails exactly when an element is not a step, with the error naming the first; otherwise the class names in order |
| Orchestration.Sync.CheckDependencies | src/Sync.php:599-609 | the first dependency error over all steps in order, or none |
| Orchestration.Sync.CheckStepDependencies | src/Sync.php:600-608 | the first dependency of one step that is missing or placed after it |
| Orchestration.Sync.DoProfileSql | src/Sync.php:505-520 | the tracker restarts empty and records; the Illuminate log and the step flag for it are switched on when that layer is in use, and otherwise stay as they were |
| Orchestration.Sync.ProfileIfConfigured | src/Sync.php:104-106 | profiling happens exactly when configured; what the loop then runs with is `ProfileAfter` of the state before it: the steps' Bitrix flag is the setting, and the tracker and Illuminate log are as `doProfileSql` leaves them |
| Orchestration.Sync.RunStep | src/Sync.php:109-161 | one pass of the loop on step `i`: the outcome is what its `perform` raises; it starts from the step's status and ends in the one its ending gives; it sees the data of the steps before it, adds its own writes, and logs exactly the `RunFor` records of position `i` (start lines, catch-clause record, the `FinishFor` block); the enabled SQL logs are left empty; the step's own call log grows by exactly `StepHooks` and the calls are those of `StepCallsListed`; every position holding that object takes the new status and no other status changes |
| Orchestration.Sync.StartStep | src/Sync.php:109-116 | the step gets the sync's logger, the SQL flags and the shared array itself, its start time is the clock, its start block is logged, and its call log grows by the setters and the hooks around `logStart` |
| Orchestration.Sync.PerformAndCatch | src/Sync.php:118-159 | the step's `perform` raises what its ending says, sets the status accordingly, writes into the shared array, sends its queries to the logs that record and takes its time; the catch clauses log exactly `HandlerRecords` of the outcome; only the positions holding that step change status |
| Orchestration.Sync.CatchOutcome | src/Sync.php:118-159 | the catch clauses log exactly `HandlerRecords` of the outcome with the step's status |
| Orchestration.Sync.FinishStep | src/Sync.php:139-161 | the finish with its hooks logs exactly the `FinishOf` block of the step's start time, the clock, its flags and the SQL logs as they stand, which is `FinishFor` of the step's loop position; the flagged logs are emptied and the finish hooks recorded |
| Orchestration.Sync.RunNext | src/Sync.php:108-162 | one turn of the loop on step `i`: its outcome is the `i`-th of `Outcomes`; the runs and calls grow by that step's, the run starting from the status `PriorAt` gives, the log by its records, the data by its writes; the status at every position stays the one `PriorAt` gives once `i + 1` runs are over (`StatusesAfterRun`); a breaking outcome means the loop reached exactly `i + 1` steps |
| Orchestration.Sync.RunSteps | src/Sync.php:108-164 | the loop reaches exactly `Reached` steps and makes exactly their calls; the run of each is `RunFor` of its position under the profile the loop runs with, from the status `PriorAt` gives it given the statuses the steps had when the loop began, seeing the data of the steps before it; their records are logged in order; every step ends in the status `PriorAt` gives once all the reached runs are over (`FinalStatuses`: the status of the last run on that object, or its status before the loop) |
| Orchestration.Sync.LogClosing | src/Sync.php:166-173 | a separator, the end line and the time since the start of `perform` |
| Orchestration.Sync.DoEmailFinalLog | src/Sync.php:615-633 | exactly the mail `FinalLogMail` gives is sent, if any |
| Orchestration.Sync.AdjustPhpSettings | src/Sync.php:488-498 | `SET wait_timeout=28800` is sent to the Bitrix connection, and to the Illuminate one when that layer is in use; each lands in that connection's query log exactly when the log records |
| Orchestration.Sync.Prepare | src/Sync.php:96-102 | the failure is exactly `PrepareVerdict` of the settings, the directories and the steps (see `PrepareVerdictCases`); as already running, the start line and the alert are logged; after an unknown class, invalid steps or success, only the start line is logged and, unless overlapping is allowed, the lock exists and is registered for removal; past the clean-up the session query is in the logs that record; on success the step objects are the old ones or new and every entry's status is as before |
| Orchestration.Sync.Begin | src/Sync.php:97-102 | past the clean-up: the start line is logged, the session query sent, and the outcome is `StartVerdict` of the lock, the steps and the validation, with the logs and the lock `Prepare` states |
| Orchestration.Sync.Admit | src/Sync.php:100-102 | the overlap guard, normalisation and validation: the outcome is `StartVerdict`; only an alert for an existing lock is logged; on success the step objects are the old ones or new and every entry's status is as before |
| Orchestration.Sync.Perform | src/Sync.php:94-176 | aborted with an unreadable directory, as already running, on an unknown class (naming it) or on invalid steps (with the error) each exactly when the preparation fails that way, and completed exactly when it passes; an aborted run calls no step, sends no mail and leaves the data; as already running the start line and the alert are logged; after an unknown class or invalid steps only the start line is, and unless overlapping is allowed the lock exists and is registered for removal; a completed run is `Executed` under the profile `ProfileAfter` gives (with the session query in the logs that record), each run starting from the status `PriorAt` gives from the statuses the steps had before `perform`, every step ending in the status `PriorAt` gives after the last run, keeps the lock registered and sends the final-log mail; an aborted run leaves every step's call log as it was |
| Orchestration.Sync.PrepareAndExecute | src/Sync.php:94-176 | `perform` with its outcome stated as `PrepareVerdict`: aborted exactly when the verdict is a failure, with that failure, and with the same logs, lock, mail, step call logs, prior and final statuses as `Perform` states |
| Orchestration.Sync.Complete | src/Sync.php:104-175 | the run after a successful preparation completes as `Executed` says, each run starting from the status `PriorAt` gives from the statuses the steps have at the call and every step ending in the status `PriorAt` gives after the last run, sends the final-log mail, and leaves the lock as the preparation left it |
| Orchestration.Sync.Execute | src/Sync.php:104-175 | profiling when configured, then the loop with the profile `ProfileAfter` gives and the statuses the steps have at the call, the steps ending in the statuses `PriorAt` gives after the last run, the closing lines with the time since `startTime`, and the final mail, as `Executed` and `FinalLogMail` say |

## Left out

- Monolog is not modelled. The log is the list of records handed to the logger, and messages are structured events rather than formatted strings. Left out with it:
  - the handlers and formatters (`src/Sync.php:71-75`, `183-186`, `210-213`, `264-283`, `301-315`);
  - the alert-by-mail handler and `getAlertTitle`;
  - how records reach the log file. The contents that `doEmailFinalLog` reads are whatever the host holds for that file.
- Telegram (`src/Telegram/`) is an HTTP call with a formatter built on `gethostname` and `json_encode`. It is outside the model.
- `src/Config.php` is not part of this model. The user settings it returns are a constructor parameter.
- `adjustPhpSettings` (`src/Sync.php:488-498`): the timeout it sets is not modelled, only the query it sends (`Sync.AdjustPhpSettings`).
- The `pcntl` signal handlers (`src/Sync.php:555-570`) are process and signal concurrency. Only the lock removal registered for shutdown is modelled.
- The exceptions' file and line context, and the class name of a non-step in the "not an instance" message, are not modelled beyond the class the error names.
- Times and query times are reals. PHP float rounding and the formatting of numbers in messages are not modelled.
- `(int)` of a string is modelled as PHP 7 decimal parsing. Exponent notation, floats and 64-bit overflow are not.
- The steps array is a list whose entries are class names, step objects or other objects. Scalars other than strings, and non-list keys, are not modelled.
- `in_array` and `array_search` compare loosely in PHP. Class names are compared as strings here.
- The clean-up's directory holds files only. `FilesystemIterator` would also list subdirectories, on which `unlink` fails.
- The clean-up also does not see this run's own log file, which Monolog creates on first write.
- Orchestration.NewSync: the constructor's `LogicException` for a bad name is a `null` result.
- Orchestration.Sync.Perform: requires the lock file's directory to exist. The constructor creates it, and nothing in the model removes it. `fopen` on a missing directory is not modelled.
- Orchestration.Sync.Perform: on a completed run, the directories are stated only as far as the lock goes. The clean-up's effect is stated by `ApplyConfiguration`.
- StepLifecycle.Step.Perform: a step's `perform` is a fixed `Action` rather than arbitrary code. A step whose `perform` changes the step's own fields, calls other steps or logs through the logger it was given is not covered; the exact-records statements (`Logged`, `RunStep`, `RunFor`) assume a `perform` that logs nothing.
- Orchestration.Sync.RunSteps: does not state that the steps after the one that ends the loop are left untouched. Its frame is every step object. What is stated is that each step reached records exactly one pass in its own call log (`RunStep`) and that the run's calls stop at the last step reached (`RunCallsStayWithinReach`). A frame over the later step objects was not proved.
- StepLifecycle.Step.OnBeforeLogStart, OnAfterLogStart, OnBeforeLogFinish, OnAfterLogFinish and LogStart are modelled as the base class defines them: the hooks do nothing and `logStart` logs the start block. They are public extension points (`src/Step.php:159-163`). An override that throws does so outside the `try` (`src/Sync.php:114-116`, `139-161`), so the exception would escape `perform` with no closing lines and no final mail. Such overrides are not modelled.
- Memory readings and `time()` are fixed for a run. The model reads the same current and peak memory for every step's finish block.
- `getStatus` has no contract of its own. The catch clauses read the status directly (`CatchOutcome`).
- `sendOutputToSymfonyConsoleOutput`, `getLogger` and `pushLogHandler` only wire Monolog handlers.
