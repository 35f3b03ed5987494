/**
 * The synchronisation itself (src/Sync.php): built from a checked name, configured
 * through setters, then `perform` cleans old logs, guards against an overlapping
 * run, instantiates and validates the steps, runs them one after the other with a
 * shared logger and shared data, and finally logs the totals and mails the log.
 */
module Orchestration {
  import opened PhpValues
  import opened Instrumentation
  import opened Logging
  import opened Platform
  import opened StepLifecycle
  import opened SyncRules
  import opened RunLog

  /** An exception that escapes `perform` before the steps run. */
  datatype Failure =
    | LogDirUnreadable(dir: string)
    | AlreadyRunning(env: string, lockPath: string)
    | ClassNotFound(cls: string)
    | InvalidSteps(error: ValidationError)

  datatype RunResult = Completed(reached: nat) | Aborted(failure: Failure)

  function StepObjects(steps: seq<Entry>): set<Step> {
    set i | 0 <= i < |steps| && steps[i].Instance? :: steps[i].step
  }

  /** The status of each entry: a step's own, `Unset` for a class name still to instantiate or another object. */
  function EntryStatuses(steps: seq<Entry>): (r: seq<Status>)
    reads StepObjects(steps)
    ensures |r| == |steps|
  {
    seq(|steps|, i requires 0 <= i < |steps| reads StepObjects(steps) =>
      if steps[i].Instance? then steps[i].step.status else Unset)
  }

  /** A change that leaves every step's status alone leaves the statuses alone. */
  twostate lemma StatusesFramed(steps: seq<Entry>)
    requires forall s | s in StepObjects(steps) :: s.status == old(s.status)
    ensures EntryStatuses(steps) == old(EntryStatuses(steps))
  {
  }

  /** The files of `files` still there once the clean-up has looked at every file but `pending`. */
  function Pruned(files: map<string, FileInfo>, pending: set<string>, now: int, days: int): map<string, FileInfo> {
    map f | f in files && (f in pending || !Expired(now, files[f].mtime, days)) :: files[f]
  }

  /** The directories once the clean-up has run on `logDir` with period `days`; a period of 0 or a missing directory leaves them alone. */
  function CleanedUp(dirs: map<string, map<string, FileInfo>>, logDir: string, now: int, days: int): map<string, map<string, FileInfo>> {
    if days != 0 && logDir in dirs then dirs[logDir := Retained(dirs[logDir], now, days)] else dirs
  }

  /**
   * Whether the overlap guard refuses to run: the clean-up did not fail, overlapping is
   * not allowed, and the lock file is still there once the clean-up has run.
   */
  predicate LockRefused(config: Config, logDir: string, lockFile: FilePath, dirs: map<string, map<string, FileInfo>>, now: int) {
    && !(config.cleanOldLogs != 0 && logDir !in dirs)
    && !Truthy(config.allowOverlapping)
    && Present(CleanedUp(dirs, logDir, now, config.cleanOldLogs), lockFile)
  }

  /**
   * The clean-up runs before the overlap guard, in the same directory unless the log
   * directory was moved: a lock file at least `days` days old is deleted before the
   * guard looks for it, and a younger one survives.
   */
  lemma CleanUpReachesLock(dirs: map<string, map<string, FileInfo>>, logDir: string, now: int, days: int, lock: FilePath)
    requires Present(dirs, lock) && days != 0
    ensures lock.dir == logDir ==>
      (Present(CleanedUp(dirs, logDir, now, days), lock) <==> !Expired(now, dirs[logDir][lock.file].mtime, days))
    ensures lock.dir != logDir ==> Present(CleanedUp(dirs, logDir, now, days), lock)
  {
  }

  /** Whether the clean-up and the overlap guard let the run go on. */
  predicate PassesGuards(config: Config, logDir: string, lockFile: FilePath, dirs: map<string, map<string, FileInfo>>, now: int) {
    && !(config.cleanOldLogs != 0 && logDir !in dirs)
    && !LockRefused(config, logDir, lockFile, dirs, now)
  }

  /**
   * What escapes the part of `perform` before the loop, checked in the order the code
   * runs: the clean-up of a missing directory, the overlap guard, an unknown class, and
   * the validation of the normalised steps, whose verdict is `validation`.
   */
  function PrepareVerdict(config: Config, logDir: string, lockFile: FilePath, dirs: map<string, map<string, FileInfo>>, now: int,
                          steps: seq<Entry>, registry: map<string, ClassDecl>, validation: Option<ValidationError>): Option<Failure>
  {
    if config.cleanOldLogs != 0 && logDir !in dirs then Some(LogDirUnreadable(logDir))
    else StartVerdict(config, lockFile, Present(CleanedUp(dirs, logDir, now, config.cleanOldLogs), lockFile), steps, registry, validation)
  }

  /**
   * What escapes the preparation once the clean-up passed: the overlap guard, which
   * refuses when `lockPresent`, then an unknown class, then the validation.
   */
  function StartVerdict(config: Config, lockFile: FilePath, lockPresent: bool, steps: seq<Entry>, registry: map<string, ClassDecl>,
                        validation: Option<ValidationError>): Option<Failure>
  {
    if !Truthy(config.allowOverlapping) && lockPresent then Some(AlreadyRunning(ToStr(config.env), lockFile.Str()))
    else match FirstUnknown(steps, registry)
      case Some(k) => Some(ClassNotFound(steps[k].cls))
      case None => if validation.Some? then Some(InvalidSteps(validation.value)) else None
  }

  /**
   * Each way the preparation can end, characterised: it lets the run go on exactly when
   * the guards pass, every class is known and the steps are valid; otherwise the first
   * check that fails names the failure.
   */
  lemma PrepareVerdictCases(config: Config, logDir: string, lockFile: FilePath, dirs: map<string, map<string, FileInfo>>, now: int,
                            steps: seq<Entry>, registry: map<string, ClassDecl>, validation: Option<ValidationError>)
    ensures var v := PrepareVerdict(config, logDir, lockFile, dirs, now, steps, registry, validation);
      && (v.None? <==> PassesGuards(config, logDir, lockFile, dirs, now) && FirstUnknown(steps, registry).None? && validation.None?)
      && (v == Some(LogDirUnreadable(logDir)) <==> config.cleanOldLogs != 0 && logDir !in dirs)
      && (v == Some(AlreadyRunning(ToStr(config.env), lockFile.Str())) <==> LockRefused(config, logDir, lockFile, dirs, now))
      && (v.Some? && v.value.ClassNotFound? <==> PassesGuards(config, logDir, lockFile, dirs, now) && FirstUnknown(steps, registry).Some?)
      && (v.Some? && v.value.ClassNotFound? ==> v.value.cls == steps[FirstUnknown(steps, registry).value].cls)
      && (v.Some? && v.value.InvalidSteps? <==>
            PassesGuards(config, logDir, lockFile, dirs, now) && FirstUnknown(steps, registry).None? && validation.Some?)
      && (v.Some? && v.value.InvalidSteps? ==> v.value.error == validation.value)
  {
  }

  /**
   * What the loop runs with once SQL profiling was set up (or not): steps get the Bitrix
   * flag exactly when profiling is on; profiling restarts the tracker empty and, when
   * the Illuminate layer is in use, switches its query log and the Illuminate flag on,
   * without emptying that log.
   */
  function ProfileAfter(profile: bool, illuminateOn: bool, inUse: bool, tracking: bool, bitrixLog: seq<Query>,
                        logging: bool, illuminateLog: seq<Query>, usage: nat, peak: nat): Profile
  {
    Profile(profile, illuminateOn || (profile && inUse), tracking || profile, logging || (profile && inUse),
      if profile then [] else bitrixLog, illuminateLog, usage, peak)
  }

  /**
   * With profiling on, the Bitrix statistics of every step are those of its own queries
   * alone; and when the Illuminate layer is in use, so are the Illuminate statistics of
   * every step after the first, whose statistics also count what that log held before.
   */
  lemma ProfiledStepsCountOwnQueries(illuminateOn: bool, inUse: bool, tracking: bool, bitrixLog: seq<Query>,
                                     logging: bool, illuminateLog: seq<Query>, usage: nat, peak: nat, step: Step, n: nat)
    ensures var sql := FinishFor(ProfileAfter(true, illuminateOn, inUse, tracking, bitrixLog, logging, illuminateLog, usage, peak), step, n).sql;
      |sql| > 0 && sql[0] == Statistics(BitrixTracker, BitrixVerbs(step.action.bitrixQueries), TrackerTimes(step.action.bitrixQueries))
    ensures inUse && n > 0 ==>
      var sql := FinishFor(ProfileAfter(true, illuminateOn, inUse, tracking, bitrixLog, logging, illuminateLog, usage, peak), step, n).sql;
      |sql| > 0 && sql[|sql| - 1] == Statistics(IlluminateQueryLog, IlluminateVerbs(step.action.ormQueries), MillisecondsAsSeconds(step.action.ormQueries))
  {
    FinishCountsOwnQueries(ProfileAfter(true, illuminateOn, inUse, tracking, bitrixLog, logging, illuminateLog, usage, peak), step, n);
  }

  /** The statement `adjustPhpSettings` runs on each connection it touches. */
  const WaitTimeoutSql := "SET wait_timeout=28800"

  /**
   * A query log after `adjustPhpSettings`: the statement, taking `time`, reaches it when
   * its connection is touched and the log records.
   */
  function AfterSessionSetup(log: seq<Query>, touched: bool, recording: bool, time: real): seq<Query> {
    if touched && recording then log + [Query(WaitTimeoutSql, time)] else log
  }

  /**
   * Whether normalisation turned entry `before` into `after`: a class name becomes a new
   * instance of the class it resolves to, which carries that class's declared name.
   */
  predicate Instantiates(before: Entry, after: Entry, registry: map<string, ClassDecl>) {
    if before.ClassName? && before.cls in registry then
      match registry[before.cls]
      case OtherClass(c) => after == Foreign(c)
      case StepClass(c, n, d, a) =>
        after.Instance? && after.step.className == c
        && after.step.name == n && after.step.dependsOn == d && after.step.action == a
    else after == before
  }

  /** The first class name the registry does not know. */
  function FirstUnknown(steps: seq<Entry>, registry: map<string, ClassDecl>): (r: Option<nat>)
    ensures r.None? <==> forall i :: 0 <= i < |steps| && steps[i].ClassName? ==> steps[i].cls in registry
    ensures r.Some? ==> r.value < |steps| && steps[r.value].ClassName? && steps[r.value].cls !in registry
    ensures r.Some? ==> forall i :: 0 <= i < r.value && steps[i].ClassName? ==> steps[i].cls in registry
  {
    if steps == [] then None
    else if steps[0].ClassName? && steps[0].cls !in registry then Some(0)
    else match FirstUnknown(steps[1..], registry)
      case None => None
      case Some(k) => Some(k + 1)
  }

  function MailsOf(m: Option<Mail>): seq<Mail> {
    if m.Some? then [m.value] else []
  }

  class Sync {
    const name: string
    /** The directory the clean-up walks; `setLogDir` moves it but not the lock or log file. */
    var logDir: string
    const logFile: FilePath
    const lockFile: FilePath
    var config: Config
    var steps: seq<Entry>
    var sqlLogsIlluminate: bool
    const sharedData: SharedData
    const logger: Logger

    /** The constructor proper; `NewSync` performs the name check that precedes it. */
    constructor (name: string, logsRoot: string, stamp: string, user: map<string, PhpValue>, defaultEnv: string, host: Host)
      requires MatchesName(name)
      modifies host`dirs
      ensures this.name == name && logDir == SyncLogDir(logsRoot, name)
      ensures logFile == LogFilePath(logDir, stamp) && lockFile == LockPath(logDir, name)
      ensures config == DefaultConfig(user, defaultEnv)
      ensures steps == [] && !sqlLogsIlluminate
      ensures fresh(sharedData) && sharedData.data == map[]
      ensures fresh(logger) && logger.records == []
      ensures host.dirs == if logDir in old(host.dirs) then old(host.dirs) else old(host.dirs)[logDir := map[]]
    {
      var dir := SyncLogDir(logsRoot, name);
      this.name := name;
      logDir := dir;
      logFile := LogFilePath(dir, stamp);
      lockFile := LockPath(dir, name);
      config := DefaultConfig(user, defaultEnv);
      steps := [];
      sqlLogsIlluminate := false;
      sharedData := new SharedData(map[]);
      logger := new Logger();
      new;
      host.MakeDirectory(dir);
    }

    method SetSteps(steps: seq<Entry>)
      modifies this`steps
      ensures this.steps == steps
    {
      this.steps := steps;
    }

    method SetEnv(env: PhpValue)
      modifies this`config
      ensures config == old(config).(env := env)
    {
      config := config.(env := env);
    }

    /** Replaces the data the steps start from. */
    method SetSharedData(data: map<string, PhpValue>)
      modifies sharedData`data
      ensures sharedData.data == data
    {
      sharedData.data := data;
    }

    method SendOutputToEcho(value: PhpValue := Bool(true))
      modifies this`config
      ensures config == old(config).(sendOutputToEcho := value)
    {
      config := config.(sendOutputToEcho := value);
    }

    method AllowOverlapping()
      modifies this`config
      ensures config == old(config).(allowOverlapping := Bool(true))
    {
      config := config.(allowOverlapping := Bool(true));
    }

    method SetOverlapping(value: PhpValue)
      modifies this`config
      ensures config == old(config).(allowOverlapping := value)
    {
      config := config.(allowOverlapping := value);
    }

    method ProfileSql(value: PhpValue := Bool(true))
      modifies this`config
      ensures config == old(config).(profileSql := value)
    {
      config := config.(profileSql := value);
    }

    /** The deprecated name of `EmailAlertsTo`; its level argument is ignored. */
    method EmailErrorsTo(emails: PhpValue)
      modifies this`config
      ensures config == old(config).(emailAlertsTo := emails)
    {
      EmailAlertsTo(emails);
    }

    method EmailAlertsTo(emails: PhpValue)
      modifies this`config
      ensures config == old(config).(emailAlertsTo := emails)
    {
      config := config.(emailAlertsTo := emails);
    }

    method SendAlertsToTelegram(bot: PhpValue, channel: PhpValue, proxy: PhpValue := Null)
      modifies this`config
      ensures config == old(config).(sendAlertsToTelegram := [bot, channel, proxy])
    {
      config := config.(sendAlertsToTelegram := [bot, channel, proxy]);
    }

    /** A single address becomes a one-element list. */
    method EmailFinalLogTo(emails: PhpValue)
      modifies this`config
      ensures config == old(config).(emailFinalLogTo := ToList(emails))
    {
      config := config.(emailFinalLogTo := ToList(emails));
    }

    method CleanOldLogs(days: PhpValue := Int(30))
      modifies this`config
      ensures config == old(config).(cleanOldLogs := ToInt(days))
    {
      config := config.(cleanOldLogs := ToInt(days));
    }

    method SetLogDir(dir: string)
      modifies this`logDir
      ensures logDir == dir
    {
      logDir := dir;
    }

    /**
     * The log clean-up of `applyConfiguration`: with a non-zero period, every file of
     * the log directory old enough is deleted, the others kept. Listing a missing
     * directory throws.
     */
    method ApplyConfiguration(host: Host) returns (failure: Option<Failure>)
      modifies host`dirs
      ensures failure.Some? <==> config.cleanOldLogs != 0 && logDir !in old(host.dirs)
      ensures failure.Some? ==> failure.value == LogDirUnreadable(logDir) && host.dirs == old(host.dirs)
      ensures failure.None? ==> host.dirs == CleanedUp(old(host.dirs), logDir, host.unixTime, config.cleanOldLogs)
    {
      failure := None;
      var days := config.cleanOldLogs;
      if days != 0 {
        if logDir !in host.dirs {
          return Some(LogDirUnreadable(logDir));
        }
        var now := host.unixTime;
        var files := host.dirs[logDir];
        var pending := files.Keys;
        assert Pruned(files, pending, now, days) == files;
        while pending != {}
          invariant pending <= files.Keys
          invariant host.dirs == old(host.dirs)[logDir := Pruned(files, pending, now, days)]
          decreases pending
        {
          var f :| f in pending;
          if Expired(now, files[f].mtime, days) {
            host.Unlink(FilePath(logDir, f));
            assert Pruned(files, pending, now, days) - {f} == Pruned(files, pending - {f}, now, days);
          } else {
            assert Pruned(files, pending, now, days) == Pruned(files, pending - {f}, now, days);
          }
          pending := pending - {f};
        }
        assert Pruned(files, {}, now, days) == Retained(files, now, days);
      }
    }

    /**
     * The overlap guard: bypassed when overlapping is allowed; otherwise an existing
     * lock aborts the run with an alert, and a missing one is created and its removal
     * registered for shutdown.
     */
    method PreventOverlapping(host: Host) returns (failure: Option<Failure>)
      requires lockFile.dir in host.dirs
      modifies host`dirs, host`shutdownUnlinks, logger`records
      ensures Truthy(config.allowOverlapping) ==>
        failure == None && host.dirs == old(host.dirs) && host.shutdownUnlinks == old(host.shutdownUnlinks)
        && logger.records == old(logger.records)
      ensures !Truthy(config.allowOverlapping) && old(host.Exists(lockFile)) ==>
        failure == Some(AlreadyRunning(ToStr(config.env), lockFile.Str()))
        && host.dirs == old(host.dirs) && host.shutdownUnlinks == old(host.shutdownUnlinks)
        && logger.records == old(logger.records) + [Record(Alert, LockExists(ToStr(config.env), lockFile.Str()))]
      ensures !Truthy(config.allowOverlapping) && !old(host.Exists(lockFile)) ==>
        failure == None && host.Exists(lockFile)
        && host.dirs == old(host.dirs)[lockFile.dir := old(host.dirs)[lockFile.dir][lockFile.file := FileInfo(host.unixTime, "")]]
        && host.shutdownUnlinks == old(host.shutdownUnlinks) + [lockFile] && logger.records == old(logger.records)
    {
      if Truthy(config.allowOverlapping) {
        return None;
      }
      if host.Exists(lockFile) {
        logger.Log(Alert, LockExists(ToStr(config.env), lockFile.Str()));
        return Some(AlreadyRunning(ToStr(config.env), lockFile.Str()));
      }
      var created := host.CreateEmptyFile(lockFile);
      host.RegisterShutdownUnlink(lockFile);
      failure := None;
    }

    /**
     * Replaces each class name by a new instance of that class, in place, leaving the
     * other entries alone; an unknown class stops it there.
     */
    method NormalizeSteps(registry: map<string, ClassDecl>) returns (failure: Option<Failure>)
      modifies this`steps
      ensures |steps| == |old(steps)|
      ensures failure == match FirstUnknown(old(steps), registry)
        case None => None
        case Some(k) => Some(ClassNotFound(old(steps)[k].cls))
      ensures forall i :: 0 <= i < |steps| ==>
        if FirstUnknown(old(steps), registry).Some? && i >= FirstUnknown(old(steps), registry).value
        then steps[i] == old(steps)[i]
        else Instantiates(old(steps)[i], steps[i], registry)
      ensures forall i :: 0 <= i < |steps| && steps[i] != old(steps)[i] && steps[i].Instance? ==>
        fresh(steps[i].step) && steps[i].step.status == Unset && steps[i].step.logger == null
      ensures failure.None? ==> EntryStatuses(steps) == old(EntryStatuses(steps))
    {
      ghost var original := steps;
      var i := 0;
      while i < |steps|
        invariant 0 <= i <= |steps| == |original|
        invariant forall j :: 0 <= j < i && original[j].ClassName? ==> original[j].cls in registry
        invariant forall j :: 0 <= j < i ==> Instantiates(original[j], steps[j], registry)
        invariant forall j :: i <= j < |steps| ==> steps[j] == original[j]
        invariant forall j :: 0 <= j < |steps| && steps[j] != original[j] && steps[j].Instance? ==>
          fresh(steps[j].step) && steps[j].step.status == Unset && steps[j].step.logger == null
      {
        if steps[i].ClassName? {
          var cls := steps[i].cls;
          if cls !in registry {
            return Some(ClassNotFound(cls));
          }
          match registry[cls] {
            case OtherClass(c) =>
              steps := steps[i := Foreign(c)];
            case StepClass(c, n, d, a) =>
              var s := new Step(c, n, d, a);
              steps := steps[i := Instance(s)];
          }
        }
        i := i + 1;
      }
      failure := None;
      forall j | 0 <= j < |steps|
        ensures EntryStatuses(steps)[j] == old(EntryStatuses(steps))[j]
      {
        if steps[j].Instance? && steps[j] == original[j] {
          assert steps[j].step in StepObjects(steps);
        }
      }
    }

    /** `validateSteps`: its two loops in turn; nothing is changed. */
    method ValidateSteps() returns (error: Option<ValidationError>)
      ensures error == Validation(steps)
    {
      var names;
      names, error := CollectStepNames();
      if error.None? {
        error := CheckDependencies(names);
      }
    }

    /** The first loop of `validateSteps`: every element must be a step; their class names are collected. */
    method CollectStepNames() returns (names: seq<string>, error: Option<ValidationError>)
      ensures error.None? <==> AllSteps(steps)
      ensures error.Some? ==> error == Validation(steps)
      ensures error.None? ==> names == Names(steps)
    {
      names := [];
      var i := 0;
      while i < |steps|
        invariant 0 <= i <= |steps|
        invariant AllSteps(steps[..i]) && names == Names(steps[..i])
      {
        if !steps[i].Instance? {
          assert FirstNonStep(steps) == Some(i);
          return names, Some(NotAStep(ClassOf(steps[i])));
        }
        assert steps[..i + 1] == steps[..i] + [steps[i]];
        names := names + [steps[i].step.className];
        i := i + 1;
      }
      assert steps[..i] == steps;
      error := None;
    }

    /** The second loop of `validateSteps`: each step's dependencies, in order. */
    method CheckDependencies(names: seq<string>) returns (error: Option<ValidationError>)
      requires AllSteps(steps) && names == Names(steps)
      ensures error == OrderError(steps, 0)
    {
      var i := 0;
      while i < |steps|
        invariant 0 <= i <= |steps|
        invariant OrderError(steps, i) == OrderError(steps, 0)
      {
        var s := steps[i].step;
        error := CheckStepDependencies(names, i, s.className, s.dependsOn);
        if error.Some? {
          return;
        }
        i := i + 1;
      }
      error := None;
    }

    /** The inner loop: the first dependency of step `i` that is missing or placed after it. */
    static method CheckStepDependencies(names: seq<string>, i: nat, cls: string, dependsOn: seq<string>)
      returns (error: Option<ValidationError>)
      ensures error == DependencyError(names, i, cls, dependsOn)
    {
      var j := 0;
      while j < |dependsOn|
        invariant 0 <= j <= |dependsOn|
        invariant DependencyError(names, i, cls, dependsOn[j..]) == DependencyError(names, i, cls, dependsOn)
      {
        var depends := dependsOn[j];
        assert dependsOn[j..][1..] == dependsOn[j + 1..];
        if depends !in names {
          return Some(MissingDependency(depends, cls));
        }
        if IndexOf(names, depends).value > i {
          return Some(DependsOnLater(cls, depends));
        }
        j := j + 1;
      }
      error := None;
    }

    /** Starts the Bitrix tracker afresh and, when the Illuminate layer is in use, its query log. */
    method DoProfileSql(host: Host)
      modifies host`bitrixTracking, host`bitrixQueries, host`illuminateLogging, this`sqlLogsIlluminate
      ensures host.bitrixTracking && host.bitrixQueries == []
      ensures host.illuminateLogging == (old(host.illuminateLogging) || host.illuminateInUse)
      ensures sqlLogsIlluminate == (old(sqlLogsIlluminate) || host.illuminateInUse)
    {
      host.StartBitrixTracker();
      if host.illuminateInUse {
        host.EnableIlluminateLog();
        sqlLogsIlluminate := true;
      }
    }

    /**
     * SQL profiling when the configuration asks for it; `p` is what the run loop then
     * runs with.
     */
    method ProfileIfConfigured(host: Host) returns (ghost p: Profile)
      modifies host`bitrixTracking, host`bitrixQueries, host`illuminateLogging, this`sqlLogsIlluminate
      ensures p == ProfileAfter(Truthy(old(config).profileSql), old(sqlLogsIlluminate), host.illuminateInUse, old(host.bitrixTracking),
        old(host.bitrixQueries), old(host.illuminateLogging), old(host.illuminateLog), host.memoryUsage, host.peakMemoryUsage)
      ensures p == Profile(Truthy(config.profileSql), sqlLogsIlluminate, host.bitrixTracking, host.illuminateLogging,
        host.bitrixQueries, host.illuminateLog, host.memoryUsage, host.peakMemoryUsage)
    {
      p := ProfileAfter(Truthy(config.profileSql), sqlLogsIlluminate, host.illuminateInUse, host.bitrixTracking,
        host.bitrixQueries, host.illuminateLogging, host.illuminateLog, host.memoryUsage, host.peakMemoryUsage);
      if Truthy(config.profileSql) {
        DoProfileSql(host);
      }
    }

    /**
     * One pass of the run loop's body: the step is wired to the logger, the SQL flags
     * and the shared data, started, performed, its outcome caught and logged, and
     * finished. `p` is what the loop runs with; the SQL logs that are on hold what
     * the profiling left in them before the first step and nothing after it.
     */
    method RunStep(step: Step, host: Host, ghost init: map<string, PhpValue>, ghost i: nat, ghost p: Profile)
      returns (outcome: Option<Thrown>, ghost run: StepRun, ghost trace: seq<Call>)
      requires AllSteps(steps) && i < |steps| && steps[i].step == step
      requires sharedData.data == SharedAfter(init, Writes(steps)[..i])
      requires p.bitrixOn == Truthy(config.profileSql) && p.illuminateOn == sqlLogsIlluminate
      requires p.bitrixTracking == host.bitrixTracking && p.illuminateLogging == host.illuminateLogging
      requires p.usage == host.memoryUsage && p.peak == host.peakMemoryUsage
      requires p.bitrixOn ==> host.bitrixQueries == StartLog(p.bitrixStart, i)
      requires p.illuminateOn ==> host.illuminateLog == StartLog(p.illuminateStart, i)
      modifies step, logger`records, sharedData`data, host`bitrixQueries, host`illuminateLog, host`clock
      ensures outcome == Raised(step.action.ending)
      ensures run.seen == old(sharedData.data) && run.prior == old(step.status) && run.status == step.status
      ensures sharedData.data == SharedAfter(init, Writes(steps)[..i + 1])
      ensures logger.records == old(logger.records) + run.Records()
      ensures p.bitrixOn ==> host.bitrixQueries == []
      ensures p.illuminateOn ==> host.illuminateLog == []
      ensures RunOf(run, init, steps, i, p)
      ensures step.calls == old(step.calls) + StepHooks
      ensures trace == StepCalls(i)
      ensures EntryStatuses(steps) == Restatus(old(EntryStatuses(steps)), steps, step, step.status)
    {
      ghost var seen, prior, before, logged := sharedData.data, step.status, step.calls, logger.records;
      StartStep(step, host);
      ghost var start := host.clock;
      outcome := PerformAndCatch(step, host);
      ghost var finish := FinishStep(step, host, i, p, start);
      SharedAfterStep(init, Writes(steps), i);
      run := StepRun(seen, prior, step.status, step.GetName(), HandlerRecords(outcome, step.status), finish);
      AppendBlocks(logged, StartRecords(run.name), run.handled, finish.Records());
      PassOnCallLog(before, step.calls);
      trace := CallsOf(i, step.calls[|before|..]);
    }

    /** The step's `perform` and the catch clauses around it. */
    method PerformAndCatch(step: Step, host: Host) returns (outcome: Option<Thrown>)
      modifies step`status, step`calls, step.shared`data, logger`records, host`bitrixQueries, host`illuminateLog, host`clock
      ensures outcome == Raised(step.action.ending)
      ensures step.status == StatusAfter(step.action.ending, old(step.status))
      ensures step.shared.data == old(step.shared.data) + step.action.writes
      ensures host.bitrixQueries == old(host.bitrixQueries) + (if host.bitrixTracking then step.action.bitrixQueries else [])
      ensures host.illuminateLog == old(host.illuminateLog) + (if host.illuminateLogging then step.action.ormQueries else [])
      ensures host.clock == old(host.clock) + step.action.duration
      ensures logger.records == old(logger.records) + HandlerRecords(outcome, step.status)
      ensures step.calls == old(step.calls) + [PerformCall]
      ensures EntryStatuses(steps) == Restatus(old(EntryStatuses(steps)), steps, step, step.status)
    {
      outcome := step.Perform(host);
      CatchOutcome(step, outcome);
      forall j | 0 <= j < |steps|
        ensures EntryStatuses(steps)[j] == Restatus(old(EntryStatuses(steps)), steps, step, step.status)[j]
      {
      }
    }

    /** The wiring and start of a step: logger, SQL flags, shared data, hooks around `logStart`. */
    method StartStep(step: Step, host: Host)
      modifies step`logger, step`sqlLogsBitrix, step`sqlLogsIlluminate, step`shared, step`startTime, step`calls, logger`records
      ensures step.logger == logger && step.shared == sharedData
      ensures step.sqlLogsBitrix == Truthy(config.profileSql) && step.sqlLogsIlluminate == sqlLogsIlluminate
      ensures step.startTime == host.clock
      ensures logger.records == old(logger.records) + StartRecords(step.GetName())
      ensures step.calls == old(step.calls) + StartHooks
      ensures EntryStatuses(steps) == old(EntryStatuses(steps))
    {
      step.SetLogger(logger);
      step.SetSqlLoggingParams(Truthy(config.profileSql), sqlLogsIlluminate);
      step.SetSharedData(sharedData);
      step.OnBeforeLogStart();
      step.LogStart(host);
      step.OnBeforeLogStart();
      StatusesFramed(steps);
    }

    /** The catch clauses of the run loop: each outcome but a normal return is logged. */
    method CatchOutcome(step: Step, outcome: Option<Thrown>)
      modifies logger`records
      ensures logger.records == old(logger.records) + HandlerRecords(outcome, step.status)
    {
      match outcome {
        case None =>
        case Some(StopStep(m)) =>
          logger.Log(Info, StepStopped(StopLabelOf(step.status), m));
        case Some(StopSync(m)) =>
          logger.Log(Info, StopSyncRequested(m));
        case Some(AnException(c, m)) =>
          logger.Log(Alert, UnhandledException(c, m));
        case Some(AnError(c, m)) =>
          logger.Log(Alert, UnhandledThrowable(c, m));
      }
    }

    /**
     * The step's finish with its hooks: the finish block that `logFinish` makes of the
     * step's clock, flags and the SQL logs as they stand, which it then empties. When
     * the step is the `i`-th of a loop run with `p`, whose `perform` started at `start`,
     * that block is the one `FinishFor` gives.
     */
    method FinishStep(step: Step, host: Host, ghost i: nat, ghost p: Profile, ghost start: real) returns (ghost finish: FinishLines)
      requires step.logger == logger
      requires step.startTime == start && host.clock == start + step.action.duration
      requires step.sqlLogsBitrix == p.bitrixOn && step.sqlLogsIlluminate == p.illuminateOn
      requires p.usage == host.memoryUsage && p.peak == host.peakMemoryUsage
      requires p.bitrixOn ==> host.bitrixQueries == StartLog(p.bitrixStart, i) + (if p.bitrixTracking then step.action.bitrixQueries else [])
      requires p.illuminateOn ==> host.illuminateLog == StartLog(p.illuminateStart, i) + (if p.illuminateLogging then step.action.ormQueries else [])
      modifies step`calls, logger`records, host`bitrixQueries, host`illuminateLog
      ensures finish == FinishOf(step.GetName(), step.startTime, host.clock, step.sqlLogsBitrix, step.sqlLogsIlluminate,
        old(host.bitrixQueries), old(host.illuminateLog), host.memoryUsage, host.peakMemoryUsage)
      ensures finish == FinishFor(p, step, i)
      ensures logger.records == old(logger.records) + finish.Records()
      ensures host.bitrixQueries == if step.sqlLogsBitrix then [] else old(host.bitrixQueries)
      ensures host.illuminateLog == if step.sqlLogsIlluminate then [] else old(host.illuminateLog)
      ensures step.calls == old(step.calls) + FinishHooks
      ensures EntryStatuses(steps) == old(EntryStatuses(steps))
    {
      step.LogFinishWithEvents(host);
      StatusesFramed(steps);
      FinishOfStep(p, step, i, step.startTime, host.clock, step.sqlLogsBitrix, step.sqlLogsIlluminate,
        old(host.bitrixQueries), old(host.illuminateLog), host.memoryUsage, host.peakMemoryUsage);
      finish := FinishOf(step.GetName(), step.startTime, host.clock, step.sqlLogsBitrix, step.sqlLogsIlluminate,
        old(host.bitrixQueries), old(host.illuminateLog), host.memoryUsage, host.peakMemoryUsage);
    }

    /**
     * One turn of the run loop on step `i`, as far as the whole run is concerned:
     * `runs` and `calls` grow by that step's run and calls, and the enabled SQL logs
     * are left empty for the next step.
     */
    method RunNext(host: Host, i: nat, ghost init: map<string, PhpValue>, ghost p: Profile, ghost initial: seq<Status>,
                   ghost base: seq<Record>, ghost runs: seq<StepRun>, ghost calls: seq<Call>)
      returns (outcome: Option<Thrown>, ghost runs': seq<StepRun>, ghost calls': seq<Call>)
      requires AllSteps(steps) && i < |steps| && |runs| == i
      requires calls == RunCalls(i) && Ran(runs, init, steps, p, initial) && StatusesAt(EntryStatuses(steps), steps, runs, initial, i)
      requires sharedData.data == SharedAfter(init, Writes(steps)[..i])
      requires logger.records == base + RecordsOf(runs)
      requires p == Profile(Truthy(config.profileSql), sqlLogsIlluminate, host.bitrixTracking, host.illuminateLogging,
        p.bitrixStart, p.illuminateStart, host.memoryUsage, host.peakMemoryUsage)
      requires p.bitrixOn ==> host.bitrixQueries == StartLog(p.bitrixStart, i)
      requires p.illuminateOn ==> host.illuminateLog == StartLog(p.illuminateStart, i)
      requires NoBreakBefore(Outcomes(steps), i)
      modifies steps[i].step, logger`records, sharedData`data, host`bitrixQueries, host`illuminateLog, host`clock
      ensures outcome == Outcomes(steps)[i]
      ensures |runs'| == i + 1 && calls' == RunCalls(i + 1) && Ran(runs', init, steps, p, initial)
      ensures StatusesAt(EntryStatuses(steps), steps, runs', initial, i + 1)
      ensures sharedData.data == SharedAfter(init, Writes(steps)[..i + 1])
      ensures logger.records == base + RecordsOf(runs')
      ensures p.bitrixOn ==> host.bitrixQueries == StartLog(p.bitrixStart, i + 1)
      ensures p.illuminateOn ==> host.illuminateLog == StartLog(p.illuminateStart, i + 1)
      ensures Breaks(outcome) ==> Reached(Outcomes(steps)) == i + 1
      ensures !Breaks(outcome) ==> NoBreakBefore(Outcomes(steps), i + 1)
    {
      ghost var logged, statuses := logger.records, EntryStatuses(steps);
      ghost var run, trace;
      outcome, run, trace := RunStep(steps[i].step, host, init, i, p);
      StatusesAfterRun(statuses, steps, runs, initial, run, i);
      RanExtend(runs, init, steps, p, initial, run);
      RecordsOfExtend(base, logged, runs, run);
      RunCallsNext(i);
      ReachedAt(Outcomes(steps), i);
      runs', calls' := runs + [run], calls + trace;
    }

    /**
     * The run loop. Each step gets the logger, the SQL flags and the shared data,
     * is started, performed and finished; a step-scoped stop lets the loop go on,
     * any other exception ends it after that step's finish.
     */
    method RunSteps(host: Host, ghost p: Profile, ghost initial: seq<Status>)
      returns (reached: nat, ghost calls: seq<Call>, ghost runs: seq<StepRun>)
      requires AllSteps(steps) && initial == EntryStatuses(steps)
      requires p == Profile(Truthy(config.profileSql), sqlLogsIlluminate, host.bitrixTracking, host.illuminateLogging,
        host.bitrixQueries, host.illuminateLog, host.memoryUsage, host.peakMemoryUsage)
      modifies StepObjects(steps), logger, sharedData, host`bitrixQueries, host`illuminateLog, host`clock
      ensures reached == Reached(Outcomes(steps)) == |runs|
      ensures calls == RunCalls(reached)
      ensures Ran(runs, old(sharedData.data), steps, p, initial)
      ensures sharedData.data == SharedAfter(old(sharedData.data), Writes(steps)[..reached])
      ensures logger.records == old(logger.records) + RecordsOf(runs)
      ensures StatusesAt(EntryStatuses(steps), steps, runs, initial, reached)
    {
      ghost var init, base, outs, writes := sharedData.data, logger.records, Outcomes(steps), Writes(steps);
      reached, calls, runs := 0, [], [];
      var i := 0;
      while i < |steps|
        invariant 0 <= i <= |steps| && reached == i == |runs|
        invariant NoBreakBefore(outs, i)
        invariant calls == RunCalls(i)
        invariant Ran(runs, init, steps, p, initial) && StatusesAt(EntryStatuses(steps), steps, runs, initial, i)
        invariant sharedData.data == SharedAfter(init, writes[..i])
        invariant logger.records == base + RecordsOf(runs)
        invariant p.bitrixOn ==> host.bitrixQueries == StartLog(p.bitrixStart, i)
        invariant p.illuminateOn ==> host.illuminateLog == StartLog(p.illuminateStart, i)
      {
        assert steps[i].step in StepObjects(steps);
        var outcome;
        outcome, runs, calls := RunNext(host, i, init, p, initial, base, runs, calls);
        reached := i + 1;
        if Breaks(outcome) {
          break;
        }
        i := i + 1;
      }
      ReachedAt(outs, i);
    }

    /** The closing lines of a run: separator, end of the synchronisation, time spent. */
    method LogClosing(host: Host, startTime: real)
      modifies logger`records
      ensures logger.records == old(logger.records) + ClosingRecords(startTime, host.clock)
      ensures EntryStatuses(steps) == old(EntryStatuses(steps))
    {
      logger.Log(Info, Separator);
      logger.Log(Info, SyncFinished);
      logger.Log(Info, TimeSpent(ElapsedOf(host.clock - startTime)));
      StatusesFramed(steps);
    }

    /** Mails the log file to the final-log recipients, if there are any. */
    method DoEmailFinalLog(host: Host)
      modifies host`outbox
      ensures host.outbox == old(host.outbox) + MailsOf(FinalLogMail(config.emailFinalLogTo, host.emailFromOption,
        host.siteName, config.env, name, host.Contents(logFile), logFile.Str()))
      ensures EntryStatuses(steps) == old(EntryStatuses(steps))
    {
      if config.emailFinalLogTo == [] {
        return;
      }
      var contents := host.Contents(logFile);
      var body := if contents.Some? && TruthyString(contents.value) then LogText(contents.value) else LogUnavailable(logFile.Str());
      host.SendMail(Mail(Implode(",", config.emailFinalLogTo), EmailFrom(host.emailFromOption), host.siteName, ToStr(config.env), name, body));
      StatusesFramed(steps);
    }

    /**
     * `adjustPhpSettings`: widens the session timeout on the Bitrix connection and, when
     * the Illuminate layer is in use, on its connection too. Each statement is a query
     * like any other, so a log that records keeps it.
     */
    method AdjustPhpSettings(host: Host)
      modifies host`bitrixQueries, host`illuminateLog
      ensures host.bitrixQueries == AfterSessionSetup(old(host.bitrixQueries), true, host.bitrixTracking, host.bitrixSetupTime)
      ensures host.illuminateLog ==
        AfterSessionSetup(old(host.illuminateLog), host.illuminateInUse, host.illuminateLogging, host.illuminateSetupTime)
    {
      var onIlluminate := if host.illuminateInUse then [Query(WaitTimeoutSql, host.illuminateSetupTime)] else [];
      host.RunQueries([Query(WaitTimeoutSql, host.bitrixSetupTime)], onIlluminate);
    }

    /**
     * The part of `perform` before the loop: clean-up, start line, session settings, overlap guard,
     * normalisation and validation of the steps. Each of these can throw; what
     * escapes is the verdict of `PrepareVerdict`. The lock is taken before the steps
     * are looked at, so a run refused for its steps leaves it in place.
     */
    method Prepare(host: Host, registry: map<string, ClassDecl>) returns (failure: Option<Failure>)
      requires lockFile.dir in host.dirs
      modifies this`steps, logger, host`dirs, host`shutdownUnlinks, host`bitrixQueries, host`illuminateLog
      ensures failure == PrepareVerdict(config, logDir, lockFile, old(host.dirs), host.unixTime,
        old(steps), registry, Validation(steps))
      ensures failure == Some(AlreadyRunning(ToStr(config.env), lockFile.Str())) ==>
        logger.records == old(logger.records) + [Record(Info, SyncStarted), Record(Alert, LockExists(ToStr(config.env), lockFile.Str()))]
      ensures failure.None? || failure.value.ClassNotFound? || failure.value.InvalidSteps? ==>
        && logger.records == old(logger.records) + [Record(Info, SyncStarted)]
        && (!Truthy(config.allowOverlapping) ==> host.Exists(lockFile) && lockFile in host.shutdownUnlinks)
      ensures failure.None? ==> forall s :: s in StepObjects(steps) ==> s in StepObjects(old(steps)) || fresh(s)
      ensures failure.None? ==> EntryStatuses(steps) == old(EntryStatuses(steps))
      ensures host.bitrixQueries == if failure == Some(LogDirUnreadable(logDir)) then old(host.bitrixQueries)
        else AfterSessionSetup(old(host.bitrixQueries), true, host.bitrixTracking, host.bitrixSetupTime)
      ensures host.illuminateLog == if failure == Some(LogDirUnreadable(logDir)) then old(host.illuminateLog)
        else AfterSessionSetup(old(host.illuminateLog), host.illuminateInUse, host.illuminateLogging, host.illuminateSetupTime)
    {
      failure := ApplyConfiguration(host);
      if failure.Some? {
        return;
      }
      StatusesFramed(steps);
      failure := Begin(host, registry);
    }

    /** The preparation once the clean-up passed: what escapes is the verdict of `StartVerdict`. */
    method Begin(host: Host, registry: map<string, ClassDecl>) returns (failure: Option<Failure>)
      requires lockFile.dir in host.dirs
      modifies this`steps, logger, host`dirs, host`shutdownUnlinks, host`bitrixQueries, host`illuminateLog
      ensures failure == StartVerdict(config, lockFile, old(host.Exists(lockFile)), old(steps), registry, Validation(steps))
      ensures failure == Some(AlreadyRunning(ToStr(config.env), lockFile.Str())) ==>
        logger.records == old(logger.records) + [Record(Info, SyncStarted), Record(Alert, LockExists(ToStr(config.env), lockFile.Str()))]
      ensures failure.None? || failure.value.ClassNotFound? || failure.value.InvalidSteps? ==>
        && logger.records == old(logger.records) + [Record(Info, SyncStarted)]
        && (!Truthy(config.allowOverlapping) ==> host.Exists(lockFile) && lockFile in host.shutdownUnlinks)
      ensures failure.None? ==> forall s :: s in StepObjects(steps) ==> s in StepObjects(old(steps)) || fresh(s)
      ensures failure.None? ==> EntryStatuses(steps) == old(EntryStatuses(steps))
      ensures host.bitrixQueries == AfterSessionSetup(old(host.bitrixQueries), true, host.bitrixTracking, host.bitrixSetupTime)
      ensures host.illuminateLog ==
        AfterSessionSetup(old(host.illuminateLog), host.illuminateInUse, host.illuminateLogging, host.illuminateSetupTime)
    {
      logger.Log(Info, SyncStarted);
      AdjustPhpSettings(host);
      StatusesFramed(steps);
      failure := Admit(host, registry);
    }

    /** The overlap guard, then normalisation and validation of the steps. */
    method Admit(host: Host, registry: map<string, ClassDecl>) returns (failure: Option<Failure>)
      requires lockFile.dir in host.dirs
      modifies this`steps, logger, host`dirs, host`shutdownUnlinks
      ensures failure == StartVerdict(config, lockFile, old(host.Exists(lockFile)), old(steps), registry, Validation(steps))
      ensures failure == Some(AlreadyRunning(ToStr(config.env), lockFile.Str())) ==>
        logger.records == old(logger.records) + [Record(Alert, LockExists(ToStr(config.env), lockFile.Str()))]
      ensures failure.None? || failure.value.ClassNotFound? || failure.value.InvalidSteps? ==>
        && logger.records == old(logger.records)
        && (!Truthy(config.allowOverlapping) ==> host.Exists(lockFile) && lockFile in host.shutdownUnlinks)
      ensures failure.None? ==> forall s :: s in StepObjects(steps) ==> s in StepObjects(old(steps)) || fresh(s)
      ensures failure.None? ==> EntryStatuses(steps) == old(EntryStatuses(steps))
    {
      failure := PreventOverlapping(host);
      if failure.Some? {
        return;
      }
      StatusesFramed(steps);
      failure := NormalizeSteps(registry);
      if failure.Some? {
        return;
      }
      forall s | s in StepObjects(steps)
        ensures s in StepObjects(old(steps)) || fresh(s)
      {
        var i :| 0 <= i < |steps| && steps[i].Instance? && steps[i].step == s;
        if steps[i] == old(steps)[i] {
          assert old(steps)[i].step in StepObjects(old(steps));
        }
      }
      var invalid := ValidateSteps();
      if invalid.Some? {
        return Some(InvalidSteps(invalid.value));
      }
    }

    /**
     * `perform`: the preparation, SQL profiling when configured, the run loop, the
     * closing lines and the final-log mail. An exception escaping the preparation
     * aborts it; every other run completes. The settings are those in force when it
     * is called, which it does not change.
     */
    method Perform(host: Host, registry: map<string, ClassDecl>) returns (result: RunResult, ghost calls: seq<Call>, ghost runs: seq<StepRun>)
      requires lockFile.dir in host.dirs
      modifies this`steps, this`sqlLogsIlluminate, logger, sharedData, StepObjects(steps)
      modifies host`dirs, host`shutdownUnlinks, host`outbox, host`bitrixTracking, host`bitrixQueries
      modifies host`illuminateLogging, host`illuminateLog, host`clock
      ensures result == Aborted(LogDirUnreadable(old(logDir))) <==> old(config).cleanOldLogs != 0 && old(logDir) !in old(host.dirs)
      ensures result == Aborted(AlreadyRunning(ToStr(old(config).env), lockFile.Str())) <==>
        LockRefused(old(config), old(logDir), lockFile, old(host.dirs), host.unixTime)
      ensures result.Aborted? && result.failure.ClassNotFound? <==>
        PassesGuards(old(config), old(logDir), lockFile, old(host.dirs), host.unixTime) && FirstUnknown(old(steps), registry).Some?
      ensures result.Aborted? && result.failure.ClassNotFound? ==>
        result.failure.cls == old(steps)[FirstUnknown(old(steps), registry).value].cls
      ensures result.Aborted? && result.failure.InvalidSteps? <==>
        PassesGuards(old(config), old(logDir), lockFile, old(host.dirs), host.unixTime)
        && FirstUnknown(old(steps), registry).None? && Validation(steps).Some?
      ensures result.Aborted? && result.failure.InvalidSteps? ==> result.failure.error == Validation(steps).value
      ensures result.Completed? <==>
        PassesGuards(old(config), old(logDir), lockFile, old(host.dirs), host.unixTime)
        && FirstUnknown(old(steps), registry).None? && Validation(steps).None?
      ensures result == Aborted(AlreadyRunning(ToStr(old(config).env), lockFile.Str())) ==>
        logger.records == old(logger.records) + [Record(Info, SyncStarted), Record(Alert, LockExists(ToStr(old(config).env), lockFile.Str()))]
      ensures result.Aborted? && (result.failure.ClassNotFound? || result.failure.InvalidSteps?) ==>
        && logger.records == old(logger.records) + [Record(Info, SyncStarted)]
        && (!Truthy(old(config).allowOverlapping) ==> host.Exists(lockFile) && lockFile in host.shutdownUnlinks)
      ensures result.Aborted? ==>
        calls == [] && runs == [] && host.outbox == old(host.outbox) && sharedData.data == old(sharedData.data)
      ensures result.Aborted? ==> forall s :: s in StepObjects(old(steps)) ==> s.calls == old(s.calls)
      ensures result.Completed? ==>
        && AllSteps(steps)
        && Executed(steps, result.reached, calls, runs, old(sharedData.data), sharedData.data,
          logger.records, old(logger.records) + [Record(Info, SyncStarted)], old(host.clock), host.clock,
          ProfileAfter(Truthy(old(config).profileSql), old(sqlLogsIlluminate), host.illuminateInUse, old(host.bitrixTracking),
            AfterSessionSetup(old(host.bitrixQueries), true, old(host.bitrixTracking), host.bitrixSetupTime), old(host.illuminateLogging),
            AfterSessionSetup(old(host.illuminateLog), host.illuminateInUse, old(host.illuminateLogging), host.illuminateSetupTime),
            host.memoryUsage, host.peakMemoryUsage), old(EntryStatuses(steps)), EntryStatuses(steps))
        && (!Truthy(old(config).allowOverlapping) ==> host.Exists(lockFile) && lockFile in host.shutdownUnlinks)
        && host.outbox == old(host.outbox) + MailsOf(FinalLogMail(config.emailFinalLogTo, host.emailFromOption,
          host.siteName, config.env, name, host.Contents(logFile), logFile.Str()))
    {
      result, calls, runs := PrepareAndExecute(host, registry);
      PrepareVerdictCases(old(config), old(logDir), lockFile, old(host.dirs), host.unixTime, old(steps), registry, Validation(steps));
    }

    /** `perform` with the outcome of the preparation stated as the verdict of `PrepareVerdict`. */
    method PrepareAndExecute(host: Host, registry: map<string, ClassDecl>) returns (result: RunResult, ghost calls: seq<Call>, ghost runs: seq<StepRun>)
      requires lockFile.dir in host.dirs
      modifies this`steps, this`sqlLogsIlluminate, logger, sharedData, StepObjects(steps)
      modifies host`dirs, host`shutdownUnlinks, host`outbox, host`bitrixTracking, host`bitrixQueries
      modifies host`illuminateLogging, host`illuminateLog, host`clock
      ensures result.Aborted? <==> PrepareVerdict(old(config), old(logDir), lockFile, old(host.dirs), host.unixTime, old(steps), registry, Validation(steps)).Some?
      ensures result.Aborted? ==> result.failure == PrepareVerdict(old(config), old(logDir), lockFile, old(host.dirs), host.unixTime, old(steps), registry, Validation(steps)).value
      ensures result == Aborted(AlreadyRunning(ToStr(old(config).env), lockFile.Str())) ==>
        logger.records == old(logger.records) + [Record(Info, SyncStarted), Record(Alert, LockExists(ToStr(old(config).env), lockFile.Str()))]
      ensures result.Aborted? && (result.failure.ClassNotFound? || result.failure.InvalidSteps?) ==>
        && logger.records == old(logger.records) + [Record(Info, SyncStarted)]
        && (!Truthy(old(config).allowOverlapping) ==> host.Exists(lockFile) && lockFile in host.shutdownUnlinks)
      ensures result.Aborted? ==>
        calls == [] && runs == [] && host.outbox == old(host.outbox) && sharedData.data == old(sharedData.data)
      ensures result.Aborted? ==> forall s :: s in StepObjects(old(steps)) ==> s.calls == old(s.calls)
      ensures result.Completed? ==>
        && AllSteps(steps)
        && Executed(steps, result.reached, calls, runs, old(sharedData.data), sharedData.data,
          logger.records, old(logger.records) + [Record(Info, SyncStarted)], old(host.clock), host.clock,
          ProfileAfter(Truthy(old(config).profileSql), old(sqlLogsIlluminate), host.illuminateInUse, old(host.bitrixTracking),
            AfterSessionSetup(old(host.bitrixQueries), true, old(host.bitrixTracking), host.bitrixSetupTime), old(host.illuminateLogging),
            AfterSessionSetup(old(host.illuminateLog), host.illuminateInUse, old(host.illuminateLogging), host.illuminateSetupTime),
            host.memoryUsage, host.peakMemoryUsage), old(EntryStatuses(steps)), EntryStatuses(steps))
        && (!Truthy(old(config).allowOverlapping) ==> host.Exists(lockFile) && lockFile in host.shutdownUnlinks)
        && host.outbox == old(host.outbox) + MailsOf(FinalLogMail(config.emailFinalLogTo, host.emailFromOption,
          host.siteName, config.env, name, host.Contents(logFile), logFile.Str()))
    {
      calls, runs := [], [];
      var startTime := host.clock;
      var failure := Prepare(host, registry);
      ghost var profile := ProfileAfter(Truthy(config.profileSql), sqlLogsIlluminate, host.illuminateInUse, host.bitrixTracking,
        host.bitrixQueries, host.illuminateLogging, host.illuminateLog, host.memoryUsage, host.peakMemoryUsage);
      if failure.Some? {
        result := Aborted(failure.value);
      } else {
        ValidationAcceptsIff(steps);
        result, calls, runs := Complete(host, startTime, old(sharedData.data), old(logger.records) + [Record(Info, SyncStarted)], profile,
          old(EntryStatuses(steps)));
      }
    }

    /** A run whose preparation passed: `Execute`, which leaves the lock as the preparation left it. */
    method Complete(host: Host, startTime: real, ghost init: map<string, PhpValue>, ghost before: seq<Record>, ghost profile: Profile,
                    ghost initial: seq<Status>)
      returns (result: RunResult, ghost calls: seq<Call>, ghost runs: seq<StepRun>)
      requires AllSteps(steps) && sharedData.data == init && logger.records == before && initial == EntryStatuses(steps)
      requires profile == ProfileAfter(Truthy(config.profileSql), sqlLogsIlluminate, host.illuminateInUse, host.bitrixTracking,
        host.bitrixQueries, host.illuminateLogging, host.illuminateLog, host.memoryUsage, host.peakMemoryUsage)
      requires !Truthy(config.allowOverlapping) ==> host.Exists(lockFile) && lockFile in host.shutdownUnlinks
      modifies this`sqlLogsIlluminate, logger, sharedData, StepObjects(steps)
      modifies host`outbox, host`bitrixTracking, host`bitrixQueries, host`illuminateLogging, host`illuminateLog, host`clock
      ensures result.Completed? && AllSteps(steps)
      ensures Executed(steps, result.reached, calls, runs, init, sharedData.data, logger.records, before, startTime, host.clock, profile, initial,
        EntryStatuses(steps))
      ensures !Truthy(old(config).allowOverlapping) ==> host.Exists(lockFile) && lockFile in host.shutdownUnlinks
      ensures host.outbox == old(host.outbox) + MailsOf(FinalLogMail(config.emailFinalLogTo, host.emailFromOption,
        host.siteName, config.env, name, host.Contents(logFile), logFile.Str()))
    {
      var reached;
      reached, calls, runs := Execute(host, startTime, init, before, profile, initial);
      result := Completed(reached);
    }

    /**
     * The part of `perform` from SQL profiling on, once the steps are valid. The loop
     * runs with what the profiling set up.
     */
    method Execute(host: Host, startTime: real, ghost init: map<string, PhpValue>, ghost before: seq<Record>, ghost profile: Profile,
                   ghost initial: seq<Status>)
      returns (reached: nat, ghost calls: seq<Call>, ghost runs: seq<StepRun>)
      requires AllSteps(steps) && sharedData.data == init && logger.records == before && initial == EntryStatuses(steps)
      requires profile == ProfileAfter(Truthy(config.profileSql), sqlLogsIlluminate, host.illuminateInUse, host.bitrixTracking,
        host.bitrixQueries, host.illuminateLogging, host.illuminateLog, host.memoryUsage, host.peakMemoryUsage)
      modifies this`sqlLogsIlluminate, logger, sharedData, StepObjects(steps)
      modifies host`outbox, host`bitrixTracking, host`bitrixQueries, host`illuminateLogging, host`illuminateLog, host`clock
      ensures Executed(steps, reached, calls, runs, init, sharedData.data, logger.records, before, startTime, host.clock, profile, initial,
        EntryStatuses(steps))
      ensures host.outbox == old(host.outbox) + MailsOf(FinalLogMail(config.emailFinalLogTo, host.emailFromOption,
        host.siteName, config.env, name, host.Contents(logFile), logFile.Str()))
    {
      ghost var p := ProfileIfConfigured(host);
      reached, calls, runs := RunSteps(host, p, initial);
      ghost var final, shared := EntryStatuses(steps), sharedData.data;
      LogClosing(host, startTime);
      DoEmailFinalLog(host);
      assert EntryStatuses(steps) == final && sharedData.data == shared;
    }
  }

  /** `new Sync($name)`: a name that does not match the pattern is refused. */
  method NewSync(name: string, logsRoot: string, stamp: string, user: map<string, PhpValue>, defaultEnv: string, host: Host)
    returns (sync: Sync?)
    modifies host`dirs
    ensures sync == null <==> !MatchesName(name)
    ensures sync == null ==> host.dirs == old(host.dirs)
    ensures sync != null ==>
      fresh(sync) && sync.name == name
      && sync.lockFile == LockPath(SyncLogDir(logsRoot, name), name)
      && sync.logFile == LogFilePath(SyncLogDir(logsRoot, name), stamp)
      && sync.config == DefaultConfig(user, defaultEnv)
      && sync.lockFile.dir in host.dirs
  {
    if !MatchesName(name) {
      return null;
    }
    sync := new Sync(name, logsRoot, stamp, user, defaultEnv, host);
  }
}
