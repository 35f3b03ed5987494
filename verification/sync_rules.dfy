/**
 * The decisions src/Sync.php takes without changing anything: whether a sync name
 * is accepted, where its lock and log files live, the configuration defaults,
 * which old logs are kept, the final-log mail, whether a list of steps is valid,
 * and how far the run loop gets for given step outcomes.
 */
module SyncRules {
  import opened PhpValues
  import opened Logging
  import opened Platform
  import opened StepLifecycle

  // ---------------------------------------------------------------------------
  // Sync name: `/^[a-zA-Z0-9_-]+$/`
  // ---------------------------------------------------------------------------

  predicate NameChar(c: char) {
    ('a' <= c <= 'z') || ('A' <= c <= 'Z') || ('0' <= c <= '9') || c == '_' || c == '-'
  }

  predicate AllNameChars(s: string) {
    forall j :: 0 <= j < |s| ==> NameChar(s[j])
  }

  /** After the first class character: more of them, then the end of the subject or a final "\n" before it. */
  predicate MatchesNameTail(s: string)
    decreases |s|
  {
    s == [] || s == "\n" || (NameChar(s[0]) && MatchesNameTail(s[1..]))
  }

  /**
   * `preg_match('/^[a-zA-Z0-9_-]+$/', $name)`. Without the D modifier, `$` also
   * matches just before a final newline, so one trailing "\n" is accepted.
   */
  predicate MatchesName(s: string) {
    |s| > 0 && NameChar(s[0]) && MatchesNameTail(s[1..])
  }

  lemma {:induction false} NameTailIff(s: string)
    ensures MatchesNameTail(s) <==> AllNameChars(s) || (|s| > 0 && s[|s| - 1] == '\n' && AllNameChars(s[..|s| - 1]))
    decreases |s|
  {
    if |s| > 1 {
      NameTailIff(s[1..]);
      assert s[1..][..|s| - 2] == s[..|s| - 1][1..];
    }
  }

  /**
   * A name is accepted exactly when it is one or more of `a-z A-Z 0-9 _ -`, or such a
   * name followed by a single "\n".
   */
  lemma NameAcceptedIff(s: string)
    ensures MatchesName(s) <==>
      (|s| > 0 && AllNameChars(s)) || (|s| > 1 && s[|s| - 1] == '\n' && AllNameChars(s[..|s| - 1]))
  {
    if |s| > 1 {
      NameTailIff(s[1..]);
      assert s[1..][..|s| - 2] == s[..|s| - 1][1..];
    }
  }

  // ---------------------------------------------------------------------------
  // Paths
  // ---------------------------------------------------------------------------

  const LockSuffix: string := "_is_in_process.lock"
  const LogExtension: string := ".log"

  /** `logs_path('syncs/'.$name)`, with `logs_path` prefixing the application's log root. */
  function SyncLogDir(logsRoot: string, name: string): string {
    logsRoot + "/syncs/" + name
  }

  /** The lock file: `logDir . '/' . $name . '_is_in_process.lock'`. */
  function LockPath(logDir: string, name: string): (r: FilePath)
    ensures r.dir == logDir && r.file == name + LockSuffix
    ensures r.Str() == logDir + "/" + name + LockSuffix
  {
    FilePath(logDir, name + LockSuffix)
  }

  /** The log file: `logDir . '/' . date('Y_m_d_H_i_s') . '.log'`, the stamp given. */
  function LogFilePath(logDir: string, stamp: string): (r: FilePath)
    ensures r.dir == logDir && r.file == stamp + LogExtension
    ensures r.Str() == logDir + "/" + stamp + LogExtension
  {
    FilePath(logDir, stamp + LogExtension)
  }

  /** Two syncs with different names never share a lock, even in one directory. */
  lemma LockPathsDistinct(logDir: string, a: string, b: string)
    requires a != b
    ensures LockPath(logDir, a).Str() != LockPath(logDir, b).Str()
  {
    var p, q := LockPath(logDir, a).Str(), LockPath(logDir, b).Str();
    var n := |logDir| + 1;
    assert p[n..|p| - |LockSuffix|] == a;
    assert q[n..|q| - |LockSuffix|] == b;
  }

  /** A sync's lock file is never its log file. */
  lemma LockIsNotLog(logDir: string, name: string, stamp: string)
    ensures LockPath(logDir, name).Str() != LogFilePath(logDir, stamp).Str()
  {
    var p, q := LockPath(logDir, name).Str(), LogFilePath(logDir, stamp).Str();
    assert p[|p| - 1] == 'k';
    assert q[|q| - 1] == 'g';
  }

  // ---------------------------------------------------------------------------
  // Configuration
  // ---------------------------------------------------------------------------

  /**
   * `$this->config`. The constructor casts the flags to bool, but the setters store
   * whatever they are given, so flags and the alert recipients stay PHP values; the
   * final-log recipients and the Telegram triple are always arrays and the
   * retention period always an int.
   */
  datatype Config = Config(
    allowOverlapping: PhpValue,
    profileSql: PhpValue,
    emailAlertsTo: PhpValue,
    emailFinalLogTo: seq<PhpValue>,
    sendAlertsToTelegram: seq<PhpValue>,
    cleanOldLogs: int,
    sendOutputToEcho: PhpValue,
    env: PhpValue)

  const DefaultRetentionDays: int := 30

  /** `isset($user[$key])`: present and not null. */
  predicate Isset(user: map<string, PhpValue>, key: string) {
    key in user && user[key] != Null
  }

  /** `isset(...) ? (bool) ... : false`. */
  function FlagSetting(user: map<string, PhpValue>, key: string): (r: PhpValue)
    ensures r.Bool? && (r.b <==> Isset(user, key) && Truthy(user[key]))
  {
    Bool(Isset(user, key) && Truthy(user[key]))
  }

  /** `isset(...) ? (array) ... : []`. */
  function ListSetting(user: map<string, PhpValue>, key: string): (r: seq<PhpValue>)
    ensures !Isset(user, key) ==> r == []
    ensures Isset(user, key) && !user[key].List? ==> r == [user[key]]
  {
    if Isset(user, key) then ToList(user[key]) else []
  }

  /**
   * The configuration the constructor builds from the user's `bitrix-sync` settings:
   * every flag a bool, every recipient setting an array, the retention period an int
   * (30 days unless set) and the environment the user's or `defaultEnv`.
   */
  function DefaultConfig(user: map<string, PhpValue>, defaultEnv: string): (r: Config)
    ensures r.allowOverlapping.Bool? && r.profileSql.Bool? && r.sendOutputToEcho.Bool?
    ensures r.emailAlertsTo.List?
    ensures r.cleanOldLogs == if Isset(user, "cleanOldLogs") then ToInt(user["cleanOldLogs"]) else DefaultRetentionDays
    ensures r.env == if Isset(user, "env") then user["env"] else Str(defaultEnv)
  {
    Config(
      FlagSetting(user, "allowOverlapping"),
      FlagSetting(user, "profileSql"),
      List(ListSetting(user, "emailAlertsTo")),
      ListSetting(user, "emailFinalLogTo"),
      ListSetting(user, "sendAlertsToTelegram"),
      if Isset(user, "cleanOldLogs") then ToInt(user["cleanOldLogs"]) else DefaultRetentionDays,
      FlagSetting(user, "sendOutputToEcho"),
      if Isset(user, "env") then user["env"] else Str(defaultEnv))
  }

  /** With no user settings: no overlap allowed, no profiling, no echo, no recipients, 30 days. */
  lemma DefaultsWithoutUserConfig(defaultEnv: string)
    ensures DefaultConfig(map[], defaultEnv) ==
      Config(Bool(false), Bool(false), List([]), [], [], 30, Bool(false), Str(defaultEnv))
  {
  }

  // ---------------------------------------------------------------------------
  // Log retention
  // ---------------------------------------------------------------------------

  const SecondsPerDay: int := 86400

  /** A file is deleted when its age is at least the retention period. */
  predicate Expired(now: int, mtime: int, days: int) {
    now - mtime >= SecondsPerDay * days
  }

  /** The files of the log directory that survive the clean-up; a period of 0 disables it. */
  function Retained(files: map<string, FileInfo>, now: int, days: int): (r: map<string, FileInfo>)
    ensures days == 0 ==> r == files
    ensures forall f :: f in r ==> f in files && r[f] == files[f]
    ensures days != 0 ==> forall f :: f in files ==> (f in r <==> !Expired(now, files[f].mtime, days))
  {
    if days == 0 then files else map f | f in files && !Expired(now, files[f].mtime, days) :: files[f]
  }

  /** A longer retention period keeps every file a shorter one keeps. */
  lemma RetentionMonotone(files: map<string, FileInfo>, now: int, shorter: int, longer: int)
    requires 0 < shorter <= longer
    ensures Retained(files, now, shorter).Keys <= Retained(files, now, longer).Keys
  {
    forall f | f in Retained(files, now, shorter)
      ensures f in Retained(files, now, longer)
    {
      assert !Expired(now, files[f].mtime, shorter);
    }
  }

  /** A negative period deletes every file not stamped in the future. */
  lemma NegativeRetentionDeletesAll(files: map<string, FileInfo>, now: int, days: int)
    requires days < 0
    requires forall f :: f in files ==> files[f].mtime <= now
    ensures Retained(files, now, days) == map[]
  {
    forall f | f in files
      ensures Expired(now, files[f].mtime, days)
    {
    }
  }

  // ---------------------------------------------------------------------------
  // Final-log mail
  // ---------------------------------------------------------------------------

  const DefaultSender: string := "mail@greensight.ru"

  /** `emailFrom()`: the `email_from` option when truthy, else the built-in sender. */
  function EmailFrom(option: string): (r: string)
    ensures r == option || r == DefaultSender
    ensures r == option <==> TruthyString(option) || option == DefaultSender
  {
    if TruthyString(option) then option else DefaultSender
  }

  /**
   * The mail `doEmailFinalLog` sends: none without recipients; otherwise to all of them,
   * comma-joined, with the log file's contents as body, or a note naming the log file
   * when they cannot be read or are falsy.
   */
  function FinalLogMail(recipients: seq<PhpValue>, emailFromOption: string, siteName: string, env: PhpValue,
                        syncName: string, contents: Option<string>, logPath: string): (r: Option<Mail>)
    ensures r.None? <==> recipients == []
    ensures r.Some? ==> r.value.to == Implode(",", recipients) && r.value.from == EmailFrom(emailFromOption)
    ensures r.Some? ==> (r.value.body == LogUnavailable(logPath) <==> contents.None? || !TruthyString(contents.value))
    ensures r.Some? && contents.Some? && TruthyString(contents.value) ==> r.value.body == LogText(contents.value)
    ensures r.Some? ==> r.value.siteName == siteName && r.value.env == ToStr(env) && r.value.syncName == syncName
  {
    if recipients == [] then None
    else
      var body := if contents.Some? && TruthyString(contents.value) then LogText(contents.value) else LogUnavailable(logPath);
      Some(Mail(Implode(",", recipients), EmailFrom(emailFromOption), siteName, ToStr(env), syncName, body))
  }

  // ---------------------------------------------------------------------------
  // Steps and their validation
  // ---------------------------------------------------------------------------

  /** An element of the steps array: a class name still to instantiate, a step, or another object. */
  datatype Entry = ClassName(cls: string) | Instance(step: Step) | Foreign(cls: string)

  /**
   * What `new $class` finds for a class name. PHP resolves the name case-insensitively and
   * with or without a leading backslash, so the string looked up and the class's declared
   * name (what `get_class` returns) can differ.
   */
  datatype ClassDecl =
    | StepClass(declared: string, name: string, dependsOn: seq<string>, action: Action)
    | OtherClass(declared: string)

  datatype ValidationError =
    | NotAStep(cls: string)
    | MissingDependency(dependency: string, dependent: string)
    | DependsOnLater(dependent: string, dependency: string)

  /** `get_class($entry)`. */
  function ClassOf(e: Entry): string {
    match e
    case ClassName(c) => c
    case Instance(s) => s.className
    case Foreign(c) => c
  }

  predicate AllSteps(steps: seq<Entry>) {
    forall i :: 0 <= i < |steps| ==> steps[i].Instance?
  }

  /** The class names of the steps, in order. */
  function Names(steps: seq<Entry>): (r: seq<string>)
    ensures |r| == |steps| && forall i :: 0 <= i < |steps| ==> r[i] == ClassOf(steps[i])
  {
    seq(|steps|, i requires 0 <= i < |steps| => ClassOf(steps[i]))
  }

  /** `array_search($x, $names)`: the first position of `x`. */
  function IndexOf(names: seq<string>, x: string): (r: Option<nat>)
    ensures r.None? <==> x !in names
    ensures r.Some? ==> r.value < |names| && names[r.value] == x && x !in names[..r.value]
  {
    if names == [] then None
    else if names[0] == x then Some(0)
    else match IndexOf(names[1..], x)
      case None => None
      case Some(k) => assert names[1..][..k] == names[1..k + 1]; Some(k + 1)
  }

  /** Position of the first element that is not a step. */
  function FirstNonStep(steps: seq<Entry>): (r: Option<nat>)
    ensures r.None? <==> AllSteps(steps)
    ensures r.Some? ==> r.value < |steps| && !steps[r.value].Instance? && AllSteps(steps[..r.value])
  {
    if steps == [] then None
    else if !steps[0].Instance? then Some(0)
    else match FirstNonStep(steps[1..])
      case None => None
      case Some(k) => Some(k + 1)
  }

  /** The first dependency in `deps` of step `i` (class `cls`) that is missing or placed after it. */
  function DependencyError(names: seq<string>, i: nat, cls: string, deps: seq<string>): (r: Option<ValidationError>)
    ensures r.None? <==> forall j :: 0 <= j < |deps| ==> deps[j] in names[..if i < |names| then i + 1 else |names|]
  {
    if deps == [] then None
    else match IndexOf(names, deps[0])
      case None => Some(MissingDependency(deps[0], cls))
      case Some(k) =>
        if k > i then Some(DependsOnLater(cls, deps[0]))
        else
          assert deps[0] in names[..if i < |names| then i + 1 else |names|] by {
            assert names[..if i < |names| then i + 1 else |names|][k] == deps[0];
          }
          DependencyError(names, i, cls, deps[1..])
  }

  /** Every dependency of every step is the class of a step at or before it. */
  predicate DependenciesComeFirst(steps: seq<Entry>)
    requires AllSteps(steps)
  {
    forall i, j :: 0 <= i < |steps| && 0 <= j < |steps[i].step.dependsOn| ==>
      steps[i].step.dependsOn[j] in Names(steps)[..i + 1]
  }

  /** The ordering check from step `i` on: the first error found, step by step and dependency by dependency. */
  function OrderError(steps: seq<Entry>, i: nat): (r: Option<ValidationError>)
    requires AllSteps(steps)
    ensures r.None? <==> forall k, j :: i <= k < |steps| && 0 <= j < |steps[k].step.dependsOn| ==>
      steps[k].step.dependsOn[j] in Names(steps)[..k + 1]
    decreases |steps| - i
  {
    if i >= |steps| then None
    else
      var s := steps[i].step;
      match DependencyError(Names(steps), i, s.className, s.dependsOn)
      case Some(e) => Some(e)
      case None => OrderError(steps, i + 1)
  }

  /**
   * What `validateSteps` throws, if anything: first every element must be a step,
   * then the dependencies are checked in order.
   */
  function Validation(steps: seq<Entry>): Option<ValidationError> {
    match FirstNonStep(steps)
    case Some(k) => Some(NotAStep(ClassOf(steps[k])))
    case None => OrderError(steps, 0)
  }

  /**
   * The steps are accepted exactly when all of them are steps and each dependency is
   * the class of a step at the same or an earlier position.
   */
  lemma ValidationAcceptsIff(steps: seq<Entry>)
    ensures Validation(steps).None? <==> AllSteps(steps) && DependenciesComeFirst(steps)
  {
  }

  /** A step that depends only on its own class passes the check: the test is "after", not "at". */
  lemma SelfDependencyAccepted(steps: seq<Entry>)
    requires AllSteps(steps)
    requires forall i :: 0 <= i < |steps| ==> steps[i].step.dependsOn == [steps[i].step.className]
    ensures Validation(steps) == None
  {
    forall i, j | 0 <= i < |steps| && 0 <= j < |steps[i].step.dependsOn|
      ensures steps[i].step.dependsOn[j] in Names(steps)[..i + 1]
    {
      assert Names(steps)[..i + 1][i] == steps[i].step.className;
    }
    ValidationAcceptsIff(steps);
  }

  // ---------------------------------------------------------------------------
  // The run loop
  // ---------------------------------------------------------------------------

  /** A step outcome that ends the loop: anything thrown but a step-scoped stop. */
  predicate Breaks(o: Option<Thrown>) {
    o.Some? && !o.value.StopStep?
  }

  /** How `perform` ends for each step, given the steps. */
  function Outcomes(steps: seq<Entry>): (r: seq<Option<Thrown>>)
    requires AllSteps(steps)
    ensures |r| == |steps| && forall i :: 0 <= i < |steps| ==> r[i] == Raised(steps[i].step.action.ending)
  {
    seq(|steps|, i requires 0 <= i < |steps| => Raised(steps[i].step.action.ending))
  }

  /**
   * The number of steps the run loop reaches: every step up to and including the
   * first whose outcome breaks the loop, or all of them.
   */
  function Reached(outcomes: seq<Option<Thrown>>): (r: nat)
    ensures r <= |outcomes|
    ensures forall j :: 0 <= j < r - 1 ==> !Breaks(outcomes[j])
    ensures r < |outcomes| ==> r > 0 && Breaks(outcomes[r - 1])
    ensures r == |outcomes| && r > 0 ==> Breaks(outcomes[r - 1]) || forall j :: 0 <= j < r ==> !Breaks(outcomes[j])
    ensures r == 0 <==> outcomes == []
  {
    if outcomes == [] then 0
    else if Breaks(outcomes[0]) then 1
    else 1 + Reached(outcomes[1..])
  }

  /** No outcome before index `i` ends the run loop. */
  predicate NoBreakBefore(outcomes: seq<Option<Thrown>>, i: nat) {
    i <= |outcomes| && forall j :: 0 <= j < i ==> !Breaks(outcomes[j])
  }

  /** Where the loop stops, read off from its progress: at the first breaking outcome, or at the end. */
  lemma ReachedAt(outcomes: seq<Option<Thrown>>, i: nat)
    requires NoBreakBefore(outcomes, i)
    ensures i < |outcomes| && Breaks(outcomes[i]) ==> Reached(outcomes) == i + 1
    ensures i == |outcomes| ==> Reached(outcomes) == i
    ensures i < |outcomes| && !Breaks(outcomes[i]) ==> NoBreakBefore(outcomes, i + 1)
  {
  }

  datatype Call = Call(index: nat, hook: Hook)

  /**
   * What the loop calls on a step, whatever its outcome: the three setters, the
   * before-start hook twice around `logStart`, `perform`, then the finish with its hooks.
   */
  const StepHooks: seq<Hook> := [
    SetLoggerCall, SetSqlLoggingParamsCall, SetSharedDataCall,
    OnBeforeLogStartCall, LogStartCall, OnBeforeLogStartCall,
    PerformCall,
    OnBeforeLogFinishCall, LogFinishCall, OnAfterLogFinishCall]

  /** The calls before `perform`, and the finish with its hooks after it. */
  const StartHooks: seq<Hook> := [
    SetLoggerCall, SetSqlLoggingParamsCall, SetSharedDataCall,
    OnBeforeLogStartCall, LogStartCall, OnBeforeLogStartCall]
  const FinishHooks: seq<Hook> := [OnBeforeLogFinishCall, LogFinishCall, OnAfterLogFinishCall]

  /** A step's call log that grew by the start calls, `perform` and the finish grew by one pass. */
  lemma PassOnCallLog(before: seq<Hook>, after: seq<Hook>)
    requires after == before + StartHooks + [PerformCall] + FinishHooks
    ensures after == before + StepHooks && after[|before|..] == StepHooks
  {
    assert StepHooks == StartHooks + [PerformCall] + FinishHooks;
  }

  /** The calls on step `i` that a step's call log `hooks` records. */
  function CallsOf(i: nat, hooks: seq<Hook>): (r: seq<Call>)
    ensures |r| == |hooks| && forall k :: 0 <= k < |hooks| ==> r[k] == Call(i, hooks[k])
  {
    seq(|hooks|, k requires 0 <= k < |hooks| => Call(i, hooks[k]))
  }

  function StepCalls(i: nat): (r: seq<Call>)
    ensures |r| == |StepHooks|
  {
    CallsOf(i, StepHooks)
  }

  /** The calls one pass of the loop makes on step `i`, spelt out. */
  lemma StepCallsListed(i: nat)
    ensures StepCalls(i) == [
      Call(i, SetLoggerCall), Call(i, SetSqlLoggingParamsCall), Call(i, SetSharedDataCall),
      Call(i, OnBeforeLogStartCall), Call(i, LogStartCall), Call(i, OnBeforeLogStartCall),
      Call(i, PerformCall),
      Call(i, OnBeforeLogFinishCall), Call(i, LogFinishCall), Call(i, OnAfterLogFinishCall)]
  {
  }

  /** The calls of a run that reaches `n` steps. */
  function RunCalls(n: nat): seq<Call> {
    if n == 0 then [] else RunCalls(n - 1) + StepCalls(n - 1)
  }

  lemma RunCallsNext(i: nat)
    ensures RunCalls(i + 1) == RunCalls(i) + StepCalls(i)
  {
  }

  /** The trace is the steps' call sequences one after the other, in step order. */
  lemma {:induction false} RunCallsLayout(n: nat)
    ensures |RunCalls(n)| == 10 * n
    ensures forall p :: 0 <= p < |RunCalls(n)| ==> RunCalls(n)[p] == Call(p / 10, StepHooks[p % 10])
  {
    if n > 0 {
      RunCallsLayout(n - 1);
      var a, b := RunCalls(n - 1), StepCalls(n - 1);
      assert RunCalls(n) == a + b;
      forall p | 10 * (n - 1) <= p < 10 * n
        ensures RunCalls(n)[p] == Call(p / 10, StepHooks[p % 10])
      {
        assert RunCalls(n)[p] == b[p - 10 * (n - 1)];
      }
    }
  }

  /** No step past the last one reached is touched, and `onAfterLogStart` is never called. */
  lemma RunCallsStayWithinReach(n: nat)
    ensures forall c :: c in RunCalls(n) ==> c.index < n && c.hook != OnAfterLogStartCall
  {
    RunCallsLayout(n);
  }

  /** Every step reached is finished exactly once, after its `perform`, and no other step is. */
  lemma LogFinishOncePerStep(n: nat, i: nat)
    ensures forall p :: 0 <= p < |RunCalls(n)| ==>
      (RunCalls(n)[p] == Call(i, LogFinishCall) <==> i < n && p == 10 * i + 8)
    ensures forall p :: 0 <= p < |RunCalls(n)| ==>
      (RunCalls(n)[p] == Call(i, PerformCall) <==> i < n && p == 10 * i + 6)
  {
    RunCallsLayout(n);
  }

  /** Every step reached gets `onBeforeLogStart` twice: just before and just after `logStart`. */
  lemma BeforeLogStartTwicePerStep(n: nat, i: nat)
    ensures forall p :: 0 <= p < |RunCalls(n)| ==>
      (RunCalls(n)[p] == Call(i, OnBeforeLogStartCall) <==> i < n && (p == 10 * i + 3 || p == 10 * i + 5))
    ensures forall p :: 0 <= p < |RunCalls(n)| ==>
      (RunCalls(n)[p] == Call(i, LogStartCall) <==> i < n && p == 10 * i + 4)
  {
    RunCallsLayout(n);
  }

  /** The shared data after the given steps wrote into it, in order. */
  function SharedAfter(init: map<string, PhpValue>, writes: seq<map<string, PhpValue>>): map<string, PhpValue> {
    if writes == [] then init else SharedAfter(init, writes[..|writes| - 1]) + writes[|writes| - 1]
  }

  /** One more step: its writes land on what the earlier steps left, overriding equal keys. */
  lemma SharedAfterStep(init: map<string, PhpValue>, writes: seq<map<string, PhpValue>>, i: nat)
    requires i < |writes|
    ensures SharedAfter(init, writes[..i + 1]) == SharedAfter(init, writes[..i]) + writes[i]
  {
    assert writes[..i + 1][..i] == writes[..i];
  }

  /** What each step wrote, in order. */
  function Writes(steps: seq<Entry>): (r: seq<map<string, PhpValue>>)
    requires AllSteps(steps)
    ensures |r| == |steps| && forall i :: 0 <= i < |steps| ==> r[i] == steps[i].step.action.writes
  {
    seq(|steps|, i requires 0 <= i < |steps| => steps[i].step.action.writes)
  }

  /**
   * A value step `i` writes is what every later step sees under that key, until a
   * step in between writes the key again.
   */
  lemma {:induction false} WriteVisibleLater(init: map<string, PhpValue>, writes: seq<map<string, PhpValue>>, i: nat, n: nat, key: string)
    requires i < n <= |writes|
    requires key in writes[i]
    requires forall j :: i < j < n ==> key !in writes[j]
    ensures key in SharedAfter(init, writes[..n]) && SharedAfter(init, writes[..n])[key] == writes[i][key]
  {
    assert writes[..n][..n - 1] == writes[..n - 1];
    if n - 1 > i {
      WriteVisibleLater(init, writes, i, n - 1, key);
    }
  }

  /** How the run loop describes a step-scoped stop: only "failed" and "skipped" are told apart from success. */
  function StopLabelOf(status: Status): (r: StopLabel)
    ensures r == FailedLabel <==> status == Failed
    ensures r == SkippedLabel <==> status == Skipped
    ensures r == SuccessLabel <==> status == Unset || status == Finished
  {
    match status
    case Failed => FailedLabel
    case Skipped => SkippedLabel
    case _ => SuccessLabel
  }

  /** The record the run loop's catch clauses log for an outcome, with the step's status at that point. */
  function HandlerRecords(o: Option<Thrown>, status: Status): (r: seq<Record>)
    ensures |r| == if o.None? then 0 else 1
    ensures |r| == 1 ==> (r[0].level == Alert <==> Breaks(o) && !o.value.StopSync?)
    ensures o.Some? && o.value.StopStep? ==> r == [Record(Info, StepStopped(StopLabelOf(status), o.value.message))]
    ensures o.Some? && o.value.StopSync? ==> r == [Record(Info, StopSyncRequested(o.value.message))]
    ensures o.Some? && o.value.AnException? ==> r == [Record(Alert, UnhandledException(o.value.exceptionClass, o.value.message))]
    ensures o.Some? && o.value.AnError? ==> r == [Record(Alert, UnhandledThrowable(o.value.exceptionClass, o.value.message))]
  {
    match o
    case None => []
    case Some(StopStep(m)) => [Record(Info, StepStopped(StopLabelOf(status), m))]
    case Some(StopSync(m)) => [Record(Info, StopSyncRequested(m))]
    case Some(AnException(c, m)) => [Record(Alert, UnhandledException(c, m))]
    case Some(AnError(c, m)) => [Record(Alert, UnhandledThrowable(c, m))]
  }

  /** What `logStart` logs. */
  function StartRecords(name: string): seq<Record> {
    [Record(Info, Separator), Record(Info, StepStarted(name))]
  }
}
