/**
 * What the engine touches outside itself, as state it reads and changes: the log
 * directories and their files, the callbacks registered with
 * `register_shutdown_function`, the outgoing mail, the two SQL query logs
 * (the Bitrix connection tracker and the Illuminate query log), the clocks and
 * the memory readings.
 */
module Platform {
  import opened PhpValues

  /** A file addressed by its directory and its name; its path is `dir + "/" + file`. */
  datatype FilePath = FilePath(dir: string, file: string) {
    function Str(): string {
      dir + "/" + file
    }
  }

  datatype FileInfo = FileInfo(mtime: int, content: string)

  /** One entry of a query log: the query text and its execution time. */
  datatype Query = Query(sql: string, time: real)

  datatype MailBody = LogText(text: string) | LogUnavailable(logPath: string)

  /** A plain-text mail: recipients joined by commas, sender, subject parts and body. */
  datatype Mail = Mail(to: string, from: string, siteName: string, env: string, syncName: string, body: MailBody)

  /** Whether the file `p` is among the directories' files (`file_exists`). */
  predicate Present(dirs: map<string, map<string, FileInfo>>, p: FilePath) {
    p.dir in dirs && p.file in dirs[p.dir]
  }

  class Host {
    /** Directories and, for each, its files by name. */
    var dirs: map<string, map<string, FileInfo>>
    /** Files whose removal is registered to run when the process shuts down. */
    var shutdownUnlinks: seq<FilePath>
    var outbox: seq<Mail>
    var bitrixTracking: bool
    var bitrixQueries: seq<Query>
    /** Whether the Illuminate database layer is in use in this application. */
    const illuminateInUse: bool
    var illuminateLogging: bool
    var illuminateLog: seq<Query>
    /** `microtime(true)`. */
    var clock: real
    /** `time()`. */
    const unixTime: int
    /** `memory_get_usage(true)` and `memory_get_peak_usage(true)`. */
    const memoryUsage: nat
    const peakMemoryUsage: nat
    /** How long `SET wait_timeout=28800` takes on the Bitrix and on the Illuminate connection. */
    const bitrixSetupTime: real
    const illuminateSetupTime: real
    /** The site options `site_name` and `email_from`. */
    const siteName: string
    const emailFromOption: string

    constructor (illuminateInUse: bool, siteName: string, emailFromOption: string, unixTime: int, memoryUsage: nat, peakMemoryUsage: nat,
                 bitrixSetupTime: real, illuminateSetupTime: real)
      ensures this.illuminateInUse == illuminateInUse
      ensures this.unixTime == unixTime && this.memoryUsage == memoryUsage && this.peakMemoryUsage == peakMemoryUsage
      ensures this.bitrixSetupTime == bitrixSetupTime && this.illuminateSetupTime == illuminateSetupTime
      ensures this.siteName == siteName && this.emailFromOption == emailFromOption
      ensures dirs == map[] && shutdownUnlinks == [] && outbox == []
      ensures !bitrixTracking && bitrixQueries == [] && !illuminateLogging && illuminateLog == []
    {
      this.illuminateInUse := illuminateInUse;
      this.siteName := siteName;
      this.emailFromOption := emailFromOption;
      dirs, shutdownUnlinks, outbox := map[], [], [];
      bitrixTracking, bitrixQueries := false, [];
      illuminateLogging, illuminateLog := false, [];
      this.unixTime, this.memoryUsage, this.peakMemoryUsage := unixTime, memoryUsage, peakMemoryUsage;
      this.bitrixSetupTime, this.illuminateSetupTime := bitrixSetupTime, illuminateSetupTime;
      clock := 0.0;
    }

    predicate Exists(p: FilePath)
      reads this`dirs
    {
      Present(dirs, p)
    }

    /** `file_get_contents`: the contents, or None (PHP's false) when the file is missing. */
    function Contents(p: FilePath): Option<string>
      reads this`dirs
    {
      if Exists(p) then Some(dirs[p.dir][p.file].content) else None
    }

    /** `mkdir($dir, 0755, true)` when the directory does not exist yet. */
    method MakeDirectory(dir: string)
      modifies this`dirs
      ensures dirs == if dir in old(dirs) then old(dirs) else old(dirs)[dir := map[]]
    {
      if dir !in dirs {
        dirs := dirs[dir := map[]];
      }
    }

    /**
     * `fopen($path, "w")` followed by `fclose`: creates an empty file stamped with the
     * current time. Fails, with nothing created, when the directory is missing.
     */
    method CreateEmptyFile(p: FilePath) returns (created: bool)
      modifies this`dirs
      ensures created == (p.dir in old(dirs))
      ensures created ==> dirs == old(dirs)[p.dir := old(dirs)[p.dir][p.file := FileInfo(unixTime, "")]]
      ensures !created ==> dirs == old(dirs)
    {
      created := p.dir in dirs;
      if created {
        dirs := dirs[p.dir := dirs[p.dir][p.file := FileInfo(unixTime, "")]];
      }
    }

    /** `unlink`: removes the file if it exists; otherwise only a warning, nothing changes. */
    method Unlink(p: FilePath)
      modifies this`dirs
      ensures dirs == if old(Exists(p)) then old(dirs)[p.dir := old(dirs)[p.dir] - {p.file}] else old(dirs)
      ensures !Exists(p)
    {
      if Exists(p) {
        dirs := dirs[p.dir := dirs[p.dir] - {p.file}];
      }
    }

    /** `register_shutdown_function(fn ($f) => unlink($f), $path)`. */
    method RegisterShutdownUnlink(p: FilePath)
      modifies this`shutdownUnlinks
      ensures shutdownUnlinks == old(shutdownUnlinks) + [p]
    {
      shutdownUnlinks := shutdownUnlinks + [p];
    }

    /** Process end: every registered removal runs, in registration order. */
    method Shutdown()
      modifies this`dirs
      ensures forall p :: p in shutdownUnlinks ==> !Exists(p)
      ensures forall p :: Exists(p) ==> old(Exists(p))
      ensures forall p :: old(Exists(p)) && p !in shutdownUnlinks ==> Exists(p) && dirs[p.dir][p.file] == old(dirs[p.dir][p.file])
      ensures dirs.Keys == old(dirs.Keys)
    {
      var i := 0;
      while i < |shutdownUnlinks|
        invariant 0 <= i <= |shutdownUnlinks|
        invariant forall j :: 0 <= j < i ==> !Exists(shutdownUnlinks[j])
        invariant forall p :: Exists(p) ==> old(Exists(p))
        invariant forall p :: old(Exists(p)) && p !in shutdownUnlinks ==> Exists(p) && dirs[p.dir][p.file] == old(dirs[p.dir][p.file])
        invariant dirs.Keys == old(dirs.Keys)
      {
        Unlink(shutdownUnlinks[i]);
        i := i + 1;
      }
    }

    method SendMail(m: Mail)
      modifies this`outbox
      ensures outbox == old(outbox) + [m]
    {
      outbox := outbox + [m];
    }

    /** The queries a step runs reach each log only while that log is enabled. */
    method RunQueries(bitrix: seq<Query>, orm: seq<Query>)
      modifies this`bitrixQueries, this`illuminateLog
      ensures bitrixQueries == old(bitrixQueries) + (if bitrixTracking then bitrix else [])
      ensures illuminateLog == old(illuminateLog) + (if illuminateLogging then orm else [])
    {
      if bitrixTracking {
        bitrixQueries := bitrixQueries + bitrix;
      }
      if illuminateLogging {
        illuminateLog := illuminateLog + orm;
      }
    }

    /** Time passes while a step works. */
    method Elapse(duration: real)
      modifies this`clock
      ensures clock == old(clock) + duration
    {
      clock := clock + duration;
    }

    /** `setTracker(null)` then `startTracker(true)`: a fresh, empty tracker that records. */
    method StartBitrixTracker()
      modifies this`bitrixTracking, this`bitrixQueries
      ensures bitrixTracking && bitrixQueries == []
    {
      bitrixTracking, bitrixQueries := true, [];
    }

    /** `getTracker()->reset()`. */
    method ResetBitrixTracker()
      modifies this`bitrixQueries
      ensures bitrixQueries == []
    {
      bitrixQueries := [];
    }

    /** `Capsule\Manager::enableQueryLog()`. */
    method EnableIlluminateLog()
      modifies this`illuminateLogging
      ensures illuminateLogging
    {
      illuminateLogging := true;
    }

    /** `Capsule\Manager::flushQueryLog()`. */
    method FlushIlluminateLog()
      modifies this`illuminateLog
      ensures illuminateLog == []
    {
      illuminateLog := [];
    }
  }
}
