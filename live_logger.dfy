/**
 * The write side of `livelog` (`livelog/logger.py`): a `Logger` that checks
 * its path, optionally empties the file, and appends one fixed-format line
 * per accepted call; and the `Singleton` metaclass behind `LoggerSingleton`.
 */
module LiveLogger {
  import opened Results
  import opened Text
  import opened Errors
  import opened Files
  import opened Levels

  /** The four-character token `_write` is given by each logging method. */
  function Token(c: LogCall): string {
    match c
    case ErrorCall => "ERR!"
    case WarnCall => "WARN"
    case InfoCall => "INFO"
    case DebugCall => "DBUG"
  }

  /** The line `_write` appends: token, `" | "`, time, `" - "`, content, newline. */
  function LogLine(token: string, time: Timestamp, content: string): (line: string)
    ensures |line| == |token| + |time| + |content| + 7 && line[|line| - 1] == '\n'
  {
    token + " | " + time + " - " + content + "\n"
  }

  /** The fields of a line stand at fixed columns, so they can be read back by position. */
  lemma LogLineColumns(token: string, time: Timestamp, content: string)
    requires |token| == 4
    ensures var line := LogLine(token, time, content);
      && |line| == 23 + |content|
      && line[..4] == token && line[4..7] == " | " && line[7..19] == time
      && line[19..22] == " - " && line[22..] == content + "\n"
  {
    var line := LogLine(token, time, content);
    assert line == token + " | " + time + " - " + (content + "\n");
  }

  /** Different calls never produce the same line. */
  lemma LogLineInjective(t1: string, time1: Timestamp, c1: string, t2: string, time2: Timestamp, c2: string)
    requires |t1| == 4 && |t2| == 4
    requires LogLine(t1, time1, c1) == LogLine(t2, time2, c2)
    ensures t1 == t2 && time1 == time2 && c1 == c2
  {
    LogLineColumns(t1, time1, c1);
    LogLineColumns(t2, time2, c2);
    var line := LogLine(t1, time1, c1);
    assert c1 == line[22..|line| - 1] == c2;
  }

  /** A line written for a message without newlines is one complete row of the file. */
  lemma LogLineIsCompleteRow(c: LogCall, time: Timestamp, content: string)
    requires '\n' !in content
    ensures IsCompleteRow(LogLine(Token(c), time, content))
  {
    var line := LogLine(Token(c), time, content);
    LogLineColumns(Token(c), time, content);
    TimestampHasNoNewline(time);
    forall i | 0 <= i < |line| - 1
      ensures line[i] != '\n'
    {
      if i >= 22 {
        assert line[i] == line[22..][i - 22] == content[i - 22];
      } else if 7 <= i < 19 {
        assert line[i] == line[7..19][i - 7] == time[i - 7];
      } else if i < 4 {
        assert line[i] == Token(c)[i];
      } else if i < 7 {
        assert line[i] == " | "[i - 4];
      } else {
        assert line[i] == " - "[i - 19];
      }
    }
  }

  /** The level given to the constructor or the `level` setter, upper-cased, or the error it raises. */
  function NormalizeLevel(level: string): (r: Result<string, Error>)
    ensures r.Ok? <==> Canonical(level).Some?
    ensures r.Ok? ==> r.value in LevelRanks && r.value == Upper(level)
    ensures r.Err? ==> r.error == LogLevelDoesNotExist(Upper(level))
  {
    match Canonical(level)
    case Some(l) => Ok(l)
    case None => Err(LogLevelDoesNotExist(Upper(level)))
  }

  /**
   * The checks of `_verify_file`, in order. A `PermissionError` from either
   * `is_dir` is turned into `LogPathInsufficientPermissions` on the parent.
   */
  function VerifyFile(path: string, facts: PathFacts): (r: Outcome<Error>)
    ensures r.Pass? ==> facts.fileIsDir == No && facts.dirAccess
    ensures r.Fail? ==> IsPathError(r.error)
  {
    match facts.fileIsDir
    case Denied => Fail(LogPathInsufficientPermissions(facts.dir))
    case Yes => Fail(LogFileIsADirectory(path))
    case No =>
      match facts.dirIsDir
      case Denied => Fail(LogPathInsufficientPermissions(facts.dir))
      case No => Fail(LogPathDoesNotExist(facts.dir))
      case Yes => if facts.dirAccess then Pass else Fail(LogPathInsufficientPermissions(facts.dir))
  }

  /**
   * A path passes iff it is not a directory and its parent is an accessible
   * directory; every failure is one of the `errors.py` errors; a directory
   * path is reported first, under its own name, and every other failure
   * names the parent.
   */
  lemma VerifyFileDecides(path: string, facts: PathFacts)
    ensures VerifyFile(path, facts).Pass? <==> facts.fileIsDir == No && facts.dirIsDir == Yes && facts.dirAccess
    ensures VerifyFile(path, facts).Fail? ==> IsPathError(VerifyFile(path, facts).error)
    ensures facts.fileIsDir == Yes ==> VerifyFile(path, facts) == Fail(LogFileIsADirectory(path))
    ensures facts.fileIsDir != Yes && VerifyFile(path, facts).Fail? ==> VerifyFile(path, facts).error.path == facts.dir
  {
  }

  /** The file a logger writes to: the given path, else the platform default. */
  function PathOf(file: Option<string>, defaultPath: string): string {
    if file.Some? then file.value else defaultPath
  }

  /** The files after `_clear_file`: emptied iff `erase` and a regular file is there. */
  function Cleared(files: map<string, string>, erase: bool, path: string): map<string, string> {
    if erase && path in files then files[path := ""] else files
  }

  /** What constructing a logger raises, if anything: validation first, then the level. */
  function CreateError(path: string, level: string, facts: PathFacts): Option<Error> {
    match VerifyFile(path, facts)
    case Fail(e) => Some(e)
    case Pass => if NormalizeLevel(level).Err? then Some(NormalizeLevel(level).error) else None
  }

  /** The files after constructing a logger: validation passed means the clearing ran, whatever the level. */
  function FilesAfterCreate(files: map<string, string>, path: string, erase: bool, facts: PathFacts): map<string, string> {
    if VerifyFile(path, facts).Pass? then Cleared(files, erase, path) else files
  }

  class Logger {
    const path: string
    const enabled: bool
    const erase: bool
    var level: string
    const disk: Disk

    ghost predicate Valid()
      reads this
    {
      level in LevelRanks
    }

    /** The object as `__init__` leaves it once every check has passed. */
    constructor (path: string, level: string, enabled: bool, erase: bool, disk: Disk)
      requires level in LevelRanks
      ensures Valid()
      ensures this.path == path && this.level == level && this.enabled == enabled
      ensures this.erase == erase && this.disk == disk
    {
      this.path := path;
      this.level := level;
      this.enabled := enabled;
      this.erase := erase;
      this.disk := disk;
    }

    /** `Logger(file, level, enabled, erase)`, with the same defaults. */
    static method Create(file: Option<string> := None, level: string := "DEBUG", enabled: bool := true, erase: bool := true,
                         defaultPath: string, facts: PathFacts, disk: Disk)
      returns (r: Result<Logger, Error>)
      modifies disk
      ensures disk.files == FilesAfterCreate(old(disk.files), PathOf(file, defaultPath), erase, facts)
      ensures CreateError(PathOf(file, defaultPath), level, facts).Some? ==>
        r == Err(CreateError(PathOf(file, defaultPath), level, facts).value)
      ensures CreateError(PathOf(file, defaultPath), level, facts).None? ==>
        && r.Ok? && fresh(r.value) && r.value.Valid()
        && r.value.path == PathOf(file, defaultPath) && r.value.level == Upper(level)
        && r.value.enabled == enabled && r.value.erase == erase && r.value.disk == disk
    {
      var path := PathOf(file, defaultPath);
      var checked := VerifyFile(path, facts);
      if checked.Fail? {
        return Err(checked.error);
      }
      ClearFile(erase, path, disk);
      var normalized := NormalizeLevel(level);
      if normalized.Err? {
        return Err(normalized.error);
      }
      var logger := new Logger(path, normalized.value, enabled, erase, disk);
      r := Ok(logger);
    }

    /** `_clear_file`: empty the file iff `erase` is set and the file exists. */
    static method ClearFile(erase: bool, path: string, disk: Disk)
      modifies disk
      ensures disk.files == Cleared(old(disk.files), erase, path)
    {
      if !erase || path !in disk.files {
        return;
      }
      disk.Truncate(path);
    }

    /** The `level` setter: a bad name raises before anything is assigned. */
    method SetLevel(value: string) returns (r: Outcome<Error>)
      requires Valid()
      modifies this`level
      ensures Valid()
      ensures NormalizeLevel(value).Ok? ==> r == Pass && level == NormalizeLevel(value).value
      ensures NormalizeLevel(value).Err? ==> r == Fail(NormalizeLevel(value).error) && level == old(level)
    {
      var normalized := NormalizeLevel(value);
      if normalized.Err? {
        return Fail(normalized.error);
      }
      level := normalized.value;
      r := Pass;
    }

    /** `_is_valid_level`. */
    function IsValidLevel(name: string): (ok: bool)
      reads this
      requires Valid() && name in LevelRanks
      ensures forall c :: LevelName(c) == name ==> (ok <==> Emits(true, level, c))
      ensures name == "ERROR" ==> ok
    {
      LevelRanks[level] <= LevelRanks[name]
    }

    /** The files after one logging call: one more line at the end of the log, or nothing. */
    ghost function Logged(files: map<string, string>, c: LogCall, time: Timestamp, message: string): map<string, string>
      reads this
      requires Valid()
    {
      if Emits(enabled, level, c) then
        files[path := (if path in files then files[path] else "") + LogLine(Token(c), time, message)]
      else files
    }

    /**
     * A logging call writes iff its level passes; a write adds exactly one
     * line after the earlier text of the log, and no other file changes.
     */
    lemma LoggedAppendsOneLine(files: map<string, string>, c: LogCall, time: Timestamp, message: string)
      requires Valid()
      ensures var after := Logged(files, c, time, message);
        var before := if path in files then files[path] else "";
        && (after == files <==> !Emits(enabled, level, c))
        && (forall p :: p != path ==> (p in after <==> p in files) && (p in files ==> after[p] == files[p]))
        && (Emits(enabled, level, c) ==>
             && path in after && after[path][..|before|] == before
             && after[path][|before|..] == LogLine(Token(c), time, message))
    {
      var after := Logged(files, c, time, message);
      var before := if path in files then files[path] else "";
      if Emits(enabled, level, c) {
        var line := LogLine(Token(c), time, message);
        assert after[path] == before + line;
        assert |after[path]| > |before|;
        if path in files {
          assert after[path] != files[path];
        }
      }
    }

    /** `_write`: when enabled, append exactly one line; the earlier text is kept as a prefix. */
    method Write(token: string, time: Timestamp, content: string)
      modifies disk
      ensures disk.files == if enabled then old(disk.files)[path := old(disk.Text(path)) + LogLine(token, time, content)]
                            else old(disk.files)
    {
      if !enabled {
        return;
      }
      disk.Append(path, LogLine(token, time, content));
    }

    method Error(time: Timestamp, message: string)
      requires Valid()
      modifies disk
      ensures disk.files == Logged(old(disk.files), ErrorCall, time, message)
    {
      Write("ERR!", time, message);
    }

    method Warn(time: Timestamp, message: string)
      requires Valid()
      modifies disk
      ensures disk.files == Logged(old(disk.files), WarnCall, time, message)
    {
      if !IsValidLevel("WARNING") {
        return;
      }
      Write("WARN", time, message);
    }

    method Info(time: Timestamp, message: string)
      requires Valid()
      modifies disk
      ensures disk.files == Logged(old(disk.files), InfoCall, time, message)
    {
      if !IsValidLevel("INFO") {
        return;
      }
      Write("INFO", time, message);
    }

    method Debug(time: Timestamp, message: string)
      requires Valid()
      modifies disk
      ensures disk.files == Logged(old(disk.files), DebugCall, time, message)
    {
      if !IsValidLevel("DEBUG") {
        return;
      }
      Write("DBUG", time, message);
    }
  }

  /**
   * The `Singleton` metaclass: `_instances`, shared by every class built
   * with it, maps a class (here, its name) to its one instance.
   */
  class Singleton {
    var instances: map<string, Logger>

    constructor ()
      ensures instances == map[]
    {
      instances := map[];
    }

    /**
     * `cls(*args)`: the first call constructs and records the instance; every
     * later one returns it, ignoring its arguments and touching no file.
     */
    method Call(cls: string, file: Option<string> := None, level: string := "DEBUG", enabled: bool := true, erase: bool := true,
                defaultPath: string, facts: PathFacts, disk: Disk)
      returns (r: Result<Logger, Error>)
      modifies this, disk
      ensures cls in old(instances) ==>
        r == Ok(old(instances)[cls]) && instances == old(instances) && disk.files == old(disk.files)
      ensures cls !in old(instances) ==>
        disk.files == FilesAfterCreate(old(disk.files), PathOf(file, defaultPath), erase, facts)
      ensures cls !in old(instances) && CreateError(PathOf(file, defaultPath), level, facts).Some? ==>
        r == Err(CreateError(PathOf(file, defaultPath), level, facts).value) && instances == old(instances)
      ensures cls !in old(instances) && CreateError(PathOf(file, defaultPath), level, facts).None? ==>
        && r.Ok? && fresh(r.value) && instances == old(instances)[cls := r.value]
        && r.value.Valid() && r.value.path == PathOf(file, defaultPath) && r.value.level == Upper(level)
        && r.value.enabled == enabled && r.value.erase == erase && r.value.disk == disk
    {
      if cls !in instances {
        var created := Logger.Create(file, level, enabled, erase, defaultPath, facts, disk);
        if created.Err? {
          return created;
        }
        instances := instances[cls := created.value];
      }
      r := Ok(instances[cls]);
    }
  }
}
