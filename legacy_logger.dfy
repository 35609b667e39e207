/**
 * The older, stand-alone logger at the top of the repository (`logger.py`).
 * Its lines carry colour codes but no level token; its path is checked only
 * by the `output_file` setter; and its singleton rule lives in `__new__`,
 * which hands back the shared object, after which `__init__` runs on it
 * again with the new arguments.
 */
module LegacyLogger {
  import opened Results
  import opened Text
  import opened Errors
  import opened Files
  import opened Levels
  import Ansi

  /**
   * The line `_write` appends: dim time, bright separator, normal weight,
   * the coloured message, a full reset, then the newline.
   */
  function LegacyLine(time: Timestamp, content: string): (line: string)
    ensures |line| > |Ansi.Dim| && line[..|Ansi.Dim|] == Ansi.Dim && line[|line| - 1] == '\n'
  {
    Ansi.Dim + time + Ansi.Bright + " - " + Ansi.Normal + content + Ansi.ResetAll + "\n"
  }

  /** The colour each logging method puts in front of its message. */
  function Color(c: LogCall): (code: string)
    ensures |code| == 5 && code[..2] == "\U{1B}[" && code[4] == 'm'
  {
    match c
    case ErrorCall => Ansi.Red
    case WarnCall => Ansi.Yellow
    case InfoCall => Ansi.Blue
    case DebugCall => Ansi.White
  }

  /**
   * `level.upper()` when it is a level name. Otherwise the code raises
   * `LogLevelDoesNotExist`, a name `errors.py` does not define, so what
   * escapes is a `NameError` for it.
   */
  function InitLevel(level: string): (r: Result<string, Error>)
    ensures r.Ok? <==> Canonical(level).Some?
    ensures r.Ok? ==> r.value in LevelRanks && r.value == Upper(level)
    ensures r.Err? ==> r.error == NameError("LogLevelDoesNotExist")
  {
    match Canonical(level)
    case Some(l) => Ok(l)
    case None => Err(NameError("LogLevelDoesNotExist"))
  }

  /** Where the `"local"` shortcut of the `output_file` setter points: `output.log` beside the module. */
  function LocalPath(moduleDir: string): string {
    moduleDir + "/output.log"
  }

  /**
   * The checks the `output_file` setter runs on any value but `"local"`.
   * Nothing catches a `PermissionError` from `is_dir`, and the parent is
   * checked for search (`X_OK`) permission.
   */
  function CheckPath(path: string, facts: PathFacts): (r: Outcome<Error>)
    ensures r.Pass? ==> facts.fileIsDir == No && facts.dirAccess
    ensures r.Fail? && !IsPathError(r.error) ==> r.error.PermissionError?
  {
    match facts.fileIsDir
    case Denied => Fail(PermissionError(path))
    case Yes => Fail(LogFileIsADirectory(path))
    case No =>
      match facts.dirIsDir
      case Denied => Fail(PermissionError(facts.dir))
      case No => Fail(LogPathDoesNotExist(facts.dir))
      case Yes => if facts.dirAccess then Pass else Fail(LogPathInsufficientPermissions(facts.dir))
  }

  /**
   * The setter accepts a path iff it is not a directory and its parent is a
   * searchable directory; the errors it raises name the path only when the
   * path is itself a directory or could not be examined.
   */
  lemma CheckPathDecides(path: string, facts: PathFacts)
    ensures CheckPath(path, facts).Pass? <==> facts.fileIsDir == No && facts.dirIsDir == Yes && facts.dirAccess
    ensures CheckPath(path, facts).Fail? && CheckPath(path, facts).error.path != facts.dir ==>
      CheckPath(path, facts).error.path == path && facts.fileIsDir != No
    ensures CheckPath(path, facts).Fail? && !IsPathError(CheckPath(path, facts).error) ==>
      CheckPath(path, facts).error.PermissionError?
  {
  }

  /** The file the `output_file` setter settles on, if it accepts the value. */
  function SetterTarget(value: string, moduleDir: string, facts: PathFacts): Result<string, Error> {
    if value == "local" then Ok(LocalPath(moduleDir))
    else if CheckPath(value, facts).Fail? then Err(CheckPath(value, facts).error)
    else Ok(value)
  }

  /** A legacy line for a message without newlines is one complete row. */
  lemma LegacyLineIsCompleteRow(time: Timestamp, content: string)
    requires '\n' !in content
    ensures IsCompleteRow(LegacyLine(time, content))
  {
    var line := LegacyLine(time, content);
    var head := Ansi.Dim + time + Ansi.Bright + " - " + Ansi.Normal;
    TimestampHasNoNewline(time);
    assert |head| == 28;
    assert line == head + content + Ansi.ResetAll + "\n";
    forall i | 0 <= i < |line| - 1
      ensures line[i] != '\n'
    {
      if i < 4 {
        assert line[i] == Ansi.Dim[i];
      } else if i < 16 {
        assert line[i] == time[i - 4];
      } else if i < 20 {
        assert line[i] == Ansi.Bright[i - 16];
      } else if i < 23 {
        assert line[i] == " - "[i - 20];
      } else if i < 28 {
        assert line[i] == Ansi.Normal[i - 23];
      } else if i < 28 + |content| {
        assert line[i] == content[i - 28];
      } else {
        assert line[i] == Ansi.ResetAll[i - 28 - |content|];
      }
    }
  }

  /** The message and its time can be read back from a legacy line. */
  lemma LegacyLineInjective(t1: Timestamp, c1: string, t2: Timestamp, c2: string)
    requires LegacyLine(t1, c1) == LegacyLine(t2, c2)
    ensures t1 == t2 && c1 == c2
  {
    var line := LegacyLine(t1, c1);
    assert line == Ansi.Dim + t1 + (Ansi.Bright + " - " + Ansi.Normal + c1 + Ansi.ResetAll + "\n");
    assert line == Ansi.Dim + t2 + (Ansi.Bright + " - " + Ansi.Normal + c2 + Ansi.ResetAll + "\n");
    assert t1 == line[4..16] == t2;
    assert line[28..|line| - 5] == c1;
    assert line[28..|line| - 5] == c2;
  }

  class Logger {
    var outputFile: string
    var level: Option<string>
    var enabled: Option<bool>
    const disk: Disk

    /** Fully initialised: every attribute `__init__` sets is there, and the level is a name. */
    ghost predicate Valid()
      reads this
    {
      level.Some? && level.value in LevelRanks && enabled.Some?
    }

    /** `object.__new__(cls)`: an object none of whose attributes are set yet. */
    constructor Blank(disk: Disk)
      ensures level == None && enabled == None && this.disk == disk
    {
      outputFile := [];
      level := None;
      enabled := None;
      this.disk := disk;
    }

    /**
     * `__init__`: the path is stored first and unchecked, then the level is
     * checked, then stored with `enabled`. A bad level leaves the new path in
     * place and the rest as it was.
     */
    method Init(file: Option<string> := None, level: string := "INFO", enabled: bool := true, defaultPath: string)
      returns (r: Outcome<Error>)
      modifies this`outputFile, this`level, this`enabled
      ensures outputFile == (if file.Some? then file.value else defaultPath)
      ensures InitLevel(level).Err? ==>
        r == Fail(InitLevel(level).error) && this.level == old(this.level) && this.enabled == old(this.enabled)
      ensures InitLevel(level).Ok? ==>
        r == Pass && Valid() && this.level == Some(Upper(level)) && this.enabled == Some(enabled)
    {
      if file.None? {
        outputFile := defaultPath;
      } else {
        outputFile := file.value;
      }
      var checked := InitLevel(level);
      if checked.Err? {
        return Fail(checked.error);
      }
      this.level := Some(checked.value);
      this.enabled := Some(enabled);
      r := Pass;
    }

    /**
     * The `output_file` setter: `"local"` skips every check; otherwise a
     * failed check raises before anything changes. Once the path is stored,
     * an existing file there is emptied.
     */
    method SetOutputFile(value: string, moduleDir: string, facts: PathFacts) returns (r: Outcome<Error>)
      modifies this`outputFile, disk
      ensures SetterTarget(value, moduleDir, facts).Err? ==>
        && r == Fail(SetterTarget(value, moduleDir, facts).error)
        && outputFile == old(outputFile) && disk.files == old(disk.files)
      ensures SetterTarget(value, moduleDir, facts).Ok? ==>
        var path := SetterTarget(value, moduleDir, facts).value;
        && r == Pass && outputFile == path
        && disk.files == (if path in old(disk.files) then old(disk.files)[path := ""] else old(disk.files))
    {
      var path: string;
      if value == "local" {
        path := LocalPath(moduleDir);
      } else {
        var checked := CheckPath(value, facts);
        if checked.Fail? {
          return Fail(checked.error);
        }
        path := value;
      }
      outputFile := path;
      if path in disk.files {
        ClearFile();
      }
      r := Pass;
    }

    /** The `level` setter: same check as `__init__`, and nothing changes on failure. */
    method SetLevel(value: string) returns (r: Outcome<Error>)
      requires Valid()
      modifies this`level
      ensures Valid()
      ensures InitLevel(value).Ok? ==> r == Pass && level == Some(InitLevel(value).value)
      ensures InitLevel(value).Err? ==> r == Fail(InitLevel(value).error) && level == old(level)
    {
      var checked := InitLevel(value);
      if checked.Err? {
        return Fail(checked.error);
      }
      level := Some(checked.value);
      r := Pass;
    }

    /** `_clear_file`: `open(path, "w")`, which also creates the file. */
    method ClearFile()
      modifies disk
      ensures disk.files == old(disk.files)[outputFile := ""]
    {
      disk.Truncate(outputFile);
    }

    /** `_is_valid_level`. */
    function IsValidLevel(name: string): (ok: bool)
      reads this
      requires Valid() && name in LevelRanks
      ensures forall c :: LevelName(c) == name ==> (ok <==> Emits(true, level.value, c))
      ensures name == "ERROR" ==> ok
    {
      LevelRanks[level.value] <= LevelRanks[name]
    }

    /** The files after one logging call: one more legacy line at the end of the log, or nothing. */
    ghost function Logged(files: map<string, string>, c: LogCall, time: Timestamp, message: string): map<string, string>
      reads this
      requires Valid()
    {
      if Emits(enabled.value, level.value, c) then
        files[outputFile := (if outputFile in files then files[outputFile] else "") + LegacyLine(time, Color(c) + message)]
      else files
    }

    /** `_write`: when enabled, append one line to the current output file. */
    method Write(time: Timestamp, content: string)
      requires Valid()
      modifies disk
      ensures disk.files == if enabled.value then old(disk.files)[outputFile := old(disk.Text(outputFile)) + LegacyLine(time, content)]
                            else old(disk.files)
    {
      if !enabled.value {
        return;
      }
      disk.Append(outputFile, LegacyLine(time, content));
    }

    method Error(time: Timestamp, message: string)
      requires Valid()
      modifies disk
      ensures disk.files == Logged(old(disk.files), ErrorCall, time, message)
    {
      Write(time, Ansi.Red + message);
    }

    method Warn(time: Timestamp, message: string)
      requires Valid()
      modifies disk
      ensures disk.files == Logged(old(disk.files), WarnCall, time, message)
    {
      if !IsValidLevel("WARNING") {
        return;
      }
      Write(time, Ansi.Yellow + message);
    }

    method Info(time: Timestamp, message: string)
      requires Valid()
      modifies disk
      ensures disk.files == Logged(old(disk.files), InfoCall, time, message)
    {
      if !IsValidLevel("INFO") {
        return;
      }
      Write(time, Ansi.Blue + message);
    }

    method Debug(time: Timestamp, message: string)
      requires Valid()
      modifies disk
      ensures disk.files == Logged(old(disk.files), DebugCall, time, message)
    {
      if !IsValidLevel("DEBUG") {
        return;
      }
      Write(time, Ansi.White + message);
    }
  }

  /** The class object `Logger` with its private `__instance` slot. */
  class LoggerClass {
    var instance: Logger?
    const disk: Disk

    constructor (disk: Disk)
      ensures instance == null && this.disk == disk
    {
      instance := null;
      this.disk := disk;
    }

    /**
     * `Logger(file, level, enabled, singleton)`: `__new__` makes a fresh
     * object, and stores it as the instance, unless a singleton is asked for
     * and one is stored; then `__init__` runs on the object returned. The
     * object stays stored even when `__init__` raises, and an object stored
     * before a non-singleton call is left as it was.
     */
    method Call(file: Option<string> := None, level: string := "INFO", enabled: bool := true, singleton: bool := false,
                defaultPath: string)
      returns (r: Result<Logger, Error>)
      requires instance != null ==> instance.disk == disk
      modifies this, instance
      ensures instance != null && instance.disk == disk
      ensures singleton && old(instance) != null ==> instance == old(instance)
      ensures !singleton || old(instance) == null ==> fresh(instance)
      ensures !singleton && old(instance) != null ==> unchanged(old(instance))
      ensures instance.outputFile == (if file.Some? then file.value else defaultPath)
      ensures InitLevel(level).Err? ==> r == Err(InitLevel(level).error)
      ensures InitLevel(level).Err? && fresh(instance) ==> instance.level == None && instance.enabled == None
      ensures InitLevel(level).Err? && !fresh(instance) ==>
        instance.level == old(instance.level) && instance.enabled == old(instance.enabled)
      ensures InitLevel(level).Ok? ==>
        && r.Ok? && r.value == instance && instance.Valid()
        && instance.level == Some(Upper(level)) && instance.enabled == Some(enabled)
    {
      if (singleton && instance == null) || !singleton {
        instance := new Logger.Blank(disk);
      }
      var outcome := instance.Init(file, level, enabled, defaultPath);
      if outcome.Fail? {
        return Err(outcome.error);
      }
      r := Ok(instance);
    }
  }
}
