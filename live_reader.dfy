/**
 * The live-tail reader of `livelog` (`livelog/reader.py`). A `Reader` keeps
 * a character cursor into one log file; on every change event it reads the
 * rows past the cursor (or the whole file again when the file has shrunk),
 * drops rows below the minimum level with a loop that deletes from the list
 * it is walking, colours the rest by their four-character level token and
 * prints them.
 */
module LiveReader {
  import opened Results
  import opened Text
  import opened Errors
  import opened Files
  import Ansi

  const LevelColors: map<string, string> :=
    map["ERR!" := Ansi.Red, "WARN" := Ansi.Yellow, "INFO" := Ansi.Blue, "DBUG" := Ansi.White]

  /** Long level names to stored tokens; `"WARN"` maps to `"WARNING"`, which has no rank. */
  const LongLevelToShort: map<string, string> :=
    map["ERROR" := "ERR!", "WARN" := "WARNING", "INFO" := "INFO", "DEBUG" := "DBUG"]

  const LevelRanks: map<string, int> := map["ERR!" := 3, "WARN" := 2, "INFO" := 1, "DBUG" := 0]

  /** The level given to `Reader`: upper-cased, looked up among the long names, stored as its token. */
  function ReaderLevel(level: string): (r: Result<string, Error>)
    ensures r.Ok? ==> r.value in LevelRanks || r.value == "WARNING"
    ensures r.Err? ==> r.error == LogLevelDoesNotExist(Upper(level))
  {
    var l := Upper(level);
    if l in LongLevelToShort then Ok(LongLevelToShort[l]) else Err(LogLevelDoesNotExist(l))
  }

  /**
   * Exactly the four long names are accepted, ignoring case; every accepted
   * name but `WARN` yields a ranked token, and `WARN` yields `"WARNING"`,
   * while the name `"WARNING"` itself is refused.
   */
  lemma ReaderLevelAccepts(level: string)
    ensures ReaderLevel(level).Ok? <==> Upper(level) in {"ERROR", "WARN", "INFO", "DEBUG"}
    ensures ReaderLevel(level).Ok? ==> (ReaderLevel(level).value in LevelRanks <==> Upper(level) != "WARN")
    ensures Upper(level) == "WARN" ==> ReaderLevel(level) == Ok("WARNING")
    ensures Upper(level) == "WARNING" ==> ReaderLevel(level) == Err(LogLevelDoesNotExist("WARNING"))
  {
  }

  /**
   * The checks of `verify_file`, in order. Nothing catches a
   * `PermissionError` from `is_dir` here, so it escapes as it is.
   */
  function VerifyFile(path: string, facts: PathFacts): (r: Outcome<Error>)
    ensures r.Pass? ==> facts.fileIsDir == No && facts.dirAccess
    ensures r.Fail? && !IsPathError(r.error) ==> r.error.PermissionError?
  {
    match facts.fileIsDir
    case Denied => Fail(PermissionError(path))
    case Yes => Fail(LogFileIsADirectory(path))
    case No =>
      match facts.dirIsDir
      case Denied => Fail(PermissionError(facts.dir))
      case No => Fail(LogPathDoesNotExist(facts.dir))
      case Yes => if facts.dirAccess then Pass else Fail(LogPathInsufficientPermissions(facts.dir))
  }

  /**
   * The reader accepts a path iff it is not a directory and its parent is a
   * readable directory; a path that could not be examined escapes as a raw
   * `PermissionError`, every other failure is an `errors.py` error.
   */
  lemma VerifyFileDecides(path: string, facts: PathFacts)
    ensures VerifyFile(path, facts).Pass? <==> facts.fileIsDir == No && facts.dirIsDir == Yes && facts.dirAccess
    ensures VerifyFile(path, facts).Fail? ==>
      (IsPathError(VerifyFile(path, facts).error) <==>
       facts.fileIsDir != Denied && (facts.fileIsDir == Yes || facts.dirIsDir != Denied))
    ensures facts.fileIsDir == Yes ==> VerifyFile(path, facts) == Fail(LogFileIsADirectory(path))
  {
  }

  /** `line[:4]`, the level token of a row. */
  function Prefix(line: string): string {
    Slice(line, 0, 4)
  }

  /**
   * `color_line`: the timestamp columns in dim, a bright separator, then the
   * message in the level's colour; the level token itself is not shown. An
   * unknown token raises `KeyError`.
   */
  function ColorLine(line: string): (r: Result<string, Error>)
    ensures r.Ok? <==> Prefix(line) in LevelColors
    ensures r.Err? ==> r.error == KeyError(Prefix(line))
  {
    var level := Prefix(line);
    if level in LevelColors then
      Ok(Ansi.Dim + Slice(line, 7, 19) + Ansi.Bright + " - " + Ansi.Normal + LevelColors[level] + From(line, 22) + Ansi.ResetAll)
    else
      Err(KeyError(level))
  }

  /** Row `k` is the first whose colouring raises. */
  ghost predicate FirstFailure(rows: seq<string>, k: int) {
    0 <= k < |rows| && ColorLine(rows[k]).Err? && forall j :: 0 <= j < k ==> ColorLine(rows[j]).Ok?
  }

  /** `map(color_line, rows)` forced by `list`: the first `KeyError` propagates. */
  function ColorAll(rows: seq<string>): (r: Result<seq<string>, Error>)
    ensures r.Ok? ==> |r.value| == |rows| && forall k :: 0 <= k < |rows| ==> ColorLine(rows[k]) == Ok(r.value[k])
    ensures r.Err? <==> exists k :: 0 <= k < |rows| && ColorLine(rows[k]).Err?
    ensures r.Err? ==> exists k :: FirstFailure(rows, k) && ColorLine(rows[k]) == Err(r.error)
  {
    if rows == [] then Ok([])
    else
      match ColorLine(rows[0])
      case Err(e) => Err(e)
      case Ok(c) =>
        match ColorAll(rows[1..])
        case Err(e) => Err(e)
        case Ok(cs) => Ok([c] + cs)
  }

  /** `self.LEVELS[self.level] > self.LEVELS[line[:4]]`, left lookup first. */
  function Below(level: string, line: string): Result<bool, Error> {
    if level !in LevelRanks then Err(KeyError(level))
    else if Prefix(line) !in LevelRanks then Err(KeyError(Prefix(line)))
    else Ok(LevelRanks[level] > LevelRanks[Prefix(line)])
  }

  /** A row the filter deletes when it examines it. */
  predicate IsBelow(level: string, line: string) {
    Below(level, line) == Ok(true)
  }

  function Prepend(x: string, r: Result<seq<string>, Error>): Result<seq<string>, Error> {
    match r
    case Ok(rest) => Ok([x] + rest)
    case Err(e) => Err(e)
  }

  function PrependAll(xs: seq<string>, r: Result<seq<string>, Error>): Result<seq<string>, Error> {
    match r
    case Ok(rest) => Ok(xs + rest)
    case Err(e) => Err(e)
  }

  lemma PrependAllStep(xs: seq<string>, x: string, r: Result<seq<string>, Error>)
    ensures PrependAll(xs, Prepend(x, r)) == PrependAll(xs + [x], r)
  {
    if r.Ok? {
      assert xs + ([x] + r.value) == (xs + [x]) + r.value;
    }
  }

  /**
   * What `filter_log_level` leaves in the list. Deleting the examined row
   * slides its successor into the deleted slot, and `enumerate` moves on
   * past it, so the row after every deleted one is kept unexamined.
   */
  function Filtered(level: string, lines: seq<string>): (r: Result<seq<string>, Error>)
    ensures r.Ok? ==> |r.value| <= |lines|
    ensures r.Err? ==> r.error.KeyError?
    decreases |lines|
  {
    if lines == [] then Ok([])
    else
      match Below(level, lines[0])
      case Err(e) => Err(e)
      case Ok(below) =>
        if !below then Prepend(lines[0], Filtered(level, lines[1..]))
        else if |lines| == 1 then Ok([])
        else Prepend(lines[1], Filtered(level, lines[2..]))
  }

  /** Which input positions the filter deletes (meaningful when no lookup raises). */
  ghost function Deletions(level: string, lines: seq<string>): seq<bool>
    decreases |lines|
  {
    if lines == [] then []
    else if !IsBelow(level, lines[0]) then [false] + Deletions(level, lines[1..])
    else if |lines| == 1 then [true]
    else [true, false] + Deletions(level, lines[2..])
  }

  /** The filter keeps exactly the rows not marked for deletion, in their order. */
  lemma {:induction false} FilteredSelects(level: string, lines: seq<string>)
    requires Filtered(level, lines).Ok?
    ensures |Deletions(level, lines)| == |lines|
    ensures Filtered(level, lines).value == Select(lines, Deletions(level, lines))
    decreases |lines|
  {
    if lines != [] {
      var d := Deletions(level, lines);
      if !IsBelow(level, lines[0]) {
        FilteredSelects(level, lines[1..]);
      } else if |lines| > 1 {
        FilteredSelects(level, lines[2..]);
        assert lines[1..][1..] == lines[2..];
        assert d[1..][1..] == Deletions(level, lines[2..]);
      }
    }
  }

  /**
   * The deletions the loop makes, over any input: the first row goes iff it
   * is below the minimum; only rows below the minimum go; no two adjacent
   * rows both go; and a row below the minimum stays only right after a row
   * that went.
   */
  lemma {:induction false} DeletionsShape(level: string, lines: seq<string>)
    ensures |Deletions(level, lines)| == |lines|
    ensures lines != [] ==> (Deletions(level, lines)[0] <==> IsBelow(level, lines[0]))
    ensures forall p :: 0 <= p < |lines| && Deletions(level, lines)[p] ==> IsBelow(level, lines[p])
    ensures forall p, q :: 0 <= p && q == p + 1 && q < |lines| ==>
      !(Deletions(level, lines)[p] && Deletions(level, lines)[q])
    ensures forall p :: 0 <= p < |lines| && IsBelow(level, lines[p]) && !Deletions(level, lines)[p] ==>
      p > 0 && Deletions(level, lines)[p - 1]
    decreases |lines|
  {
    if lines != [] {
      var d := Deletions(level, lines);
      if !IsBelow(level, lines[0]) {
        var tail := lines[1..];
        DeletionsShape(level, tail);
        assert d == [false] + Deletions(level, tail);
        forall p | 0 <= p < |lines| && IsBelow(level, lines[p]) && !d[p]
          ensures p > 0 && d[p - 1]
        {
          assert p > 0;
          assert tail[p - 1] == lines[p];
        }
        forall p | 0 <= p < |lines| && d[p]
          ensures IsBelow(level, lines[p])
        {
          assert tail[p - 1] == lines[p];
        }
      } else if |lines| > 1 {
        var tail := lines[2..];
        DeletionsShape(level, tail);
        assert d == [true, false] + Deletions(level, tail);
        forall p | 0 <= p < |lines| && IsBelow(level, lines[p]) && !d[p]
          ensures p > 0 && d[p - 1]
        {
          if p > 1 {
            assert tail[p - 2] == lines[p];
          }
        }
        forall p | 0 <= p < |lines| && d[p]
          ensures IsBelow(level, lines[p])
        {
          if p > 1 {
            assert tail[p - 2] == lines[p];
          }
        }
      }
    }
  }

  /** When no row is below the minimum, the filter deletes nothing. */
  lemma {:induction false} FilteredKeepsAll(level: string, lines: seq<string>)
    requires level in LevelRanks
    requires forall k :: 0 <= k < |lines| ==>
      Prefix(lines[k]) in LevelRanks && LevelRanks[Prefix(lines[k])] >= LevelRanks[level]
    ensures Filtered(level, lines) == Ok(lines)
    decreases |lines|
  {
    if lines != [] {
      assert forall k :: 0 <= k < |lines| - 1 ==> lines[1..][k] == lines[k + 1];
      FilteredKeepsAll(level, lines[1..]);
      assert Below(level, lines[0]) == Ok(false);
      assert lines == [lines[0]] + lines[1..];
    }
  }

  /**
   * When every row has a known token and the minimum is ranked, the filter
   * succeeds; an unranked minimum (the stored `"WARNING"`) raises on the
   * first row; at minimum `DBUG` nothing is deleted.
   */
  lemma {:induction false} FilteredOutcome(level: string, lines: seq<string>)
    ensures level in LevelRanks && (forall k :: 0 <= k < |lines| ==> Prefix(lines[k]) in LevelRanks) ==>
      Filtered(level, lines).Ok?
    ensures level !in LevelRanks && lines != [] ==> Filtered(level, lines) == Err(KeyError(level))
    ensures level == "DBUG" && (forall k :: 0 <= k < |lines| ==> Prefix(lines[k]) in LevelRanks) ==>
      Filtered(level, lines) == Ok(lines)
    decreases |lines|
  {
    if level == "DBUG" && (forall k :: 0 <= k < |lines| ==> Prefix(lines[k]) in LevelRanks) {
      FilteredKeepsAll(level, lines);
    }
    if lines != [] {
      assert forall k :: 0 <= k < |lines| - 1 ==> lines[1..][k] == lines[k + 1];
      FilteredOutcome(level, lines[1..]);
      if |lines| > 1 {
        assert forall k :: 0 <= k < |lines| - 2 ==> lines[2..][k] == lines[k + 2];
        FilteredOutcome(level, lines[2..]);
      }
      assert lines == [lines[0]] + lines[1..];
    }
  }

  /** Every row at or above the minimum survives the filter. */
  lemma KeepsRowsAtOrAboveMinimum(level: string, lines: seq<string>, p: nat)
    requires p < |lines|
    requires level in LevelRanks && Prefix(lines[p]) in LevelRanks
    requires LevelRanks[Prefix(lines[p])] >= LevelRanks[level]
    ensures p < |Deletions(level, lines)| && !Deletions(level, lines)[p]
  {
    DeletionsShape(level, lines);
  }

  /** Everything `print_output` prints for one batch of rows. */
  function Render(level: string, nocolors: bool, rows: seq<string>): (r: Result<string, Error>)
    ensures r.Err? ==> r.error.KeyError?
  {
    match Filtered(level, rows)
    case Err(e) => Err(e)
    case Ok(kept) =>
      if nocolors then Ok(Concat(kept))
      else
        match ColorAll(kept)
        case Err(e) => Err(e)
        case Ok(colored) => Ok(Ansi.ResetAll + Concat(colored) + Ansi.ResetAll)
  }

  /** Without colours, the rows kept are printed as they are in the file. */
  lemma RenderPlainIsKeptRows(level: string, rows: seq<string>)
    requires Filtered(level, rows).Ok?
    ensures |Deletions(level, rows)| == |rows|
    ensures Render(level, true, rows) == Ok(Concat(Select(rows, Deletions(level, rows))))
  {
    FilteredSelects(level, rows);
  }

  /** `map(color_line, rows)` when every row has a known token. */
  function MapColor(rows: seq<string>): seq<string>
    requires forall k :: 0 <= k < |rows| ==> Prefix(rows[k]) in LevelColors
  {
    seq(|rows|, k requires 0 <= k < |rows| => ColorLine(rows[k]).value)
  }

  /**
   * With colours, the batch is printed as a reset, each kept row coloured in
   * order, and a reset; a single kept row with an unknown token makes the
   * whole batch raise instead.
   */
  lemma RenderColoredIsMappedRows(level: string, rows: seq<string>)
    requires Filtered(level, rows).Ok?
    ensures var kept := Filtered(level, rows).value;
      && (Render(level, false, rows).Ok? <==> forall k :: 0 <= k < |kept| ==> Prefix(kept[k]) in LevelColors)
      && ((forall k :: 0 <= k < |kept| ==> Prefix(kept[k]) in LevelColors) ==>
           Render(level, false, rows) == Ok(Ansi.ResetAll + Concat(MapColor(kept)) + Ansi.ResetAll))
  {
    var kept := Filtered(level, rows).value;
    if forall k :: 0 <= k < |kept| ==> Prefix(kept[k]) in LevelColors {
      assert ColorAll(kept).Ok?;
      assert ColorAll(kept).value == MapColor(kept);
    } else {
      var k :| 0 <= k < |kept| && Prefix(kept[k]) !in LevelColors;
      assert ColorLine(kept[k]).Err?;
    }
  }

  /** With colours, the batch is framed by resets, even when no row is left. */
  lemma RenderColoredFramed(level: string, rows: seq<string>)
    requires Render(level, false, rows).Ok?
    ensures var t := Render(level, false, rows).value;
      |t| >= 2 * |Ansi.ResetAll| && t[..|Ansi.ResetAll|] == Ansi.ResetAll && t[|t| - |Ansi.ResetAll|..] == Ansi.ResetAll
  {
  }

  /** What one event delivers: the new rows, or nothing (`None`), and the next cursor. */
  datatype Delta = Delta(rows: Option<seq<string>>, cursor: nat)

  /**
   * The cursor rule of `get_new_lines` stated on lengths: no new text at a
   * non-zero cursor delivers nothing; growth delivers the rows past the
   * cursor; a file shorter than the cursor is delivered again from the
   * start. The cursor then stands at the end of the file.
   */
  function NewLines(cursor: nat, content: string): (d: Delta)
    ensures d.cursor == |content|
    ensures d.rows.None? <==> cursor == |content| > 0
  {
    if cursor == |content| && cursor > 0 then Delta(None, cursor)
    else if cursor <= |content| then Delta(Some(Lines(content[cursor..])), |content|)
    else Delta(Some(Lines(content)), |content|)
  }

  /** On growth, the rows delivered join up to exactly the text past the cursor. */
  lemma NewLinesOnGrowth(cursor: nat, content: string)
    requires cursor < |content|
    ensures var d := NewLines(cursor, content);
      && d.rows.Some? && d.rows.value != [] && d.cursor == |content|
      && Concat(d.rows.value) == content[cursor..]
      && (forall k :: 0 <= k < |d.rows.value| - 1 ==> IsCompleteRow(d.rows.value[k]))
  {
    ConcatLines(content[cursor..]);
    LinesAreRows(content[cursor..]);
  }

  /** After truncation below the cursor, the whole file is delivered again. */
  lemma NewLinesAfterTruncation(cursor: nat, content: string)
    requires |content| < cursor
    ensures var d := NewLines(cursor, content);
      d.rows.Some? && Concat(d.rows.value) == content && d.cursor == |content|
  {
    ConcatLines(content);
  }

  /**
   * A second event on an unchanged file delivers nothing; for an empty file
   * it delivers an empty batch rather than nothing.
   */
  lemma SecondEventIsIdle(cursor: nat, content: string)
    ensures var again := NewLines(NewLines(cursor, content).cursor, content);
      && (content != [] ==> again == Delta(None, |content|))
      && (content == [] ==> again == Delta(Some([]), 0))
  {
  }

  /** An event on an unchanged, non-empty file prints nothing and keeps the cursor. */
  lemma IdleEventPrintsNothing(level: string, nocolors: bool, cursor: nat, content: string)
    requires cursor == |content| > 0
    ensures NewLines(cursor, content).cursor == cursor
    ensures Printed(level, nocolors, NewLines(cursor, content).rows) == Ok("")
  {
  }

  /** The delivered text and the final cursor after one event per appended chunk. */
  function Replay(cursor: nat, content: string, chunks: seq<string>): (string, nat)
    decreases |chunks|
  {
    if chunks == [] then ("", cursor)
    else
      var next := content + chunks[0];
      var d := NewLines(cursor, next);
      var text := if d.rows.Some? then Concat(d.rows.value) else "";
      var rest := Replay(d.cursor, next, chunks[1..]);
      (text + rest.0, rest.1)
  }

  /**
   * With the cursor at the end of the file and one event after each append,
   * empty appends included, every appended character is delivered exactly
   * once, in order, and the cursor ends at the total length.
   */
  lemma {:induction false} ReplayDeliversAppends(content: string, chunks: seq<string>)
    ensures Replay(|content|, content, chunks) == (Concat(chunks), |content| + |Concat(chunks)|)
    decreases |chunks|
  {
    if chunks != [] {
      var next := content + chunks[0];
      assert Concat(chunks) == chunks[0] + Concat(chunks[1..]);
      if chunks[0] == [] {
        assert next == content;
        ConcatLines(content[|content|..]);
        ReplayDeliversAppends(content, chunks[1..]);
      } else {
        NewLinesOnGrowth(|content|, next);
        assert next[|content|..] == chunks[0];
        ReplayDeliversAppends(next, chunks[1..]);
      }
    }
  }

  /** The text one event prints: nothing for `None`, else the rendered batch. */
  function Printed(level: string, nocolors: bool, rows: Option<seq<string>>): Result<string, Error> {
    if rows.None? then Ok("") else Render(level, nocolors, rows.value)
  }

  /** A reader session: the path, the stored level token, the colour switch, the cursor and what it printed. */
  class Reader {
    const path: string
    const level: string
    const nocolors: bool
    var readIndex: nat
    var output: string

    constructor (path: string, level: string, nocolors: bool)
      ensures this.path == path && this.level == level && this.nocolors == nocolors
      ensures readIndex == 0 && output == []
    {
      this.path := path;
      this.level := level;
      this.nocolors := nocolors;
      readIndex := 0;
      output := [];
    }

    /**
     * `Reader(file, level, nocolors)`: validate the path, then the level, set
     * the cursor to 0 and handle one event. Between the checks and the event
     * the source waits until the file exists; that wait is not modelled, and
     * once both checks pass `disk` is the file system after the file appeared.
     */
    static method Start(path: string, facts: PathFacts, level: string, nocolors: bool, disk: Disk)
      returns (r: Result<Reader, Error>)
      requires VerifyFile(path, facts).Pass? && ReaderLevel(level).Ok? ==> path in disk.files
      ensures VerifyFile(path, facts).Fail? ==> r == Err(VerifyFile(path, facts).error)
      ensures VerifyFile(path, facts).Pass? && ReaderLevel(level).Err? ==> r == Err(ReaderLevel(level).error)
      ensures VerifyFile(path, facts).Pass? && ReaderLevel(level).Ok? ==>
        var shown := Render(ReaderLevel(level).value, nocolors, Lines(disk.files[path]));
        && (shown.Err? ==> r == Err(shown.error))
        && (shown.Ok? ==>
             && r.Ok? && fresh(r.value) && r.value.path == path && r.value.level == ReaderLevel(level).value
             && r.value.nocolors == nocolors && r.value.readIndex == |disk.files[path]| && r.value.output == shown.value)
    {
      var checked := VerifyFile(path, facts);
      if checked.Fail? {
        return Err(checked.error);
      }
      var token := ReaderLevel(level);
      if token.Err? {
        return Err(token.error);
      }
      var reader := new Reader(path, token.value, nocolors);
      var event := reader.PrintOutput(disk);
      if event.Fail? {
        return Err(event.error);
      }
      r := Ok(reader);
    }

    /**
     * `print_output`: read what is new, filter it, colour it unless
     * `nocolors`, and print it. The cursor moves even when a later step raises.
     */
    method PrintOutput(disk: Disk) returns (r: Outcome<Error>)
      modifies this`readIndex, this`output
      ensures path !in disk.files ==>
        r == Fail(FileNotFound(path)) && readIndex == old(readIndex) && output == old(output)
      ensures path in disk.files ==>
        var d := NewLines(old(readIndex), disk.files[path]);
        var shown := Printed(level, nocolors, d.rows);
        && readIndex == d.cursor
        && (shown.Ok? ==> r == Pass && output == old(output) + shown.value)
        && (shown.Err? ==> r == Fail(shown.error) && output == old(output))
    {
      if path !in disk.files {
        return Fail(FileNotFound(path));
      }
      var rows := GetNewLines(disk.files[path]);
      if rows.None? {
        return Pass;
      }
      var kept := FilterLogLevel(rows.value);
      if kept.Err? {
        return Fail(kept.error);
      }
      if nocolors {
        output := output + Concat(kept.value);
      } else {
        var colored := ColorAll(kept.value);
        if colored.Err? {
          return Fail(colored.error);
        }
        output := output + (Ansi.ResetAll + Concat(colored.value) + Ansi.ResetAll);
      }
      r := Pass;
    }

    /**
     * `get_new_lines`: seek to the cursor and read the rows to the end. No
     * rows at a non-zero cursor means either nothing new (a character just
     * before the cursor is still there: return `None`) or a shrunk file
     * (reset the cursor and read again, once).
     */
    method GetNewLines(content: string) returns (rows: Option<seq<string>>)
      modifies this`readIndex
      decreases readIndex
      ensures Delta(rows, readIndex) == NewLines(old(readIndex), content)
    {
      var found := Lines(From(content, readIndex));
      if found == [] && readIndex > 0 {
        if Lines(From(content, readIndex - 1)) != [] {
          return None;
        }
        readIndex := 0;
        rows := GetNewLines(content);
        return;
      }
      SumLengthsOfLines(From(content, readIndex));
      readIndex := readIndex + SumLengths(found);
      rows := Some(found);
    }

    /**
     * `filter_log_level`: walk the list with an index, deleting in place each
     * row below the minimum; the index moves on after a deletion too.
     */
    method FilterLogLevel(lines: seq<string>) returns (r: Result<seq<string>, Error>)
      ensures r == Filtered(level, lines)
    {
      var list := lines;
      var i := 0;
      assert list[..0] == [] && list[0..] == lines;
      assert PrependAll([], Filtered(level, lines)) == Filtered(level, lines) by {
        if Filtered(level, lines).Ok? {
          assert [] + Filtered(level, lines).value == Filtered(level, lines).value;
        }
      }
      while i < |list|
        invariant 0 <= i <= |list| + 1
        invariant Filtered(level, lines) == if i <= |list| then PrependAll(list[..i], Filtered(level, list[i..])) else Ok(list)
        decreases |list| + 1 - i
      {
        var cur := list[i..];
        assert cur[0] == list[i] && cur[1..] == list[i + 1..];
        if level !in LevelRanks {
          assert Filtered(level, cur) == Err(KeyError(level));
          return Err(KeyError(level));
        }
        var token := Prefix(list[i]);
        if token !in LevelRanks {
          assert Filtered(level, cur) == Err(KeyError(token));
          return Err(KeyError(token));
        }
        if LevelRanks[level] > LevelRanks[token] {
          var next := list[..i] + list[i + 1..];
          if i + 1 < |list| {
            assert cur[1] == list[i + 1] && cur[2..] == list[i + 2..];
            assert next[..i + 1] == list[..i] + [list[i + 1]];
            assert next[i + 1..] == list[i + 2..];
            PrependAllStep(list[..i], list[i + 1], Filtered(level, list[i + 2..]));
          } else {
            assert next == list[..i];
            assert cur == [list[i]];
          }
          list := next;
        } else {
          assert list[..i] + [list[i]] == list[..i + 1];
          PrependAllStep(list[..i], list[i], Filtered(level, list[i + 1..]));
        }
        i := i + 1;
      }
      if i == |list| {
        assert list[..i] == list && list[i..] == [] && list + [] == list;
      }
      r := Ok(list);
    }
  }
}
