/**
 * How the pieces meet: the lines the `livelog` logger writes are what the
 * reader splits, filters and colours; lines of the older logger raise
 * wherever the reader examines or colours them.
 */
module Pipeline {
  import opened Results
  import opened Text
  import opened Errors
  import opened Levels
  import opened LiveLogger
  import LiveReader
  import LegacyLogger
  import Ansi

  /** One accepted logging call: its method, the time it ran and its message. */
  datatype Entry = Entry(call: LogCall, time: Timestamp, message: string)

  /** The lines the logger appends for a run of accepted calls. */
  function Written(entries: seq<Entry>): seq<string> {
    seq(|entries|, k requires 0 <= k < |entries| => LogLine(Token(entries[k].call), entries[k].time, entries[k].message))
  }

  /** Messages that stay on one line. */
  predicate SingleLine(entries: seq<Entry>) {
    forall k :: 0 <= k < |entries| ==> '\n' !in entries[k].message
  }

  /** The reader reads a logged line's level token back from its first four characters. */
  lemma PrefixOfLogLine(c: LogCall, time: Timestamp, message: string)
    ensures LiveReader.Prefix(LogLine(Token(c), time, message)) == Token(c)
    ensures Token(c) in LiveReader.LevelRanks
    ensures LiveReader.LevelRanks[Token(c)] == Levels.LevelRanks[LevelName(c)]
  {
    LogLineColumns(Token(c), time, message);
  }

  /**
   * Colouring a logged line recovers exactly its timestamp and its message
   * (with the newline), and paints the message in the colour the older
   * logger uses for the same call.
   */
  lemma ColorsLoggedLine(c: LogCall, time: Timestamp, message: string)
    ensures LiveReader.ColorLine(LogLine(Token(c), time, message)) ==
      Ok(Ansi.Dim + time + Ansi.Bright + " - " + Ansi.Normal + LegacyLogger.Color(c) + message + "\n" + Ansi.ResetAll)
  {
    var line := LogLine(Token(c), time, message);
    LogLineColumns(Token(c), time, message);
    PrefixOfLogLine(c, time, message);
    assert Token(c) in LiveReader.LevelColors && LiveReader.LevelColors[Token(c)] == LegacyLogger.Color(c);
    assert Slice(line, 7, 19) == time;
    assert From(line, 22) == message + "\n";
    var head := Ansi.Dim + time + Ansi.Bright + " - " + Ansi.Normal + LegacyLogger.Color(c);
    assert LiveReader.ColorLine(line) == Ok(head + (message + "\n") + Ansi.ResetAll);
    assert head + (message + "\n") == head + message + "\n";
  }

  /** Splitting a logged file gives back the logged lines, one row each. */
  lemma ReaderSeesLoggedRows(entries: seq<Entry>)
    requires SingleLine(entries)
    ensures Lines(Concat(Written(entries))) == Written(entries)
  {
    var lines := Written(entries);
    forall k | 0 <= k < |lines|
      ensures IsCompleteRow(lines[k])
    {
      LogLineIsCompleteRow(entries[k].call, entries[k].time, entries[k].message);
    }
    LinesOfCompleteRows(lines);
  }

  /** An event after the logger appended some lines delivers exactly those lines. */
  lemma AppendedEntriesDelivered(before: string, entries: seq<Entry>)
    requires entries != [] && SingleLine(entries)
    ensures var text := Concat(Written(entries));
      LiveReader.NewLines(|before|, before + text) == LiveReader.Delta(Some(Written(entries)), |before| + |text|)
  {
    var lines := Written(entries);
    var text := Concat(lines);
    assert text == lines[0] + Concat(lines[1..]);
    assert (before + text)[|before|..] == text;
    ReaderSeesLoggedRows(entries);
  }

  /**
   * A reader given the same minimum as the logger shows every line the
   * logger wrote, except that the minimum `WARNING` is refused by the reader.
   */
  lemma ReaderAgreesWithLogger(level: string, entries: seq<Entry>)
    requires level in {"ERROR", "INFO", "DEBUG"}
    requires forall k :: 0 <= k < |entries| ==> Emits(true, level, entries[k].call)
    ensures LiveReader.ReaderLevel(level).Ok?
    ensures LiveReader.Filtered(LiveReader.ReaderLevel(level).value, Written(entries)) == Ok(Written(entries))
  {
    UpperKeeps(level);
    var token := LiveReader.ReaderLevel(level).value;
    assert LiveReader.LevelRanks[token] == Levels.LevelRanks[level];
    var lines := Written(entries);
    forall k | 0 <= k < |lines|
      ensures LiveReader.Prefix(lines[k]) in LiveReader.LevelRanks
      ensures LiveReader.LevelRanks[LiveReader.Prefix(lines[k])] >= LiveReader.LevelRanks[token]
    {
      PrefixOfLogLine(entries[k].call, entries[k].time, entries[k].message);
    }
    LiveReader.FilteredKeepsAll(token, lines);
  }

  /** A reader started with `warn` holds `"WARNING"` and raises on every non-empty batch. */
  lemma WarnMinimumRaises(level: string, nocolors: bool, rows: seq<string>)
    requires Upper(level) == "WARN" && rows != []
    ensures LiveReader.ReaderLevel(level) == Ok("WARNING")
    ensures LiveReader.Render("WARNING", nocolors, rows) == Err(KeyError("WARNING"))
  {
    LiveReader.FilteredOutcome("WARNING", rows);
  }

  /**
   * At minimum `ERR!`, the rows `DBUG, INFO, WARN, ERR!` filter to `INFO,
   * ERR!`: the `INFO` row follows the deleted `DBUG` row and is never examined.
   */
  lemma ErrorMinimumKeepsSkippedRow(time: Timestamp, message: string)
    ensures var line := (c: LogCall) => LogLine(Token(c), time, message);
      LiveReader.Filtered("ERR!", [line(DebugCall), line(InfoCall), line(WarnCall), line(ErrorCall)]) ==
      Ok([line(InfoCall), line(ErrorCall)])
  {
    PrefixOfLogLine(DebugCall, time, message);
    PrefixOfLogLine(InfoCall, time, message);
    PrefixOfLogLine(WarnCall, time, message);
    PrefixOfLogLine(ErrorCall, time, message);
    var d, i, w, e := LogLine("DBUG", time, message), LogLine("INFO", time, message),
      LogLine("WARN", time, message), LogLine("ERR!", time, message);
    var rows := [d, i, w, e];
    assert rows[2..] == [w, e] && [w, e][1..] == [e] && [e][1..] == [];
    assert LiveReader.IsBelow("ERR!", d) && LiveReader.IsBelow("ERR!", w) && !LiveReader.IsBelow("ERR!", e);
    assert [w, e][1] == e && [w, e][2..] == [] && [e] + [] == [e];
    assert LiveReader.Filtered("ERR!", [w, e]) == Ok([e]);
    assert rows[1] == i && [i] + [e] == [i, e];
    assert LiveReader.Filtered("ERR!", rows) == Ok([i, e]);
  }

  /**
   * Four lines logged in one batch, read at minimum `INFO`: the `INFO`,
   * `WARN` and `ERR!` lines are shown, in file order.
   */
  lemma InfoMinimumScenario()
    ensures var rows := [
        LogLine("DBUG", "10:00:00.000", "debug"), LogLine("INFO", "10:00:00.001", "info"),
        LogLine("WARN", "10:00:00.002", "warning"), LogLine("ERR!", "10:00:00.003", "error")];
      LiveReader.Filtered("INFO", rows) == Ok(rows[1..])
  {
    var d, i, w, e := LogLine("DBUG", "10:00:00.000", "debug"), LogLine("INFO", "10:00:00.001", "info"),
      LogLine("WARN", "10:00:00.002", "warning"), LogLine("ERR!", "10:00:00.003", "error");
    PrefixOfLogLine(DebugCall, "10:00:00.000", "debug");
    PrefixOfLogLine(InfoCall, "10:00:00.001", "info");
    PrefixOfLogLine(WarnCall, "10:00:00.002", "warning");
    PrefixOfLogLine(ErrorCall, "10:00:00.003", "error");
    var rows := [d, i, w, e];
    assert rows[2..] == [w, e] && [w, e][1..] == [e] && [e][1..] == [];
    assert LiveReader.IsBelow("INFO", d) && !LiveReader.IsBelow("INFO", w) && !LiveReader.IsBelow("INFO", e);
    assert LiveReader.Below("INFO", e) == Ok(false) && LiveReader.Below("INFO", w) == Ok(false);
    assert [e][1..] == [] && [e] + [] == [e];
    assert LiveReader.Filtered("INFO", [e]) == Ok([e]);
    assert [w, e][0] == w && [w] + [e] == [w, e];
    assert LiveReader.Filtered("INFO", [w, e]) == Ok([w, e]);
    assert rows[1] == i && [i] + [w, e] == [i, w, e];
    assert LiveReader.Filtered("INFO", rows) == Ok([i, w, e]);
    assert rows[1..] == [i, w, e];
  }

  /** A first row with an unknown token stops the whole batch with `KeyError`; it is not skipped. */
  lemma MalformedRowRaises(level: string, junk: string, rest: seq<string>)
    requires level in LiveReader.LevelRanks && LiveReader.Prefix(junk) !in LiveReader.LevelRanks
    ensures LiveReader.Filtered(level, [junk] + rest) == Err(KeyError(LiveReader.Prefix(junk)))
  {
  }

  /**
   * A row right after a deleted one is never examined: without colours it is
   * printed as it is, whatever its first four characters; with colours an
   * unknown token in it raises `KeyError` when the batch is coloured.
   */
  lemma SkippedRowShownPlain(level: string, c: LogCall, time: Timestamp, message: string, junk: string)
    requires level in LiveReader.LevelRanks && LiveReader.LevelRanks[level] > Levels.LevelRanks[LevelName(c)]
    ensures LiveReader.Render(level, true, [LogLine(Token(c), time, message), junk]) == Ok(junk)
    ensures LiveReader.Prefix(junk) !in LiveReader.LevelColors ==>
      LiveReader.Render(level, false, [LogLine(Token(c), time, message), junk]) == Err(KeyError(LiveReader.Prefix(junk)))
  {
    var line := LogLine(Token(c), time, message);
    PrefixOfLogLine(c, time, message);
    assert LiveReader.Below(level, line) == Ok(true);
    var rows := [line, junk];
    assert rows[0] == line && rows[1] == junk && rows[2..] == [];
    assert LiveReader.Filtered(level, []) == Ok([]) && [junk] + [] == [junk];
    assert LiveReader.Filtered(level, rows) == Ok([junk]);
    assert [junk][1..] == [] && junk + [] == junk;
    assert Concat([junk]) == junk;
    if LiveReader.Prefix(junk) !in LiveReader.LevelColors {
      assert LiveReader.ColorAll([junk]).Err?;
    }
  }

  /** A row of the older logger right after a deleted row is printed as it is when colours are off. */
  lemma LegacyRowShownAfterDeletedRow(level: string, c: LogCall, time: Timestamp, message: string, legacyTime: Timestamp, content: string)
    requires level in LiveReader.LevelRanks && LiveReader.LevelRanks[level] > Levels.LevelRanks[LevelName(c)]
    ensures var legacy := LegacyLogger.LegacyLine(legacyTime, content);
      LiveReader.Render(level, true, [LogLine(Token(c), time, message), legacy]) == Ok(legacy)
  {
    SkippedRowShownPlain(level, c, time, message, LegacyLogger.LegacyLine(legacyTime, content));
  }

  /**
   * A row of the older logger that the filter examines raises: it starts
   * with the dim escape code, which the reader takes for an unknown token.
   */
  lemma LegacyRowsRaise(level: string, time: Timestamp, content: string, rest: seq<string>)
    requires level in LiveReader.LevelRanks
    ensures LiveReader.Filtered(level, [LegacyLogger.LegacyLine(time, content)] + rest) == Err(KeyError(Ansi.Dim))
  {
    var line := LegacyLogger.LegacyLine(time, content);
    assert line == Ansi.Dim + (time + Ansi.Bright + " - " + Ansi.Normal + content + Ansi.ResetAll + "\n");
    assert LiveReader.Prefix(line) == Ansi.Dim;
  }
}
