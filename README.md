# livelog in Dafny

A model of `livelog`, a small Python tool pair for following a log file
live. The write side is a `Logger` that appends one fixed-format line per
accepted call (`livelog/logger.py`); its older stand-alone predecessor
writes colour-coded lines (`logger.py`). The read side is a `Reader` that
keeps a character cursor into the file, and on every change event reads
what is new, drops rows below a minimum level, colours the rest and prints
them (`livelog/reader.py`). `__init__.py` holds an early `tail` that
prints the last rows of a file. `errors.py` holds the validation errors.

Modules, one per source file plus shared vocabulary:

- `Results` is `Option`, `Result` and `Outcome` (pass or fail with an error).
- `Text` models the Python string operations the tools rely on:
  - `str.upper`;
  - clamped slices;
  - `"".join`;
  - `list(f)`, which cuts a text after every newline (`Lines`).
- `Ansi` holds the colorama escape codes as their ANSI strings.
- `Errors` holds the exceptions, and the messages of the three `errors.py` classes.
- `Files` holds the abstract answers of path queries (`PathFacts`) and the `Disk` class, which maps paths to file text and changes in place.
- `Levels` holds the logger level table, the four logging calls, the 12-character timestamp, and the rule deciding which calls write.
- `LiveLogger` is `livelog/logger.py`: the `Logger` class and the `Singleton` metaclass.
- `LiveReader` is `livelog/reader.py`: the `Reader` class and the specification functions it is proved against (`NewLines`, `Filtered`, `Render`).
- `LegacyLogger` is `logger.py`: the `Logger` class and `LoggerClass`, which holds the class-level `__instance` used by `__new__`.
- `TailScript` is `tail` from `__init__.py`.
- `Pipeline` holds lemmas across files. Logged lines are what the reader splits, filters and colours. A row written by the older logger raises wherever the filter examines it or colours are on. With colours off, such a row is printed as it is when it comes right after a deleted row, because the filter never looks at that row (`Pipeline.LegacyRowShownAfterDeletedRow`).

The model follows the code where the code departs from the tool's intended behaviour:

- **An unknown four-character prefix is not skipped.** When the filter examines the row, or when colours are on, it raises `KeyError` and ends the batch (`Pipeline.MalformedRowRaises`). A row right after a deleted one is never examined, so with colours off it is printed whatever its prefix (`Pipeline.SkippedRowShownPlain`).
- **The reader refuses the level name `WARNING`.** It stores `WARN` as `"WARNING"`, which has no rank, so every non-empty batch raises (`Pipeline.WarnMinimumRaises`).
- **The filter deletes from the list while walking it.** The row after each deleted one is never examined, so a row below the minimum can be shown (`Pipeline.ErrorMinimumKeepsSkippedRow`).
- **A trailing row without its newline is not held back.** It is delivered as it is, and the cursor moves past it.
- **A missing file during an event is not retried.** `print_output` raises `FileNotFoundError`.

## Model

| member | source | states |
|---|---|---|
| Errors.MessageQuotesPath | errors.py:1-25 | every message contains `("<path>")` with the path verbatim |
| Errors.KindMark | errors.py:5-24 | character 17 of a message tells the three error kinds apart |
| Errors.PathInMessage | errors.py:5-24 | the path is recovered from a fixed position of the message |
| Errors.MessageInjective | errors.py:1-25 | equal messages come from the same error kind and the same path |
| Errors.MessagesDiffer | errors.py:5-24 | for one path the three messages differ pairwise |
| Errors.Message | errors.py:1-25 | every message ends with a full stop; what it contains is stated by `Errors.MessageQuotesPath`, `Errors.PathInMessage` and `Errors.MessageInjective` |
| Text.Upper | livelog/reader.py:63 | upper-casing keeps the length |
| Text.UpperIdempotent | livelog/logger.py:66-69 | upper-casing an upper-cased name changes nothing |
| Text.UpperKeeps | livelog/reader.py:63-64 | a name with no lower-case letters is its own upper case |
| Text.LineLength | livelog/reader.py:126 | the first row stops at the first newline, or at the end of the text |
| Text.Lines | livelog/reader.py:126 | `list(f)` yields no more rows than characters; the rows themselves are stated by `Text.ConcatLines` and `Text.LinesAreRows` |
| Text.ConcatLines | livelog/reader.py:126 | joining the rows read from a text gives the text back |
| Text.LinesAreRows | livelog/reader.py:126 | every row read is non-empty; newlines occur only at a row's end; every row but the last ends with one |
| Text.SumLengthsOfLines | livelog/reader.py:137 | the lengths of the rows read add up to the text's length |
| Text.LinesAppend | __init__.py:23 | text after a newline splits into rows independently of what precedes it |
| Text.LinesOfCompleteRows | livelog/reader.py:126 | joining complete rows and reading them back yields the same rows |
| Files.Disk.Append | livelog/logger.py:130-131 | appending keeps the earlier text as a prefix and creates a missing file |
| Files.Disk.Truncate | livelog/logger.py:114-115 | opening for writing leaves an empty file |
| Levels.TimestampHasNoNewline | livelog/logger.py:128 | a `%H:%M:%S.mmm` time has 12 characters and no newline |
| Levels.CanonicalAccepts | livelog/logger.py:66-69 | a level name is accepted iff it is one of the four names, ignoring case; the upper-case name is stored |
| Levels.EmitsIffRank | livelog/logger.py:143-185 | with logging enabled, a call writes iff its level ranks at or above the minimum (`error` included); disabled, nothing writes |
| Levels.MinimumsDropLowerCalls | livelog/logger.py:154-185 | each minimum drops exactly the calls below it |
| LiveLogger.LogLineColumns | livelog/logger.py:128-131 | token, separators, time and message sit at fixed columns of the line |
| LiveLogger.LogLine | livelog/logger.py:131 | a line is seven characters longer than its fields and ends with a newline; the columns are stated by `LiveLogger.LogLineColumns` |
| LiveLogger.LogLineInjective | livelog/logger.py:131 | different calls, times or messages never give the same line |
| LiveLogger.LogLineIsCompleteRow | livelog/logger.py:131 | a line for a one-line message is exactly one complete row of the file |
| LiveLogger.NormalizeLevel | livelog/logger.py:66-69 | accepts exactly the four names ignoring case, returns the upper-case name, else `LogLevelDoesNotExist` of it |
| LiveLogger.VerifyFile | livelog/logger.py:92-106 | a passing path is not a directory and has an accessible parent; every failure is an `errors.py` error; the full decision is `LiveLogger.VerifyFileDecides` |
| LiveLogger.VerifyFileDecides | livelog/logger.py:92-106 | a path passes iff it is not a directory and its parent is an accessible directory; failures are `errors.py` errors; a directory path is named, and otherwise the parent |
| LiveLogger.Logger.constructor | livelog/logger.py:52-69 | the fields as `__init__` leaves them after every check passed |
| LiveLogger.Logger.Create | livelog/logger.py:36-69 | with defaults `DEBUG`, enabled and erase: check the path, then clear (iff `erase` and the file exists), then check the level; the first failure is raised; the file is cleared even when the level is bad |
| LiveLogger.Logger.ClearFile | livelog/logger.py:109-115 | the file is emptied iff `erase` is set and it exists |
| LiveLogger.Logger.SetLevel | livelog/logger.py:85-90 | a valid name is stored upper-cased; a bad one raises and keeps the old level |
| LiveLogger.Logger.IsValidLevel | livelog/logger.py:133-143 | for each call's level name, the check passes iff an enabled logger emits that call (`Levels.EmitsIffRank`); `ERROR` always passes |
| LiveLogger.Logger.LoggedAppendsOneLine | livelog/logger.py:117-131 | a call changes the files iff its level passes; it then appends exactly one line after the unchanged earlier text, and no other file changes |
| LiveLogger.Logger.Write | livelog/logger.py:117-131 | when enabled, exactly one line is appended; when disabled, nothing changes |
| LiveLogger.Logger.Error | livelog/logger.py:145-152 | the files become `Logged(old files, error call)`, with no level check |
| LiveLogger.Logger.Warn | livelog/logger.py:154-163 | the files become `Logged(old files, warn call)` |
| LiveLogger.Logger.Info | livelog/logger.py:165-174 | the files become `Logged(old files, info call)` |
| LiveLogger.Logger.Debug | livelog/logger.py:176-185 | the files become `Logged(old files, debug call)` |
| LiveLogger.Singleton.constructor | livelog/logger.py:189 | no instance is recorded at first |
| LiveLogger.Singleton.Call | livelog/logger.py:188-198 | the first successful construction is recorded; later calls return it, ignore their arguments and touch no file; a failed construction records nothing |
| LiveReader.ReaderLevelAccepts | livelog/reader.py:39-66 | exactly the four long names are accepted; all but `WARN` give a ranked token; `WARN` gives `"WARNING"`; `WARNING` is refused |
| LiveReader.ReaderLevel | livelog/reader.py:62-66 | an accepted name gives a ranked token or `"WARNING"`; a refused one raises `LogLevelDoesNotExist` of its upper case; which names pass is `LiveReader.ReaderLevelAccepts` |
| LiveReader.VerifyFileDecides | livelog/reader.py:79-88 | a path passes iff it is not a directory and its parent is a readable directory; an unexaminable path escapes as `PermissionError` |
| LiveReader.VerifyFile | livelog/reader.py:79-88 | a passing path is not a directory and has a readable parent; a failure outside `errors.py` is a `PermissionError`; the full decision is `LiveReader.VerifyFileDecides` |
| LiveReader.ColorLine | livelog/reader.py:167-173 | succeeds iff the row's first four characters are a known token, else `KeyError` of them |
| LiveReader.ColorAll | livelog/reader.py:113-114 | on success each output row is `color_line` of the row at the same position; it fails iff some row's token is unknown, with the `KeyError` of the first such row |
| LiveReader.FilteredSelects | livelog/reader.py:141-155 | the filter keeps exactly the rows its deletion marks spare, in order |
| LiveReader.DeletionsShape | livelog/reader.py:151-154 | the first row goes iff it is below the minimum; only rows below it go; no two adjacent rows both go; a row below it stays only right after a deleted row |
| LiveReader.Filtered | livelog/reader.py:141-155 | the filter never adds rows and can only fail with `KeyError`; the rows it keeps are stated by `LiveReader.FilteredSelects` and `LiveReader.DeletionsShape` |
| LiveReader.FilteredKeepsAll | livelog/reader.py:151-155 | when no row is below a ranked minimum, the filter deletes nothing |
| LiveReader.FilteredOutcome | livelog/reader.py:151-155 | ranked minimum and known tokens: success; unranked minimum: `KeyError` on the first row; minimum `DBUG`: nothing deleted |
| LiveReader.KeepsRowsAtOrAboveMinimum | livelog/reader.py:153-154 | a row at or above the minimum is never deleted |
| LiveReader.Render | livelog/reader.py:99-115 | a batch can only fail with `KeyError`; its output is stated by `LiveReader.RenderPlainIsKeptRows` and `LiveReader.RenderColoredIsMappedRows` |
| LiveReader.RenderPlainIsKeptRows | livelog/reader.py:109-111 | without colours the kept rows are printed exactly as stored |
| LiveReader.RenderColoredFramed | livelog/reader.py:113-115 | with colours a batch starts and ends with a full reset |
| LiveReader.RenderColoredIsMappedRows | livelog/reader.py:113-115 | with colours a filtered batch prints iff every kept row has a known token, and then it is a reset, `color_line` of each kept row in order, and a reset |
| LiveReader.NewLinesOnGrowth | livelog/reader.py:124-137 | on growth, the rows delivered join to exactly the text past the cursor; all but the last are complete; the cursor moves to the end |
| LiveReader.NewLinesAfterTruncation | livelog/reader.py:127-137 | a file shorter than the cursor is delivered again from its start, and the cursor ends at its length |
| LiveReader.NewLines | livelog/reader.py:117-139 | the cursor always ends at the end of the file, and nothing is delivered iff the cursor is already at the end of a non-empty file; the rows are stated by `LiveReader.NewLinesOnGrowth` and `LiveReader.NewLinesAfterTruncation` |
| LiveReader.SecondEventIsIdle | livelog/reader.py:127-134 | a second event on an unchanged file delivers nothing; for an empty file it delivers an empty batch |
| LiveReader.IdleEventPrintsNothing | livelog/reader.py:104-106 | an event without new text prints nothing and keeps the cursor |
| LiveReader.ReplayDeliversAppends | livelog/reader.py:124-137 | with one event per append, for any sequence of appends, empty ones included, every appended character is delivered once, in order, and the cursor equals the total length |
| LiveReader.Reader.constructor | livelog/reader.py:61-69 | the cursor starts at 0 and nothing is printed |
| LiveReader.Reader.Start | livelog/reader.py:52-77 | path errors first, then level errors; once both pass, one event from cursor 0 renders the whole file as it stands after it appeared |
| LiveReader.Reader.PrintOutput | livelog/reader.py:99-115 | a missing file raises with nothing changed; otherwise the cursor follows `NewLines` even when rendering raises, and the output grows by the rendered batch only on success |
| LiveReader.Reader.GetNewLines | livelog/reader.py:117-139 | the rows and the new cursor are those of `NewLines` |
| LiveReader.Reader.FilterLogLevel | livelog/reader.py:141-155 | the in-loop deletions yield exactly `Filtered`, including its errors |
| LegacyLogger.InitLevel | logger.py:39-41 | accepts exactly the four names ignoring case; otherwise `NameError`, because `LogLevelDoesNotExist` is undefined |
| LegacyLogger.LegacyLine | logger.py:89-92 | a legacy line starts with the dim code and ends with a newline; its fields are stated by `LegacyLogger.LegacyLineInjective` |
| LegacyLogger.Color | logger.py:97-113 | each call's colour is a five-character ANSI select-graphic-rendition code |
| LegacyLogger.CheckPath | logger.py:55-63 | a passing path is not a directory and has a searchable parent; a failure outside `errors.py` is a `PermissionError`; the full decision is `LegacyLogger.CheckPathDecides` |
| LegacyLogger.CheckPathDecides | logger.py:55-63 | a non-`local` path is accepted iff it is not a directory and its parent is a searchable directory; errors name the parent unless the path itself failed |
| LegacyLogger.LegacyLineIsCompleteRow | logger.py:89-92 | a legacy line for a one-line message is one complete row |
| LegacyLogger.LegacyLineInjective | logger.py:89-92 | time and message can be read back from a legacy line |
| LegacyLogger.Logger.Blank | logger.py:19 | a new object has no level and no `enabled` yet |
| LegacyLogger.Logger.Init | logger.py:22-44 | with defaults `INFO` and enabled: the path is stored unchecked first; a bad level then raises, keeping level and `enabled`; otherwise both are stored |
| LegacyLogger.Logger.SetOutputFile | logger.py:50-68 | `local` skips the checks; a failed check changes nothing; once stored, an existing file at the path is emptied |
| LegacyLogger.Logger.SetLevel | logger.py:74-79 | a valid name is stored upper-cased; a bad one raises and keeps the old level |
| LegacyLogger.Logger.IsValidLevel | logger.py:94-95 | for each call's level name, the check passes iff an enabled logger emits that call (`Levels.EmitsIffRank`); `ERROR` always passes |
| LegacyLogger.Logger.ClearFile | logger.py:81-83 | the output file exists and is empty |
| LegacyLogger.Logger.Write | logger.py:85-92 | when enabled, exactly one legacy line is appended; when disabled, nothing changes |
| LegacyLogger.Logger.Error | logger.py:97-98 | the files become `Logged(old files, error call)`, in red, with no level check |
| LegacyLogger.Logger.Warn | logger.py:100-103 | the files become `Logged(old files, warn call)`, in yellow |
| LegacyLogger.Logger.Info | logger.py:105-108 | the files become `Logged(old files, info call)`, in blue |
| LegacyLogger.Logger.Debug | logger.py:110-113 | the files become `Logged(old files, debug call)`, in white |
| LegacyLogger.LoggerClass.constructor | logger.py:13 | no instance is stored at first |
| LegacyLogger.LoggerClass.Call | logger.py:16-20 | with defaults `INFO`, enabled and not singleton: a non-singleton call, or the first singleton call, makes and stores a fresh object; a later singleton call re-initialises the stored one; the object stays stored when `__init__` raises; a logger stored before a non-singleton call keeps all its fields |
| TailScript.LastRows | __init__.py:25 | `rows[-n:]` keeps the last `n` rows in order, or all rows when there are fewer or when `n` is 0 |
| TailScript.LastRowsOfSuffix | __init__.py:16-23 | when more than `n` rows were read from a point of the file, their last `n` are the file's last `n` |
| TailScript.Tail | __init__.py:12-25 | for `lines > 0`, prints the file's last `lines` rows and a newline, whatever the seeks do; for 0, the output depends on the first seek |
| Pipeline.PrefixOfLogLine | livelog/reader.py:152 | the reader reads a logged line's token back, and its rank equals the logger's rank for the call |
| Pipeline.ColorsLoggedLine | livelog/reader.py:167-172 | colouring a logged line shows exactly its time and its message, in the colour the older logger uses for that call |
| Pipeline.ReaderSeesLoggedRows | livelog/reader.py:126 | reading a logged file gives back the logged lines, one row each |
| Pipeline.AppendedEntriesDelivered | livelog/reader.py:124-137 | an event after the logger appended lines delivers exactly those lines |
| Pipeline.ReaderAgreesWithLogger | livelog/reader.py:39-50 | a reader given the logger's minimum (`ERROR`, `INFO` or `DEBUG`) keeps every line the logger wrote |
| Pipeline.WarnMinimumRaises | livelog/reader.py:41-66 | a reader started with `warn` holds `"WARNING"` and raises `KeyError` on every non-empty batch |
| Pipeline.ErrorMinimumKeepsSkippedRow | livelog/reader.py:151-154 | at minimum `ERR!`, the rows `DBUG, INFO, WARN, ERR!` give `INFO, ERR!` |
| Pipeline.InfoMinimumScenario | livelog/reader.py:151-154 | four logged lines read at minimum `INFO` give the `INFO`, `WARN` and `ERR!` lines, in order |
| Pipeline.MalformedRowRaises | livelog/reader.py:152-153 | a first row with an unknown token stops the batch with `KeyError` |
| Pipeline.SkippedRowShownPlain | livelog/reader.py:109-115 | a row right after a deleted row is printed as it is with colours off, whatever its prefix; with colours on, an unknown prefix there raises `KeyError` |
| Pipeline.LegacyRowsRaise | logger.py:92 | rows of the older logger start with the dim code, which the reader rejects as a token |
| Pipeline.LegacyRowShownAfterDeletedRow | livelog/reader.py:109-111 | with colours off, a row of the older logger right after a deleted row is printed as it is |

## Left out

- The watchdog observer is not modelled (`start_reader`, `on_modified` as a callback, `input("")`, the polling fallback `loop_without_event`), and neither is the `ReadFile` handler with the `__main__` block of `__init__.py`. These are OS notification, threads and endless loops. A reader is its construction plus one `PrintOutput` per event.
- LiveReader.Reader.Start: does not model the wait loop of `livelog/reader.py` lines 71-75 (clearing the terminal, the waiting message, `sleep`). Once both checks pass, its precondition takes the disk as it is after the file appeared; a file that never appears, where the source waits forever, is not modelled.
- `datetime.now()` is not modelled; the timestamp is a parameter of each call.
- The platform default path is the parameter `defaultPath` (`system()`, `gettempdir()`).
- `livelog/__main__.py` (argument parsing) is not part of this model.
- Real path queries (`is_dir`, `access`, `resolve`) are not modelled. They are answers in `PathFacts`, and only the order of the decisions is modelled.
- Path normalisation by `Path(...)` is not modelled; paths are plain strings.
- Files are sequences of characters. Text-mode decoding, newline translation and seek cookies are not modelled, and the cursor counts characters.
- `open()` failures other than a missing file at the reader are not modelled. This covers permission loss during a session, and appending into a directory that does not exist: the older logger never checks the path its constructor stores.
- `Text.Upper`: maps ASCII letters only, not Python's full Unicode upper-casing.
- `LiveReader.Reader.FilterLogLevel`: returns the filtered sequence instead of mutating the caller's list. It does not model that the same list object is returned.
- `TailScript.Tail`: whether each end-relative seek raises is a parameter, required to raise past the start of the file. Under Python 3 text mode every such seek raises, so the whole file is read at once.
- `tail`'s `print` is not modelled beyond the text it prints; the terminal height behind `lines` is not modelled either.
- The `livelog` errors module that `reader.py` and `logger.py` import is not part of this model. Their errors carry the same names; the message texts modelled are those of `errors.py`.
- The `set_file` setter of `livelog/logger.py` (lines 75-79) is not modelled. The setter is registered under the name `set_file`, so `file` stays read-only, and `_verify_file(file=path)` is a call that Python rejects because `_verify_file` takes no such argument.
- The `file`, `level` and `output_file` property getters are not modelled; they only read a field.
- `Singleton` records instances by class; the model keys them by class name.
- The older logger's `__new__` detects the singleton flag from the fourth positional argument or the keyword. The model takes it as one boolean.
- A `PermissionError` from `is_file` on the older logger's `local` path is not modelled.
