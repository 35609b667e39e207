/**
 * The level table both write-side loggers declare (`_LEVELS` in
 * `livelog/logger.py` and in `logger.py`, identical), the four logging
 * calls, and the rule that decides which calls are written.
 */
module Levels {
  import opened Results
  import opened Text

  const LevelRanks: map<string, int> := map["ERROR" := 3, "WARNING" := 2, "INFO" := 1, "DEBUG" := 0]

  /** The shape `HH:MM:SS.mmm`: two-digit fields split by colons, then a dot and milliseconds. */
  predicate IsClockTime(s: string) {
    && |s| == 12 && s[2] == ':' && s[5] == ':' && s[8] == '.'
    && forall i :: 0 <= i < 12 && i != 2 && i != 5 && i != 8 ==> '0' <= s[i] <= '9'
  }

  /** `datetime.now().strftime("%H:%M:%S.%f")[:-3]`. */
  type Timestamp = s: string | IsClockTime(s) witness "00:00:00.000"

  lemma TimestampHasNoNewline(t: Timestamp)
    ensures |t| == 12 && '\n' !in t
  {
    forall i | 0 <= i < 12
      ensures t[i] != '\n'
    {
    }
  }

  /** The four logging methods. */
  datatype LogCall = ErrorCall | WarnCall | InfoCall | DebugCall

  /** The level name a method checks with `_is_valid_level` (`error` checks none; its rank is the top one). */
  function LevelName(c: LogCall): string {
    match c
    case ErrorCall => "ERROR"
    case WarnCall => "WARNING"
    case InfoCall => "INFO"
    case DebugCall => "DEBUG"
  }

  /** `level.upper()` when it is a key of the table, else nothing. */
  function Canonical(level: string): Option<string> {
    var l := Upper(level);
    if l in LevelRanks then Some(l) else None
  }

  /**
   * Whether a call writes a line: never when disabled; `error` always
   * when enabled; the others when `_LEVELS[configured] <= _LEVELS[name]`.
   */
  function Emits(enabled: bool, configured: string, c: LogCall): bool
    requires configured in LevelRanks
  {
    enabled && (c == ErrorCall || LevelRanks[configured] <= LevelRanks[LevelName(c)])
  }

  /** Level names are accepted ignoring case, and the stored name is the upper-case one. */
  lemma CanonicalAccepts(level: string)
    ensures Canonical(level).Some? <==> Upper(level) in {"ERROR", "WARNING", "INFO", "DEBUG"}
    ensures Canonical(level).Some? ==> Canonical(level).value == Upper(level) && Canonical(Canonical(level).value) == Canonical(level)
  {
    UpperIdempotent(level);
  }

  /**
   * `error` skips the level check, and that makes no difference: with
   * logging enabled, a call is written iff its level ranks at or above the
   * configured minimum.
   */
  lemma EmitsIffRank(configured: string, c: LogCall)
    requires configured in LevelRanks
    ensures Emits(true, configured, c) <==> LevelRanks[LevelName(c)] >= LevelRanks[configured]
    ensures !Emits(false, configured, c)
  {
  }

  /** Each minimum drops exactly the calls below it. */
  lemma MinimumsDropLowerCalls(c: LogCall)
    ensures Emits(true, "DEBUG", c)
    ensures Emits(true, "INFO", c) <==> c != DebugCall
    ensures Emits(true, "WARNING", c) <==> c == WarnCall || c == ErrorCall
    ensures Emits(true, "ERROR", c) <==> c == ErrorCall
  {
  }
}
