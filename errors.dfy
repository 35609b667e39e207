/**
 * The exceptions the log tools raise. The first three are the validation
 * errors of `errors.py`, each built from a path; the others are the
 * exceptions Python itself raises on the paths the tools leave unguarded.
 */
module Errors {

  datatype Error =
    | LogFileIsADirectory(path: string)
    | LogPathDoesNotExist(path: string)
    | LogPathInsufficientPermissions(path: string)
      /** An unknown minimum level (raised by the `livelog` package; its message is not modelled). */
    | LogLevelDoesNotExist(level: string)
      /** A dictionary lookup of a missing key. */
    | KeyError(key: string)
      /** A `stat` refused by the operating system, not caught by the caller. */
    | PermissionError(path: string)
      /** `open(path, "r")` of a file that is not there. */
    | FileNotFound(path: string)
      /** A name used but never defined. */
    | NameError(name: string)

  /** The three errors of `errors.py`. */
  predicate IsPathError(e: Error) {
    e.LogFileIsADirectory? || e.LogPathDoesNotExist? || e.LogPathInsufficientPermissions?
  }

  /** `"(\"" + path + "\")"`: how every message shows its path. */
  function Quoted(path: string): string {
    "(\"" + path + "\")"
  }

  /** The text before and after the quoted path, per error kind. */
  function Lead(e: Error): string
    requires IsPathError(e)
  {
    match e
    case LogFileIsADirectory(_) => "Provided logging file "
    case LogPathDoesNotExist(_) => "Provided logging directory "
    case LogPathInsufficientPermissions(_) =>
      "You do not have permissions " + "to read and/or write to " + "provided logging directory "
  }

  function Trail(e: Error): string
    requires IsPathError(e)
  {
    match e
    case LogFileIsADirectory(_) => " is a directory."
    case LogPathDoesNotExist(_) => " does not exist " + "or is not a directory."
    case LogPathInsufficientPermissions(_) => "."
  }

  /** The exception message (`str(e)`) of an `errors.py` error. */
  function Message(e: Error): (m: string)
    requires IsPathError(e)
    ensures |m| > 0 && m[|m| - 1] == '.'
  {
    Lead(e) + Quoted(e.path) + Trail(e)
  }

  /** `m` holds `Quoted(path)` starting at index `i`. */
  ghost predicate QuotedAt(m: string, path: string, i: int) {
    0 <= i <= |m| - |path| - 4 && m[i..i + |path| + 4] == Quoted(path)
  }

  /** The path stands verbatim between double quotes inside the parentheses of the message. */
  lemma MessageQuotesPath(e: Error)
    requires IsPathError(e)
    ensures exists i :: QuotedAt(Message(e), e.path, i)
  {
    var m := Message(e);
    var i := |Lead(e)|;
    assert m[i..i + |e.path| + 4] == Quoted(e.path);
    assert QuotedAt(m, e.path, i);
  }

  /** The character at index 17 of a message tells the three kinds apart. */
  lemma KindMark(e: Error)
    requires IsPathError(e)
    ensures Message(e)[17] == (if e.LogFileIsADirectory? then 'f' else if e.LogPathDoesNotExist? then 'd' else 'e')
  {
    assert Message(e)[17] == Lead(e)[17];
  }

  /** A message tells which error it is and which path it names. */
  lemma MessageInjective(e1: Error, e2: Error)
    requires IsPathError(e1) && IsPathError(e2)
    requires Message(e1) == Message(e2)
    ensures e1 == e2
  {
    KindMark(e1);
    KindMark(e2);
    assert Lead(e1) == Lead(e2) && Trail(e1) == Trail(e2);
    PathInMessage(e1);
    PathInMessage(e2);
  }

  /** Where the path sits in the message. */
  lemma PathInMessage(e: Error)
    requires IsPathError(e)
    ensures Message(e)[|Lead(e)| + 2..|Message(e)| - |Trail(e)| - 2] == e.path
  {
    var m, l, t := Message(e), Lead(e), Trail(e);
    assert m == l + "(\"" + e.path + "\")" + t;
    assert |m| - |t| - 2 == |l| + 2 + |e.path|;
    forall k | 0 <= k < |e.path|
      ensures m[|l| + 2 + k] == e.path[k]
    {
    }
  }

  /** For one path the three messages are pairwise different. */
  lemma MessagesDiffer(p: string)
    ensures Message(LogFileIsADirectory(p)) != Message(LogPathDoesNotExist(p))
    ensures Message(LogFileIsADirectory(p)) != Message(LogPathInsufficientPermissions(p))
    ensures Message(LogPathDoesNotExist(p)) != Message(LogPathInsufficientPermissions(p))
  {
    KindMark(LogFileIsADirectory(p));
    KindMark(LogPathDoesNotExist(p));
    KindMark(LogPathInsufficientPermissions(p));
  }
}
