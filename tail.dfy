/**
 * `tail(file_name, lines)` of the package's `__init__.py`: print the last
 * `lines` rows of a file. It seeks `pos` characters back from the end,
 * reads the rows from there, and doubles `pos` until it holds more than
 * `lines` rows; when a seek raises, it reads the whole file instead.
 */
module TailScript {
  import opened Text

  /** `rows[-n:]`: the last `n` rows, all of them when there are fewer, and also all of them when `n` is 0. */
  function LastRows(rows: seq<string>, n: nat): (r: seq<string>)
    ensures n > 0 ==> |r| == (if n < |rows| then n else |rows|)
    ensures n == 0 ==> r == rows
    ensures forall k :: 0 <= k < |r| ==> r[k] == rows[|rows| - |r| + k]
  {
    if n == 0 || n >= |rows| then rows else rows[|rows| - n..]
  }

  /** Rows in front do not change the last `n`, as long as there are `n` after them. */
  lemma LastRowsAfter(front: seq<string>, rows: seq<string>, n: nat)
    requires 0 < n <= |rows|
    ensures LastRows(front + rows, n) == LastRows(rows, n)
  {
    var all := front + rows;
    if n < |all| {
      assert all[|all| - n..] == rows[|rows| - n..];
    }
  }

  /**
   * Reading from any point of a file yields, past its first (possibly
   * partial) row, the file's own last rows: so when more than `n` rows were
   * read, their last `n` are the file's last `n`.
   */
  lemma LastRowsOfSuffix(s: string, q: nat, n: nat)
    requires q <= |s| && 0 < n < |Lines(s[q..])|
    ensures LastRows(Lines(s[q..]), n) == LastRows(Lines(s), n)
  {
    var b := s[q..];
    var m := LineLength(b);
    var t := b[m..];
    assert Lines(b) == [b[..m]] + Lines(t);
    assert s[..q + m] + t == s;
    assert s[q + m - 1] == b[m - 1] == '\n';
    LinesAppend(s[..q + m], t);
    LastRowsAfter([b[..m]], Lines(t), n);
    LastRowsAfter(Lines(s[..q + m]), Lines(t), n);
  }

  /**
   * `tail`. Whether `f.seek(-p, 2)` raises is given as `seekFails`; it
   * raises at least when `p` reaches past the start of the file. What is
   * printed is the last `lines` rows followed by `print`'s newline, whatever
   * the seeks do; with `lines` 0 it depends on the first seek.
   */
  method Tail(content: string, lines: nat, seekFails: nat -> bool) returns (printed: string)
    requires forall p :: p > |content| ==> seekFails(p)
    ensures lines > 0 ==> printed == Concat(LastRows(Lines(content), lines)) + "\n"
    ensures lines == 0 ==> printed == (if content != [] && !seekFails(1) then content[|content| - 1..] else content) + "\n"
  {
    var pos := lines + 1;
    var rows: seq<string> := [];
    ghost var from: nat := |content|;
    while |rows| <= lines
      invariant pos >= lines + 1 && from <= |content| && rows == Lines(content[from..])
      invariant pos == lines + 1 ==> rows == []
      invariant lines == 0 && pos != 1 ==> from == |content| - 1 && !seekFails(1)
      decreases if pos <= |content| then |content| + 1 - pos else 0
    {
      if seekFails(pos) {
        rows := Lines(content);
        from := 0;
        break;
      }
      from := |content| - pos;
      rows := Lines(content[|content| - pos..]);
      pos := pos * 2;
    }
    if from != 0 && lines > 0 {
      LastRowsOfSuffix(content, from, lines);
    }
    if lines == 0 && pos != 1 {
      var last := content[from..];
      assert LineLength(last) == 1;
      assert last[..1] == last && last[1..] == [];
      assert Lines(last) == [last];
      assert Concat([last]) == last;
    } else {
      ConcatLines(content);
    }
    printed := Concat(LastRows(rows, lines)) + "\n";
  }
}
