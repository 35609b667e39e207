/**
 * The Python string and list operations the log tools rely on, over
 * `string` (a sequence of characters): upper-casing, clamped slicing,
 * `"".join`, and the line splitting done by iterating over a text file
 * (`list(f)`), which cuts after every newline and keeps it.
 */
module Text {

  /** `str.upper()` on one character; only ASCII letters are mapped. */
  function UpperChar(c: char): char {
    if 'a' <= c <= 'z' then (c as int - 32) as char else c
  }

  /** `str.upper()`, for ASCII letters. */
  function Upper(s: string): (u: string)
    ensures |u| == |s|
  {
    seq(|s|, i requires 0 <= i < |s| => UpperChar(s[i]))
  }

  lemma UpperIdempotent(s: string)
    ensures Upper(Upper(s)) == Upper(s)
  {
    assert forall i :: 0 <= i < |s| ==> UpperChar(UpperChar(s[i])) == UpperChar(s[i]);
  }

  /** Text without lower-case ASCII letters is its own upper case. */
  lemma UpperKeeps(s: string)
    requires forall i :: 0 <= i < |s| ==> !('a' <= s[i] <= 'z')
    ensures Upper(s) == s
  {
  }

  /** Python's `s[lo:hi]` for 0 <= lo <= hi: both ends are clamped to the length. */
  function Slice(s: string, lo: nat, hi: nat): (r: string)
    requires lo <= hi
    ensures |r| <= hi - lo
  {
    if hi <= |s| then s[lo..hi] else if lo <= |s| then s[lo..] else []
  }

  /** Python's `s[lo:]`. */
  function From(s: string, lo: nat): (r: string)
    ensures lo <= |s| ==> r == s[lo..]
    ensures lo >= |s| ==> r == []
  {
    if lo <= |s| then s[lo..] else []
  }

  /** `"".join(xs)`. */
  function Concat(xs: seq<string>): string {
    if xs == [] then [] else xs[0] + Concat(xs[1..])
  }

  /** `sum(map(len, xs))`. */
  function SumLengths(xs: seq<string>): nat {
    if xs == [] then 0 else |xs[0]| + SumLengths(xs[1..])
  }

  lemma {:induction false} SumLengthsIsConcatLength(xs: seq<string>)
    ensures SumLengths(xs) == |Concat(xs)|
  {
    if xs != [] {
      SumLengthsIsConcatLength(xs[1..]);
    }
  }

  /** Length of the first line of `s`: up to and including the first newline, or all of `s`. */
  function LineLength(s: string): (n: nat)
    requires s != []
    ensures 1 <= n <= |s|
    ensures forall i :: 0 <= i < n - 1 ==> s[i] != '\n'
    ensures n < |s| ==> s[n - 1] == '\n'
  {
    if s[0] == '\n' || |s| == 1 then 1 else 1 + LineLength(s[1..])
  }

  /** `list(f)` on a text file positioned at the start of `s`. */
  function Lines(s: string): (rows: seq<string>)
    ensures |rows| <= |s|
    decreases |s|
  {
    if s == [] then [] else var n := LineLength(s); [s[..n]] + Lines(s[n..])
  }

  /** A row as `list(f)` yields it: non-empty, with a newline at most at its end. */
  ghost predicate IsRow(l: string) {
    l != [] && forall i :: 0 <= i < |l| - 1 ==> l[i] != '\n'
  }

  /** A row that ends with its newline. */
  ghost predicate IsCompleteRow(l: string) {
    IsRow(l) && l[|l| - 1] == '\n'
  }

  /** Splitting into rows loses nothing: joining them gives the text back. */
  lemma {:induction false} ConcatLines(s: string)
    ensures Concat(Lines(s)) == s
    decreases |s|
  {
    if s != [] {
      var n := LineLength(s);
      ConcatLines(s[n..]);
      assert s[..n] + s[n..] == s;
    }
  }

  /** Every row is a row, and every row but the last ends with its newline. */
  lemma {:induction false} LinesAreRows(s: string)
    ensures forall k :: 0 <= k < |Lines(s)| ==> IsRow(Lines(s)[k])
    ensures forall k :: 0 <= k < |Lines(s)| - 1 ==> IsCompleteRow(Lines(s)[k])
    decreases |s|
  {
    if s != [] {
      var n := LineLength(s);
      LinesAreRows(s[n..]);
      var rows := Lines(s);
      assert rows == [s[..n]] + Lines(s[n..]);
      assert IsRow(s[..n]);
      if |rows| > 1 {
        assert s[n..] != [];
        assert IsCompleteRow(s[..n]);
      }
      forall k | 0 <= k < |rows|
        ensures IsRow(rows[k])
        ensures k < |rows| - 1 ==> IsCompleteRow(rows[k])
      {
        if k > 0 {
          assert rows[k] == Lines(s[n..])[k - 1];
        }
      }
    }
  }

  lemma SumLengthsOfLines(s: string)
    ensures SumLengths(Lines(s)) == |s|
  {
    SumLengthsIsConcatLength(Lines(s));
    ConcatLines(s);
  }

  /** The first line of a text is fixed by where its first newline is. */
  lemma {:induction false} LineLengthAt(s: string, n: nat)
    requires 1 <= n <= |s| && s[n - 1] == '\n'
    requires forall i :: 0 <= i < n - 1 ==> s[i] != '\n'
    ensures LineLength(s) == n
  {
    if n > 1 {
      LineLengthAt(s[1..], n - 1);
    }
  }

  /** Text after a newline splits independently of what came before it. */
  lemma {:induction false} LinesAppend(a: string, b: string)
    requires a == [] || a[|a| - 1] == '\n'
    ensures Lines(a + b) == Lines(a) + Lines(b)
    decreases |a|
  {
    if a == [] {
      assert a + b == b;
    } else {
      var n := LineLength(a);
      assert a[n - 1] == '\n';
      LineLengthAt(a + b, n);
      assert (a + b)[..n] == a[..n];
      assert (a + b)[n..] == a[n..] + b;
      LinesAppend(a[n..], b);
    }
  }

  /** A complete row in front of a text becomes its own row. */
  lemma CompleteRowSplits(l: string, rest: string)
    requires IsCompleteRow(l)
    ensures Lines(l + rest) == [l] + Lines(rest)
  {
    LineLengthAt(l, |l|);
    assert l[|l|..] == [];
    LinesAppend(l, rest);
  }

  /** Joining complete rows and splitting again gives the same rows. */
  lemma {:induction false} LinesOfCompleteRows(rows: seq<string>)
    requires forall k :: 0 <= k < |rows| ==> IsCompleteRow(rows[k])
    ensures Lines(Concat(rows)) == rows
  {
    if rows != [] {
      LinesOfCompleteRows(rows[1..]);
      CompleteRowSplits(rows[0], Concat(rows[1..]));
    }
  }

  /** The elements of `xs` whose mark is false, in order. */
  function Select<T>(xs: seq<T>, drop: seq<bool>): seq<T>
    requires |drop| == |xs|
  {
    if xs == [] then [] else (if drop[0] then [] else [xs[0]]) + Select(xs[1..], drop[1..])
  }
}
