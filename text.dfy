/** String helpers with Python's semantics: `startswith`, `in`, `split(sep)`,
    `sep.join`, `rstrip()`, `splitlines()` and `str(n)` for a natural number. */
module Text {

  /** `s.startswith(p)` */
  predicate StartsWith(s: string, p: string) {
    |p| <= |s| && s[..|p|] == p
  }

  /** `d` occurs in `s` starting at index `j` */
  predicate OccursAt(s: string, d: string, j: int) {
    0 <= j && j + |d| <= |s| && s[j..j + |d|] == d
  }

  /** `d in s` */
  predicate Contains(s: string, d: string) {
    exists j | 0 <= j <= |s| - |d| :: OccursAt(s, d, j)
  }

  /** The first index at or after `from` where `d` occurs in `s`, or -1 (`s.find(d, from)`). */
  function FindFrom(s: string, d: string, from: nat): (k: int)
    ensures k == -1 || (from <= k && OccursAt(s, d, k))
    ensures forall j :: from <= j < (if k == -1 then |s| + 1 else k) ==> !OccursAt(s, d, j)
    decreases |s| - from
  {
    if from + |d| > |s| then -1
    else if s[from..from + |d|] == d then from
    else FindFrom(s, d, from + 1)
  }

  function Find(s: string, d: string): (k: int)
    ensures k >= 0 <==> Contains(s, d)
    ensures k >= 0 ==> OccursAt(s, d, k) && forall j :: 0 <= j < k ==> !OccursAt(s, d, j)
  {
    var k := FindFrom(s, d, 0);
    assert k == -1 ==> forall j :: !OccursAt(s, d, j) by {
      if k == -1 {
        forall j ensures !OccursAt(s, d, j) {
          if 0 <= j <= |s| { } else { }
        }
      }
    }
    k
  }

  /** `s.split(d)`: cut at every leftmost, non-overlapping occurrence of `d`. */
  function Split(s: string, d: string): (parts: seq<string>)
    requires d != ""
    ensures |parts| >= 1
    decreases |s|
  {
    var k := Find(s, d);
    if k < 0 then [s] else [s[..k]] + Split(s[k + |d|..], d)
  }

  /** `d.join(parts)` */
  function Join(parts: seq<string>, d: string): string
    decreases |parts|
  {
    if |parts| == 0 then ""
    else if |parts| == 1 then parts[0]
    else parts[0] + d + Join(parts[1..], d)
  }

  /** `"".join(parts)` */
  function Concat(parts: seq<string>): string
    decreases |parts|
  {
    if parts == [] then "" else parts[0] + Concat(parts[1..])
  }

  lemma {:induction false} ConcatAppend(a: seq<string>, b: seq<string>)
    ensures Concat(a + b) == Concat(a) + Concat(b)
    decreases |a|
  {
    if a == [] {
      assert a + b == b;
    } else {
      assert (a + b)[1..] == a[1..] + b;
      ConcatAppend(a[1..], b);
    }
  }

  /** Appending sequences is associative. */
  lemma AppendAssoc<T>(a: seq<T>, b: seq<T>, c: seq<T>)
    ensures a + (b + c) == (a + b) + c
  {
  }

  /** Joining the pieces of a split with the same delimiter gives the string back. */
  lemma {:induction false} JoinSplit(s: string, d: string)
    requires d != ""
    ensures Join(Split(s, d), d) == s
    decreases |s|
  {
    var k := Find(s, d);
    if k >= 0 {
      var rest := s[k + |d|..];
      JoinSplit(rest, d);
      var tail := Split(rest, d);
      var parts := Split(s, d);
      assert parts == [s[..k]] + tail;
      assert parts[0] == s[..k] && parts[1..] == tail;
      assert Join(parts, d) == s[..k] + d + rest;
      assert s[k..k + |d|] == d;
      CutTwice(s, k, k + |d|);
    }
  }

  lemma CutTwice(s: string, i: nat, j: nat)
    requires i <= j <= |s|
    ensures s == s[..i] + s[i..j] + s[j..]
  {
  }

  /** No piece of a split contains the delimiter. */
  lemma {:induction false} SplitPartsFree(s: string, d: string)
    requires d != ""
    ensures forall i :: 0 <= i < |Split(s, d)| ==> !Contains(Split(s, d)[i], d)
    decreases |s|
  {
    var k := Find(s, d);
    if k < 0 {
    } else {
      var rest := s[k + |d|..];
      SplitPartsFree(rest, d);
      var head := s[..k];
      forall j | OccursAt(head, d, j) ensures false {
        assert head[j..j + |d|] == s[j..j + |d|];
        assert OccursAt(s, d, j);
      }
      var parts := Split(s, d);
      var tail := Split(rest, d);
      assert parts == [head] + tail;
      forall i | 0 < i < |parts| ensures !Contains(parts[i], d) {
        assert parts[i] == tail[i - 1];
      }
    }
  }

  /** Splitting a text joined with a one-character delimiter that no part contains
      gives the parts back. */
  lemma {:induction false} SplitJoin(parts: seq<string>, c: char)
    requires |parts| >= 1
    requires forall i :: 0 <= i < |parts| ==> c !in parts[i]
    ensures Split(Join(parts, [c]), [c]) == parts
    decreases |parts|
  {
    var s := Join(parts, [c]);
    var p := parts[0];
    assert forall j :: 0 <= j < |p| ==> !OccursAt(s, [c], j) by {
      forall j | 0 <= j < |p| ensures !OccursAt(s, [c], j) {
        assert s[j] == p[j];
        assert [s[j]] != [c];
        assert s[j..j + 1] == [s[j]];
      }
    }
    if |parts| == 1 {
      assert s == p;
      assert !Contains(s, [c]) by {
        forall j | OccursAt(s, [c], j) ensures false {
        }
      }
    } else {
      var rest := Join(parts[1..], [c]);
      assert s == p + [c] + rest;
      assert OccursAt(s, [c], |p|) by { assert s[|p|..|p| + 1] == [c]; }
      assert Find(s, [c]) == |p|;
      assert s[..|p|] == p;
      assert s[|p| + 1..] == rest;
      SplitJoin(parts[1..], c);
      assert parts == [p] + parts[1..];
    }
  }

  /** The characters Python's `str.isspace` accepts. */
  predicate IsSpace(c: char) {
    c == ' ' || ('\t' <= c <= '\r') || ('\U{1c}' <= c <= '\U{1f}') || c == '\U{85}' || c == '\U{a0}'
    || c == '\U{1680}' || ('\U{2000}' <= c <= '\U{200a}') || c == '\U{2028}' || c == '\U{2029}'
    || c == '\U{202f}' || c == '\U{205f}' || c == '\U{3000}'
  }

  /** `s.rstrip()`: the longest prefix of `s` that ends in a non-space character. */
  function RStrip(s: string): (r: string)
    ensures |r| <= |s| && r == s[..|r|]
    ensures r == "" || !IsSpace(r[|r| - 1])
    ensures forall i :: |r| <= i < |s| ==> IsSpace(s[i])
    decreases |s|
  {
    if s == "" then ""
    else if IsSpace(s[|s| - 1]) then RStrip(s[..|s| - 1])
    else s
  }

  /** The line boundaries of Python's `str.splitlines`. */
  predicate IsLineBreak(c: char) {
    c == '\n' || c == '\r' || c == '\U{0b}' || c == '\U{0c}' || ('\U{1c}' <= c <= '\U{1e}')
    || c == '\U{85}' || c == '\U{2028}' || c == '\U{2029}'
  }

  predicate NoBreaks(s: string) {
    forall i :: 0 <= i < |s| ==> !IsLineBreak(s[i])
  }

  /** The index of the first line boundary at or after `from`, or `|s|`. */
  function BreakFrom(s: string, from: nat): (k: nat)
    requires from <= |s|
    ensures from <= k <= |s|
    ensures k < |s| ==> IsLineBreak(s[k])
    ensures forall i :: from <= i < k ==> !IsLineBreak(s[i])
    decreases |s| - from
  {
    if from == |s| || IsLineBreak(s[from]) then from else BreakFrom(s, from + 1)
  }

  /** `s.splitlines()`: `\r\n` counts as one boundary and a final boundary does not
      open an empty last line. */
  function SplitLines(s: string): (lines: seq<string>)
    ensures forall i :: 0 <= i < |lines| ==> NoBreaks(lines[i])
    decreases |s|
  {
    if s == "" then []
    else
      var k := BreakFrom(s, 0);
      if k == |s| then [s]
      else
        var skip := if s[k] == '\r' && k + 1 < |s| && s[k + 1] == '\n' then 2 else 1;
        [s[..k]] + SplitLines(s[k + skip..])
  }

  /** Each line followed by a newline, as a text file holding these lines is written. */
  function Terminated(lines: seq<string>): string
    decreases |lines|
  {
    if lines == [] then "" else lines[0] + "\n" + Terminated(lines[1..])
  }

  /** A text whose every line ends in a newline splits back into exactly those lines. */
  lemma {:induction false} SplitLinesTerminated(lines: seq<string>)
    requires forall i :: 0 <= i < |lines| ==> NoBreaks(lines[i])
    ensures SplitLines(Terminated(lines)) == lines
    decreases |lines|
  {
    if lines != [] {
      SplitLinesTerminated(lines[1..]);
      FirstLine(lines[0], Terminated(lines[1..]));
      assert lines == [lines[0]] + lines[1..];
    }
  }

  /** A line without boundaries followed by a newline is the first line of the text. */
  lemma FirstLine(l: string, rest: string)
    requires NoBreaks(l)
    ensures SplitLines(l + "\n" + rest) == [l] + SplitLines(rest)
  {
    var s := l + "\n" + rest;
    assert s[|l|] == '\n';
    forall i | 0 <= i < |l| ensures !IsLineBreak(s[i]) {
      assert s[i] == l[i];
    }
    BreakFirst(s, 0, |l|);
    assert s[..|l|] == l;
    assert s[|l| + 1..] == rest;
  }

  lemma {:induction false} BreakFirst(s: string, from: nat, k: nat)
    requires from <= k < |s| && IsLineBreak(s[k])
    requires forall i :: from <= i < k ==> !IsLineBreak(s[i])
    ensures BreakFrom(s, from) == k
    decreases k - from
  {
    if from < k {
      BreakFirst(s, from + 1, k);
    }
  }

  predicate IsDigit(c: char) {
    '0' <= c <= '9'
  }

  /** `str(n)` for a natural number: its decimal digits, no leading zero. */
  function NatToString(n: nat): (r: string)
    ensures |r| >= 1 && forall i :: 0 <= i < |r| ==> IsDigit(r[i])
    ensures |r| > 1 ==> r[0] != '0'
    decreases n
  {
    var d := [('0' as int + n % 10) as char];
    if n < 10 then d else NatToString(n / 10) + d
  }

  /** The number a string of decimal digits denotes. */
  function ParseNat(s: string): nat
    requires forall i :: 0 <= i < |s| ==> IsDigit(s[i])
    decreases |s|
  {
    if s == "" then 0
    else
      assert IsDigit(s[|s| - 1]);
      ParseNat(s[..|s| - 1]) * 10 + (s[|s| - 1] as int - '0' as int)
  }

  lemma {:induction false} ParseNatToString(n: nat)
    ensures ParseNat(NatToString(n)) == n
    decreases n
  {
    if n >= 10 {
      var r := NatToString(n);
      ParseNatToString(n / 10);
      assert r[..|r| - 1] == NatToString(n / 10);
    }
  }
}
