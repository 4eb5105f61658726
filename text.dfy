/**
 * Character and string helpers shared by the managers: ASCII digits and case,
 * decimal rendering of integers, and the line structure that Python's
 * `readlines()` / `next(file)` impose on a text file.
 */
module Text {

  predicate IsDigit(c: char) {
    '0' <= c <= '9'
  }

  /** Every character of `s` is an ASCII digit (Python's `\d` restricted to ASCII). */
  predicate AllDigits(s: string) {
    forall i :: 0 <= i < |s| ==> IsDigit(s[i])
  }

  /** `str.lower()` on one ASCII character. */
  function LowerChar(c: char): char {
    if 'A' <= c <= 'Z' then (c as int + 32) as char else c
  }

  function Lower(s: string): string {
    seq(|s|, i requires 0 <= i < |s| => LowerChar(s[i]))
  }

  /** `str.replace(old, new)` for single characters. */
  function ReplaceChar(s: string, from: char, to: char): string {
    seq(|s|, i requires 0 <= i < |s| => if s[i] == from then to else s[i])
  }

  /** `w` occurs in `s` at index `i`. */
  predicate OccursAt(s: string, w: string, i: int) {
    0 <= i && i + |w| <= |s| && s[i..i + |w|] == w
  }

  /** `re.search(w, s[from..])` for a pattern `w` without special characters: is there an occurrence at or after `from`? */
  function OccursFrom(s: string, w: string, from: nat): (r: bool)
    requires from <= |s|
    ensures r <==> exists i :: from <= i && OccursAt(s, w, i)
    decreases |s| - from
  {
    if from + |w| > |s| then false
    else if s[from..from + |w|] == w then assert OccursAt(s, w, from); true
    else
      assert w != [];
      OccursFrom(s, w, from + 1)
  }

  // ---------------------------------------------------------------------------
  // Decimal rendering, as an f-string renders a non-negative int.

  function DigitChar(d: nat): char
    requires d < 10
  {
    ('0' as int + d) as char
  }

  function DigitValue(c: char): nat
    requires IsDigit(c)
  {
    c as int - '0' as int
  }

  function Decimal(n: nat): (s: string)
    ensures |s| > 0 && AllDigits(s)
    ensures |s| > 1 ==> s[0] != '0'
  {
    if n < 10 then [DigitChar(n)] else Decimal(n / 10) + [DigitChar(n % 10)]
  }

  function Pow10(w: nat): (p: nat)
    ensures p >= 1
  {
    if w == 0 then 1 else 10 * Pow10(w - 1)
  }

  /** A number from `10^(w-1)` up to (not including) `10^w` is written with exactly `w` digits. */
  lemma {:induction false} DecimalWidth(n: nat, w: nat)
    requires 0 < w && (w == 1 || Pow10(w - 1) <= n) && n < Pow10(w)
    ensures |Decimal(n)| == w
  {
    if w > 1 {
      assert n >= 10;
      if w > 2 {
        assert Pow10(w - 1) == 10 * Pow10(w - 2);
        assert Pow10(w - 2) <= n / 10;
      }
      assert n / 10 < Pow10(w - 1);
      DecimalWidth(n / 10, w - 1);
    }
  }

  /** Reads a digit string back as a number (`int(s)`); the partner of `Decimal`. */
  function ParseDecimal(s: string): nat
    requires AllDigits(s)
  {
    if s == [] then 0 else ParseDecimal(s[..|s| - 1]) * 10 + DigitValue(s[|s| - 1])
  }

  lemma {:induction false} DecimalRoundTrip(n: nat)
    ensures ParseDecimal(Decimal(n)) == n
  {
    if n >= 10 {
      var s := Decimal(n);
      assert s[..|s| - 1] == Decimal(n / 10);
      DecimalRoundTrip(n / 10);
    }
  }

  // ---------------------------------------------------------------------------
  // Lines of a text file.

  /** `"".join(lines)` */
  function Concat(lines: seq<string>): string {
    if lines == [] then "" else lines[0] + Concat(lines[1..])
  }

  lemma {:induction false} ConcatAppend(a: seq<string>, b: seq<string>)
    ensures Concat(a + b) == Concat(a) + Concat(b)
  {
    if a == [] {
      assert a + b == b;
    } else {
      assert (a + b)[1..] == a[1..] + b;
      ConcatAppend(a[1..], b);
    }
  }

  /** A line as `readline()` returns it: non-empty, with a newline only as its last character. */
  predicate IsLine(l: string) {
    l != [] && forall j :: 0 <= j < |l| - 1 ==> l[j] != '\n'
  }

  /** A line that is not the last one of its file: it ends with a newline. */
  predicate IsFullLine(l: string) {
    IsLine(l) && l[|l| - 1] == '\n'
  }

  /** The index just past the first newline of `s`, or `|s|` when there is none. */
  function LineEnd(s: string): (k: nat)
    ensures k <= |s|
    ensures s != [] ==> 0 < k
    ensures forall j :: 0 <= j < k - 1 ==> s[j] != '\n'
    ensures k < |s| ==> 0 < k && s[k - 1] == '\n'
  {
    if s == [] then 0 else if s[0] == '\n' then 1 else 1 + LineEnd(s[1..])
  }

  /** `file.readlines()`: the lines of `s`, each keeping its newline. */
  function Lines(s: string): (ls: seq<string>)
    ensures Concat(ls) == s
    ensures forall i :: 0 <= i < |ls| ==> IsLine(ls[i])
    ensures forall i :: 0 <= i < |ls| - 1 ==> IsFullLine(ls[i])
    decreases |s|
  {
    if s == [] then []
    else
      var k := LineEnd(s);
      var rest := Lines(s[k..]);
      LinesStep(s, k, rest);
      [s[..k]] + rest
  }

  lemma LinesStep(s: string, k: nat, rest: seq<string>)
    requires s != [] && k == LineEnd(s)
    requires Concat(rest) == s[k..]
    requires forall i :: 0 <= i < |rest| ==> IsLine(rest[i])
    requires forall i :: 0 <= i < |rest| - 1 ==> IsFullLine(rest[i])
    ensures Concat([s[..k]] + rest) == s
    ensures forall i :: 0 <= i < |rest| + 1 ==> IsLine(([s[..k]] + rest)[i])
    ensures forall i :: 0 <= i < |rest| ==> IsFullLine(([s[..k]] + rest)[i])
  {
    ConcatFirst(s, k, rest);
    FirstLineShape(s, k, rest != []);
    ConsLines(s[..k], rest);
  }

  lemma ConcatFirst(s: string, k: nat, rest: seq<string>)
    requires k <= |s| && Concat(rest) == s[k..]
    ensures Concat([s[..k]] + rest) == s
  {
    assert ([s[..k]] + rest)[1..] == rest;
    assert s[..k] + s[k..] == s;
  }

  /** Putting a line in front of a list of lines keeps every line but the last full. */
  lemma ConsLines(first: string, rest: seq<string>)
    requires IsLine(first) && (rest != [] ==> IsFullLine(first))
    requires forall i :: 0 <= i < |rest| ==> IsLine(rest[i])
    requires forall i :: 0 <= i < |rest| - 1 ==> IsFullLine(rest[i])
    ensures forall i :: 0 <= i < |rest| + 1 ==> IsLine(([first] + rest)[i])
    ensures forall i :: 0 <= i < |rest| ==> IsFullLine(([first] + rest)[i])
  {
    var ls := [first] + rest;
    forall i | 0 <= i < |rest| + 1
      ensures IsLine(ls[i])
    {
      if i > 0 { assert ls[i] == rest[i - 1]; }
    }
    forall i | 0 <= i < |rest|
      ensures IsFullLine(ls[i])
    {
      if i > 0 { assert ls[i] == rest[i - 1]; }
    }
  }

  lemma FirstLineShape(s: string, k: nat, more: bool)
    requires s != [] && k == LineEnd(s)
    requires more ==> k < |s|
    ensures IsLine(s[..k])
    ensures more ==> IsFullLine(s[..k])
  {
    var first := s[..k];
    assert forall j :: 0 <= j < |first| - 1 ==> first[j] == s[j];
    if more {
      assert first[k - 1] == s[k - 1];
    }
  }

  /**
   * A text that starts with a full line reads back as that line followed by the
   * lines of the rest: the first line is the prefix up to and including the first newline.
   */
  lemma FirstLineOf(l: string, rest: string)
    requires IsFullLine(l)
    ensures Lines(l + rest)[0] == l
    ensures Lines(l + rest)[1..] == Lines(rest)
  {
    var s := l + rest;
    LineEndOfFullLine(l, rest);
    assert s[..|l|] == l;
    assert s[|l|..] == rest;
  }

  /** Splitting the concatenation of full lines gives the lines back. */
  lemma {:induction false} LinesOfConcat(ls: seq<string>)
    requires forall i :: 0 <= i < |ls| ==> IsFullLine(ls[i])
    ensures Lines(Concat(ls)) == ls
  {
    if ls != [] {
      var s := Concat(ls);
      var l := ls[0];
      assert s == l + Concat(ls[1..]);
      LineEndOfFullLine(l, Concat(ls[1..]));
      assert s[..LineEnd(s)] == l;
      assert s[LineEnd(s)..] == Concat(ls[1..]);
      LinesOfConcat(ls[1..]);
    }
  }

  /** Joining lines that all end in a newline and splitting the result again gives the lines back. */
  lemma JoinedLines(ls: seq<string>)
    ensures (forall i :: 0 <= i < |ls| ==> IsFullLine(ls[i])) ==> Lines(Concat(ls)) == ls
  {
    if forall i :: 0 <= i < |ls| ==> IsFullLine(ls[i]) {
      LinesOfConcat(ls);
    }
  }

  lemma LineEndOfFullLine(l: string, rest: string)
    requires IsFullLine(l)
    ensures LineEnd(l + rest) == |l|
  {
    var s := l + rest;
    assert s[|l| - 1] == '\n';
  }

  /** `"".join(file.readlines()[n:])`: the text without its first `n` lines. */
  function DropLines(s: string, n: nat): string {
    var ls := Lines(s);
    Concat(ls[if n <= |ls| then n else |ls|..])
  }

  /**
   * Dropping the first `n` lines of a text leaves a suffix of it: the dropped
   * lines followed by the rest make up the whole text again.
   */
  lemma DropLinesSuffix(s: string, n: nat)
    ensures var ls := Lines(s);
            Concat(ls[..if n <= |ls| then n else |ls|]) + DropLines(s, n) == s
  {
    var ls := Lines(s);
    var m := if n <= |ls| then n else |ls|;
    assert ls == ls[..m] + ls[m..];
    ConcatAppend(ls[..m], ls[m..]);
  }

  /** When a file holds newline-terminated lines, dropping `n` of them leaves exactly the later lines. */
  lemma DropLinesOfConcat(lines: seq<string>, n: nat)
    requires forall i :: 0 <= i < |lines| ==> IsFullLine(lines[i])
    ensures DropLines(Concat(lines), n) == Concat(lines[if n <= |lines| then n else |lines|..])
  {
    LinesOfConcat(lines);
  }
}
