/**
 * The log-scraping pattern `(\d+\.\d+\.\d+\.\d+):(\d+)` that both SRT managers
 * run over the receiver's log: four digit runs joined by dots, a colon, and a
 * digit run. Octets are not range-checked; any digit run is accepted.
 *
 * `ShapeAt` says declaratively what a regex match at a given start index is;
 * `ScanAt`, `Search` and `FindAll` compute matches the way `re.search` and
 * `re.findall` do, and are proved to agree with it.
 */
module EndpointPattern {
  import opened Wrappers
  import opened Text

  /**
   * A match: where it starts, where the three dots and the colon are, and where it ends.
   * Group 1 (the address) is `s[start..colon]`, group 2 (the port) is `s[colon + 1..end]`.
   */
  datatype Match = Match(start: nat, dot1: nat, dot2: nat, dot3: nat, colon: nat, end: nat)

  /** `s[lo..hi]` is a non-empty run of digits. */
  predicate DigitsIn(s: string, lo: nat, hi: nat) {
    lo < hi <= |s| && forall k :: lo <= k < hi ==> IsDigit(s[k])
  }

  /**
   * The regex matches at `m.start` with the groups `m` delimits. The port's `\d+`
   * is greedy, so the port run is maximal; the address runs are maximal anyway,
   * since each is followed by a dot or the colon.
   */
  predicate ShapeAt(s: string, m: Match) {
    && DigitsIn(s, m.start, m.dot1) && m.dot1 < |s| && s[m.dot1] == '.'
    && DigitsIn(s, m.dot1 + 1, m.dot2) && m.dot2 < |s| && s[m.dot2] == '.'
    && DigitsIn(s, m.dot2 + 1, m.dot3) && m.dot3 < |s| && s[m.dot3] == '.'
    && DigitsIn(s, m.dot3 + 1, m.colon) && m.colon < |s| && s[m.colon] == ':'
    && DigitsIn(s, m.colon + 1, m.end)
    && (m.end == |s| || !IsDigit(s[m.end]))
  }

  /** Some match of the pattern starts at index `i`. */
  ghost predicate MatchesAt(s: string, i: int) {
    exists m: Match :: m.start == i && ShapeAt(s, m)
  }

  /** No match starts in `[lo, hi)`. */
  ghost predicate NoMatchIn(s: string, lo: int, hi: int) {
    forall k :: lo <= k < hi ==> !MatchesAt(s, k)
  }

  function Address(s: string, m: Match): string
    requires ShapeAt(s, m)
  {
    s[m.start..m.colon]
  }

  function Port(s: string, m: Match): string
    requires ShapeAt(s, m)
  {
    s[m.colon + 1..m.end]
  }

  /** Four non-empty digit runs joined by dots. */
  ghost predicate DottedQuad(w: string) {
    exists i, j, k :: && 0 < i && i + 1 < j && j + 1 < k && k + 1 < |w|
                      && w[i] == '.' && w[j] == '.' && w[k] == '.'
                      && AllDigits(w[..i]) && AllDigits(w[i + 1..j])
                      && AllDigits(w[j + 1..k]) && AllDigits(w[k + 1..])
  }

  /** Every match yields a dotted-quad address and a non-empty all-digit port. */
  lemma GroupsWellFormed(s: string, m: Match)
    requires ShapeAt(s, m)
    ensures DottedQuad(Address(s, m))
    ensures Port(s, m) != [] && AllDigits(Port(s, m))
  {
    var w := Address(s, m);
    var i, j, k := m.dot1 - m.start, m.dot2 - m.start, m.dot3 - m.start;
    forall t | 0 <= t < |w| && t != i && t != j && t != k
      ensures IsDigit(w[t])
    {
      assert w[t] == s[m.start + t];
    }
    QuadAt(w, i, j, k);
  }

  /** Digits everywhere except at three separating dots make a dotted quad. */
  lemma QuadAt(w: string, i: nat, j: nat, k: nat)
    requires 0 < i && i + 1 < j && j + 1 < k && k + 1 < |w|
    requires w[i] == '.' && w[j] == '.' && w[k] == '.'
    requires forall t :: 0 <= t < |w| && t != i && t != j && t != k ==> IsDigit(w[t])
    ensures DottedQuad(w)
  {
    assert AllDigits(w[..i]) && AllDigits(w[i + 1..j]);
    assert AllDigits(w[j + 1..k]) && AllDigits(w[k + 1..]);
  }

  // ---------------------------------------------------------------------------
  // The scanner.

  /** The index just past the maximal digit run that starts at `k`. */
  function RunEnd(s: string, k: nat): (e: nat)
    requires k <= |s|
    ensures k <= e <= |s|
    decreases |s| - k
  {
    if k < |s| && IsDigit(s[k]) then RunEnd(s, k + 1) else k
  }

  /** The run `RunEnd` skips is all digits, and it stops at a non-digit or the end. */
  lemma {:induction false} RunEndSpec(s: string, k: nat)
    requires k <= |s|
    ensures forall j :: k <= j < RunEnd(s, k) ==> IsDigit(s[j])
    ensures RunEnd(s, k) == |s| || !IsDigit(s[RunEnd(s, k)])
    decreases |s| - k
  {
    if k < |s| && IsDigit(s[k]) {
      RunEndSpec(s, k + 1);
    }
  }

  /** A digit run that is followed by a non-digit (or the end) is the maximal run. */
  lemma {:induction false} RunEndAt(s: string, k: nat, e: nat)
    requires k < e <= |s| && DigitsIn(s, k, e)
    requires e == |s| || !IsDigit(s[e])
    ensures RunEnd(s, k) == e
    decreases e - k
  {
    if k + 1 < e {
      RunEndAt(s, k + 1, e);
    }
  }

  /** The end of a non-empty digit run starting at `k` that is followed by `sep`, if any. */
  function DigitsThen(s: string, k: nat, sep: char): (r: Option<nat>)
    requires k <= |s|
    ensures r.Some? ==> k < r.value < |s| && s[r.value] == sep
  {
    var e := RunEnd(s, k);
    if e == k || e == |s| || s[e] != sep then None else Some(e)
  }

  /** What `DigitsThen` finds is a digit run ending right before `sep`. */
  lemma DigitsThenSpec(s: string, k: nat, sep: char)
    requires k <= |s|
    ensures DigitsThen(s, k, sep).Some? ==> DigitsIn(s, k, DigitsThen(s, k, sep).value)
  {
    RunEndSpec(s, k);
  }

  /** A digit run followed by the (non-digit) separator is what `DigitsThen` finds. */
  lemma {:induction false} DigitsThenAt(s: string, k: nat, e: nat, sep: char)
    requires DigitsIn(s, k, e) && e < |s| && s[e] == sep && !IsDigit(sep)
    ensures DigitsThen(s, k, sep) == Some(e)
  {
    RunEndAt(s, k, e);
  }

  /** `re.match` of the pattern at index `i`. */
  function ScanAt(s: string, i: nat): (r: Option<Match>)
    requires i <= |s|
    ensures r.Some? ==> r.value.start == i
    ensures r.Some? ==> i < r.value.dot1 < r.value.dot2 < r.value.dot3 < r.value.colon < r.value.end <= |s|
  {
    var d1 := DigitsThen(s, i, '.');
    if d1.None? then None else
    var d2 := DigitsThen(s, d1.value + 1, '.');
    if d2.None? then None else
    var d3 := DigitsThen(s, d2.value + 1, '.');
    if d3.None? then None else
    var c := DigitsThen(s, d3.value + 1, ':');
    if c.None? then None else
    var e := RunEnd(s, c.value + 1);
    if e == c.value + 1 then None else Some(Match(i, d1.value, d2.value, d3.value, c.value, e))
  }

  /** Whatever the scanner returns at `i` is a match of the pattern starting at `i`. */
  lemma ScanSound(s: string, i: nat)
    requires i <= |s|
    ensures ScanAt(s, i).Some? ==> ShapeAt(s, ScanAt(s, i).value)
  {
    if ScanAt(s, i).Some? {
      var m := ScanAt(s, i).value;
      ScanStepsOf(s, m);
      StepsShape(s, m);
    }
  }

  /** A match the scanner returns is made of the four runs and the port run it walked. */
  lemma ScanStepsOf(s: string, m: Match)
    requires m.start <= |s| && ScanAt(s, m.start) == Some(m)
    ensures m.start < m.dot1 < m.dot2 < m.dot3 < m.colon && m.colon + 1 < m.end <= |s|
    ensures DigitsThen(s, m.start, '.') == Some(m.dot1)
    ensures DigitsThen(s, m.dot1 + 1, '.') == Some(m.dot2)
    ensures DigitsThen(s, m.dot2 + 1, '.') == Some(m.dot3)
    ensures DigitsThen(s, m.dot3 + 1, ':') == Some(m.colon)
    ensures RunEnd(s, m.colon + 1) == m.end
  {
  }

  /** Four separated runs and a port run make a match. */
  lemma StepsShape(s: string, m: Match)
    requires m.start < m.dot1 < m.dot2 < m.dot3 < m.colon && m.colon + 1 < m.end <= |s|
    requires DigitsThen(s, m.start, '.') == Some(m.dot1)
    requires DigitsThen(s, m.dot1 + 1, '.') == Some(m.dot2)
    requires DigitsThen(s, m.dot2 + 1, '.') == Some(m.dot3)
    requires DigitsThen(s, m.dot3 + 1, ':') == Some(m.colon)
    requires RunEnd(s, m.colon + 1) == m.end
    ensures ShapeAt(s, m)
  {
    DigitsThenSpec(s, m.start, '.');
    DigitsThenSpec(s, m.dot1 + 1, '.');
    DigitsThenSpec(s, m.dot2 + 1, '.');
    DigitsThenSpec(s, m.dot3 + 1, ':');
    RunEndSpec(s, m.colon + 1);
  }

  /** The scanner finds every match: it fails at `i` only where no match starts. */
  lemma {:induction false} ScanFinds(s: string, m: Match)
    requires ShapeAt(s, m)
    ensures ScanAt(s, m.start) == Some(m)
  {
    DigitsThenAt(s, m.start, m.dot1, '.');
    DigitsThenAt(s, m.dot1 + 1, m.dot2, '.');
    DigitsThenAt(s, m.dot2 + 1, m.dot3, '.');
    DigitsThenAt(s, m.dot3 + 1, m.colon, ':');
    RunEndAt(s, m.colon + 1, m.end);
    ScanSteps(s, m);
  }

  lemma ScanSteps(s: string, m: Match)
    requires m.start < m.dot1 < m.dot2 < m.dot3 < m.colon && m.colon + 1 < m.end <= |s|
    requires DigitsThen(s, m.start, '.') == Some(m.dot1)
    requires DigitsThen(s, m.dot1 + 1, '.') == Some(m.dot2)
    requires DigitsThen(s, m.dot2 + 1, '.') == Some(m.dot3)
    requires DigitsThen(s, m.dot3 + 1, ':') == Some(m.colon)
    requires RunEnd(s, m.colon + 1) == m.end
    ensures ScanAt(s, m.start) == Some(m)
  {
  }

  lemma ScanFailsOnlyWithoutMatch(s: string, i: nat)
    requires i <= |s|
    ensures ScanAt(s, i).None? ==> !MatchesAt(s, i)
  {
    if MatchesAt(s, i) {
      var m: Match :| m.start == i && ShapeAt(s, m);
      ScanFinds(s, m);
    }
  }

  /** `re.search(pattern, s[from..])`: the leftmost match starting at or after `from`. */
  function Search(s: string, from: nat): (r: Option<Match>)
    requires from <= |s|
    ensures r.Some? ==> from <= r.value.start && ShapeAt(s, r.value)
    ensures r.Some? ==> NoMatchIn(s, from, r.value.start)
    ensures r.None? ==> NoMatchIn(s, from, |s| + 1)
    decreases |s| - from
  {
    ScanSound(s, from);
    ScanFailsOnlyWithoutMatch(s, from);
    match ScanAt(s, from)
    case Some(m) => Some(m)
    case None => if from == |s| then None else Search(s, from + 1)
  }

  /** `m` is the leftmost match at or after `resume`. */
  ghost predicate LeftmostFrom(s: string, resume: int, m: Match) {
    resume <= m.start && ShapeAt(s, m) && NoMatchIn(s, resume, m.start)
  }

  /**
   * `re.findall(pattern, s[from..])`: the non-overlapping matches, left to right;
   * each is the leftmost match at or after the end of the previous one, and no
   * match starts after the end of the last.
   */
  function FindAll(s: string, from: nat): (ms: seq<Match>)
    requires from <= |s|
    ensures forall m :: m in ms ==> from <= m.start && ShapeAt(s, m)
    decreases |s| - from
  {
    match Search(s, from)
    case None => []
    case Some(m) => [m] + FindAll(s, m.end)
  }

  /**
   * `ms` is what `re.findall` returns when it searches from `resume`: its first match is
   * the leftmost one at or after `resume`, the rest is what it returns searching from the
   * end of that match, and when no match is left the list ends.
   */
  ghost predicate FindAllFrom(s: string, resume: nat, ms: seq<Match>)
    decreases |ms|
  {
    if ms == [] then NoMatchIn(s, resume, |s| + 1)
    else LeftmostFrom(s, resume, ms[0]) && FindAllFrom(s, ms[0].end, ms[1..])
  }

  /** `FindAll` is `re.findall`: each match is the leftmost one at or after the end of the previous one. */
  lemma {:induction false} FindAllLeftmost(s: string, from: nat)
    requires from <= |s|
    ensures FindAllFrom(s, from, FindAll(s, from))
    decreases |s| - from
  {
    match Search(s, from)
    case None =>
    case Some(m) =>
      FindAllLeftmost(s, m.end);
      assert FindAll(s, from)[1..] == FindAll(s, m.end);
  }
}
