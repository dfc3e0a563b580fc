/** The regular expression the keyword router searches for: digits, optional
    whitespace, one of the operators `+`, `-`, `*`, `/`, optional whitespace,
    digits. It is modelled as a left-to-right scan with Python's `re.search` semantics:
    the leftmost start wins, and from that start the greedy quantifiers make
    the match as long as possible. */
module ArithPattern {
  import opened PyText

  predicate IsOperator(c: char) {
    c == '+' || c == '-' || c == '*' || c == '/'
  }

  /** `t` splits as digits `[0, a)`, whitespace `[a, b)`, an operator at `b`,
      whitespace `[b + 1, c)` and digits `[c, |t|)`, both digit runs non-empty. */
  ghost predicate ShapedAt(t: string, a: int, b: int, c: int) {
    0 < a <= b && b + 1 <= c < |t|
    && (forall k :: 0 <= k < a ==> IsDigit(t[k]))
    && (forall k :: a <= k < b ==> IsSpace(t[k]))
    && IsOperator(t[b])
    && (forall k :: b + 1 <= k < c ==> IsSpace(t[k]))
    && (forall k :: c <= k < |t| ==> IsDigit(t[k]))
  }

  /** The whole of `t` matches the pattern. */
  ghost predicate MatchesPattern(t: string) {
    exists a, b, c :: ShapedAt(t, a, b, c)
  }

  /** Every match starts with a digit. */
  lemma MatchStartsWithDigit(t: string)
    requires MatchesPattern(t)
    ensures |t| > 0 && IsDigit(t[0])
  {
    var a, b, c :| ShapedAt(t, a, b, c);
  }

  /** No match starts before the first digit. */
  lemma NoMatchBeforeDigit(s: string, i: int)
    requires 0 <= i <= |s|
    requires forall k :: 0 <= k < i ==> !IsDigit(s[k])
    ensures forall k, e :: 0 <= k < i && k <= e <= |s| ==> !MatchesPattern(s[k..e])
  {
    forall k, e | 0 <= k < i && k <= e <= |s| && MatchesPattern(s[k..e])
      ensures false
    {
      MatchStartsWithDigit(s[k..e]);
    }
  }

  /** The end of the longest run of `cls` characters starting at `i`. */
  function RunEnd(s: string, i: nat, cls: CharClass): (j: nat)
    requires i <= |s|
    ensures i <= j <= |s|
    ensures forall k :: i <= k < j ==> InClass(s[k], cls)
    ensures j == |s| || !InClass(s[j], cls)
    decreases |s| - i
  {
    if i < |s| && InClass(s[i], cls) then RunEnd(s, i + 1, cls) else i
  }

  lemma RunEndExact(s: string, i: nat, j: nat, cls: CharClass)
    requires i <= j <= |s|
    requires forall k :: i <= k < j ==> InClass(s[k], cls)
    requires j == |s| || !InClass(s[j], cls)
    ensures RunEnd(s, i, cls) == j
  {
  }

  lemma RunEndCovers(s: string, i: nat, j: nat, cls: CharClass)
    requires i <= j <= |s|
    requires forall k :: i <= k < j ==> InClass(s[k], cls)
    ensures j <= RunEnd(s, i, cls)
  {
  }

  /** The end of the match the regular expression makes when tried at `i`:
      a match starts and ends with a digit. */
  function MatchEnd(s: string, i: nat): (r: Option<nat>)
    requires i <= |s|
    ensures r.Some? ==> i < r.value <= |s| && IsDigit(s[i]) && IsDigit(s[r.value - 1])
  {
    var a := RunEnd(s, i, Digit);
    if a == i then None
    else
      var b := RunEnd(s, a, Space);
      if b == |s| || !IsOperator(s[b]) then None
      else
        var c := RunEnd(s, b + 1, Space);
        var d := RunEnd(s, c, Digit);
        if d == c then None else Some(d)
  }

  /** `s[i..e]` has the shape of a match, with the operator at `b` and the
      runs split at `a` and `c`, all read at indices of `s`. */
  ghost predicate ShapedIn(s: string, i: int, a: int, b: int, c: int, e: int) {
    0 <= i < a <= b && b + 1 <= c < e <= |s|
    && (forall k :: i <= k < a ==> IsDigit(s[k]))
    && (forall k :: a <= k < b ==> IsSpace(s[k]))
    && IsOperator(s[b])
    && (forall k :: b + 1 <= k < c ==> IsSpace(s[k]))
    && (forall k :: c <= k < e ==> IsDigit(s[k]))
  }

  /** A shape read at indices of `s` is a shape of the slice. */
  lemma SliceShaped(s: string, i: int, a: int, b: int, c: int, e: int)
    requires ShapedIn(s, i, a, b, c, e)
    ensures ShapedAt(s[i..e], a - i, b - i, c - i)
  {
    var t := s[i..e];
    assert forall k :: 0 <= k < |t| ==> t[k] == s[i + k];
  }

  /** A shape of the slice, read at indices of `s`. */
  lemma ShapeInContext(s: string, i: int, e: int, a: int, b: int, c: int)
    requires 0 <= i <= e <= |s| && ShapedAt(s[i..e], a, b, c)
    ensures ShapedIn(s, i, i + a, i + b, i + c, e)
  {
    var t := s[i..e];
    forall k | i <= k < i + a ensures IsDigit(s[k]) { assert s[k] == t[k - i]; }
    forall k | i + a <= k < i + b ensures IsSpace(s[k]) { assert s[k] == t[k - i]; }
    assert s[i + b] == t[b];
    forall k | i + b + 1 <= k < i + c ensures IsSpace(s[k]) { assert s[k] == t[k - i]; }
    forall k | i + c <= k < e ensures IsDigit(s[k]) { assert s[k] == t[k - i]; }
  }

  /** What `MatchEnd` reports is a match, and one no digit extends. */
  lemma MatchEndSound(s: string, i: nat)
    requires i <= |s|
    ensures MatchEnd(s, i).Some? ==>
              var d := MatchEnd(s, i).value;
              i < d <= |s| && MatchesPattern(s[i..d]) && (d == |s| || !IsDigit(s[d]))
  {
    if MatchEnd(s, i).Some? {
      var a := RunEnd(s, i, Digit);
      var b := RunEnd(s, a, Space);
      var c := RunEnd(s, b + 1, Space);
      var d := RunEnd(s, c, Digit);
      assert ShapedIn(s, i, a, b, c, d);
      SliceShaped(s, i, a, b, c, d);
    }
  }

  /** `MatchEnd` reads off the runs a match is made of. */
  lemma MatchEndOfRuns(s: string, i: nat, a: nat, b: nat, c: nat, e: nat)
    requires i < a <= b < |s| && b + 1 <= c < e <= |s|
    requires RunEnd(s, i, Digit) == a && RunEnd(s, a, Space) == b && IsOperator(s[b])
    requires RunEnd(s, b + 1, Space) == c && e <= RunEnd(s, c, Digit)
    ensures MatchEnd(s, i).Some? && e <= MatchEnd(s, i).value
  {
  }

  /** Digits over `[i, a)` then whitespace over `[a, b)`, up to a character
      of neither class, are the first two runs the greedy scan finds. */
  lemma LeadingRuns(s: string, i: nat, a: nat, b: nat)
    requires i < a <= b < |s|
    requires forall k :: i <= k < a ==> IsDigit(s[k])
    requires forall k :: a <= k < b ==> IsSpace(s[k])
    requires !IsDigit(s[b]) && !IsSpace(s[b])
    ensures RunEnd(s, i, Digit) == a && RunEnd(s, a, Space) == b
  {
    assert !IsDigit(s[a]);
    RunEndExact(s, i, a, Digit);
    RunEndExact(s, a, b, Space);
  }

  /** Whitespace over `[j, c)` then digits over `[c, e)`: the greedy scan
      stops the whitespace at `c` and the digits no earlier than `e`. */
  lemma TrailingRuns(s: string, j: nat, c: nat, e: nat)
    requires j <= c < e <= |s|
    requires forall k :: j <= k < c ==> IsSpace(s[k])
    requires forall k :: c <= k < e ==> IsDigit(s[k])
    ensures RunEnd(s, j, Space) == c && e <= RunEnd(s, c, Digit)
  {
    assert !IsSpace(s[c]);
    RunEndExact(s, j, c, Space);
    RunEndCovers(s, c, e, Digit);
  }

  /** The runs of a match from `i` to `e`, as the greedy scan finds them. */
  lemma RunsOfMatch(s: string, i: nat, e: nat) returns (a: nat, b: nat, c: nat)
    requires i <= e <= |s| && MatchesPattern(s[i..e])
    ensures i < a <= b < |s| && b + 1 <= c < e
    ensures RunEnd(s, i, Digit) == a && RunEnd(s, a, Space) == b && IsOperator(s[b])
    ensures RunEnd(s, b + 1, Space) == c && e <= RunEnd(s, c, Digit)
  {
    var a', b', c' :| ShapedAt(s[i..e], a', b', c');
    ShapeInContext(s, i, e, a', b', c');
    a, b, c := i + a', i + b', i + c';
    assert ShapedIn(s, i, a, b, c, e);
    LeadingRuns(s, i, a, b);
    TrailingRuns(s, b + 1, c, e);
  }

  /** Every match that starts at `i` ends no later than the one `MatchEnd` reports. */
  lemma MatchWithinMatchEnd(s: string, i: nat, e: nat)
    requires i <= e <= |s| && MatchesPattern(s[i..e])
    ensures MatchEnd(s, i).Some? && e <= MatchEnd(s, i).value
  {
    var a, b, c := RunsOfMatch(s, i, e);
    MatchEndOfRuns(s, i, a, b, c, e);
  }

  /** Every match that starts at `i` ends no later than the one `MatchEnd` reports. */
  lemma MatchEndComplete(s: string, i: nat)
    requires i <= |s|
    ensures forall e :: i <= e <= |s| && MatchesPattern(s[i..e]) ==>
              MatchEnd(s, i).Some? && e <= MatchEnd(s, i).value
  {
    forall e | i <= e <= |s| && MatchesPattern(s[i..e])
      ensures MatchEnd(s, i).Some? && e <= MatchEnd(s, i).value
    {
      MatchWithinMatchEnd(s, i, e);
    }
  }

  function SearchFrom(s: string, i: nat): (r: Option<(nat, nat)>)
    requires i <= |s|
    ensures r.Some? ==> i <= r.value.0 < r.value.1 <= |s|
                        && MatchesPattern(s[r.value.0..r.value.1])
                        && (forall e :: r.value.0 <= e <= |s| && MatchesPattern(s[r.value.0..e]) ==> e <= r.value.1)
    ensures forall k, e :: i <= k <= e <= |s| && (r.None? || k < r.value.0) ==> !MatchesPattern(s[k..e])
    decreases |s| - i
  {
    MatchEndSound(s, i);
    MatchEndComplete(s, i);
    match MatchEnd(s, i)
    case Some(d) => Some((i, d))
    case None => if i == |s| then None else SearchFrom(s, i + 1)
  }

  /** `[i, j)` is the match `re.search` reports: the leftmost start at which
      the pattern matches, and from there the longest match. */
  ghost predicate LeftmostLongest(s: string, i: int, j: int) {
    0 <= i < j <= |s| && MatchesPattern(s[i..j])
    && (forall e :: i <= e <= |s| && MatchesPattern(s[i..e]) ==> e <= j)
    && (forall k, e :: 0 <= k < i && k <= e <= |s| ==> !MatchesPattern(s[k..e]))
  }

  /** No substring of `s` matches the pattern. */
  ghost predicate NoMatch(s: string) {
    forall k, e :: 0 <= k <= e <= |s| ==> !MatchesPattern(s[k..e])
  }

  lemma LeftmostLongestUnique(s: string, i: int, j: int, i': int, j': int)
    requires LeftmostLongest(s, i, j) && LeftmostLongest(s, i', j')
    ensures i == i' && j == j'
  {
  }

  /** `re.search` of the arithmetic pattern in `s`: the span of the leftmost
      match, taken as long as possible from that start, or none. */
  function Search(s: string): (r: Option<(nat, nat)>)
    ensures r.Some? ==> LeftmostLongest(s, r.value.0, r.value.1)
    ensures r.None? <==> NoMatch(s)
  {
    SearchFrom(s, 0)
  }
}
