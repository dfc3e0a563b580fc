/** The parts of Python's `str` that the routers rely on, over `seq<char>`:
    ASCII case folding (`lower`), substring tests (`in`), `split(sep, 1)`,
    argument-less `split`, `strip`, `rstrip(chars)` and `sep.join`. */
module PyText {

  datatype Option<T> = None | Some(value: T)

  /** The character classes the routers strip or scan by. */
  datatype CharClass = Digit | Space | NonSpace | OneOf(chars: set<char>)

  /** Python's `str.isspace`: the characters argument-less `split` and `strip`
      remove, and the ones the regular expression `\s` matches. */
  predicate IsSpace(c: char) {
    var n := c as int;
    (9 <= n <= 13) || (28 <= n <= 32) || n == 0x85 || n == 0xA0 || n == 0x1680
    || (0x2000 <= n <= 0x200A) || n == 0x2028 || n == 0x2029 || n == 0x202F
    || n == 0x205F || n == 0x3000
  }

  /** The regular expression `\d`, restricted to ASCII digits. */
  predicate IsDigit(c: char) {
    '0' <= c <= '9'
  }

  predicate InClass(c: char, cls: CharClass) {
    match cls
    case Digit => IsDigit(c)
    case Space => IsSpace(c)
    case NonSpace => !IsSpace(c)
    case OneOf(chars) => c in chars
  }

  predicate AllIn(s: string, cls: CharClass) {
    forall k :: 0 <= k < |s| ==> InClass(s[k], cls)
  }

  function LowerChar(c: char): char {
    if 'A' <= c <= 'Z' then (c as int + 32) as char else c
  }

  /** `str.lower()` on ASCII letters. */
  function Lower(s: string): (r: string)
    ensures |r| == |s|
    ensures forall k :: 0 <= k < |s| ==> r[k] == LowerChar(s[k])
  {
    seq(|s|, k requires 0 <= k < |s| => LowerChar(s[k]))
  }

  /** Case folding leaves whitespace where it was. */
  lemma LowerKeepsSpaces(s: string)
    ensures AllIn(Lower(s), Space) <==> AllIn(s, Space)
  {
    assert forall k :: 0 <= k < |s| ==> (IsSpace(Lower(s)[k]) <==> IsSpace(s[k]));
  }

  /** Case folding twice is case folding once. */
  lemma LowerIdempotent(s: string)
    ensures Lower(Lower(s)) == Lower(s)
  {
    assert forall k :: 0 <= k < |s| ==> LowerChar(LowerChar(s[k])) == LowerChar(s[k]);
  }

  /** Case folding keeps a string free of whitespace at its ends. */
  lemma LowerKeepsEnds(s: string)
    requires s == [] || (!IsSpace(s[0]) && !IsSpace(s[|s| - 1]))
    ensures Lower(s) == [] || (!IsSpace(Lower(s)[0]) && !IsSpace(Lower(s)[|s| - 1]))
  {
  }

  /** Case folding leaves digits where they were. */
  lemma LowerKeepsDigits(s: string)
    ensures forall k :: 0 <= k < |s| ==> (IsDigit(Lower(s)[k]) <==> IsDigit(s[k]))
  {
  }

  /** `pat` occurs in `s` starting at index `k`. */
  predicate OccursAt(s: string, pat: string, k: int) {
    0 <= k && k + |pat| <= |s| && s[k..k + |pat|] == pat
  }

  /** Python's `pat in s`, stated declaratively. */
  ghost predicate Occurs(s: string, pat: string) {
    exists k :: OccursAt(s, pat, k)
  }

  /** The first occurrence of `pat` in `s` is at `k`. */
  ghost predicate FirstOccursAt(s: string, pat: string, k: int) {
    OccursAt(s, pat, k) && forall j :: 0 <= j < k ==> !OccursAt(s, pat, j)
  }

  function FindFrom(s: string, pat: string, i: nat): (r: Option<nat>)
    requires i <= |s|
    ensures r.Some? ==> i <= r.value && OccursAt(s, pat, r.value)
    ensures forall k :: i <= k && (r.None? || k < r.value) ==> !OccursAt(s, pat, k)
    decreases |s| - i
  {
    if OccursAt(s, pat, i) then Some(i)
    else if i == |s| then None
    else FindFrom(s, pat, i + 1)
  }

  /** `s.find(pat)`: the index of the first occurrence, if any. */
  function Find(s: string, pat: string): (r: Option<nat>)
    ensures r.Some? ==> FirstOccursAt(s, pat, r.value)
    ensures r.None? <==> !Occurs(s, pat)
  {
    FindFrom(s, pat, 0)
  }

  /** Python's `pat in s`. */
  predicate Contains(s: string, pat: string)
    ensures Contains(s, pat) <==> Occurs(s, pat)
  {
    Find(s, pat).Some?
  }

  /** A lower-case pattern found in a string is found at the same place in
      its lower-cased form. */
  lemma LowerKeepsOccurrence(s: string, pat: string, k: int)
    requires Lower(pat) == pat && OccursAt(s, pat, k)
    ensures OccursAt(Lower(s), pat, k)
  {
    forall j | 0 <= j < |pat|
      ensures Lower(s)[k + j] == pat[j]
    {
      assert s[k + j] == s[k..k + |pat|][j];
      assert Lower(pat)[j] == LowerChar(pat[j]);
    }
  }

  /** A pattern has a single first occurrence. */
  lemma FirstOccurrenceUnique(s: string, pat: string, k: int, k': int)
    requires FirstOccursAt(s, pat, k) && FirstOccursAt(s, pat, k')
    ensures k == k'
  {
  }

  /** A lower-case pattern in a string is also in its lower-cased form. */
  lemma LowerKeepsOccurs(s: string, pat: string)
    requires Lower(pat) == pat
    ensures Occurs(s, pat) ==> Occurs(Lower(s), pat)
  {
    if Occurs(s, pat) {
      var k :| OccursAt(s, pat, k);
      LowerKeepsOccurrence(s, pat, k);
    }
  }

  /** `s.split(sep, 1)[1]`: what follows the first occurrence of `sep`, or
      nothing when the split yields a single piece (indexing it raises). */
  function AfterFirst(s: string, sep: string): (r: Option<string>)
    requires sep != []
    ensures r.None? <==> !Occurs(s, sep)
    ensures forall k :: FirstOccursAt(s, sep, k) ==> r == Some(s[k + |sep|..])
  {
    match Find(s, sep)
    case None => None
    case Some(k) => Some(s[k + |sep|..])
  }

  /** `s.rstrip(...)`: the longest prefix of `s` after which only characters of `cls` follow. */
  function RStrip(s: string, cls: CharClass): (r: string)
    ensures |r| <= |s| && r == s[..|r|]
    ensures forall k :: |r| <= k < |s| ==> InClass(s[k], cls)
    ensures r == [] || !InClass(r[|r| - 1], cls)
    decreases |s|
  {
    if |s| > 0 && InClass(s[|s| - 1], cls) then RStrip(s[..|s| - 1], cls) else s
  }

  /** `s.lstrip(...)`: the longest suffix of `s` before which only characters of `cls` come. */
  function LStrip(s: string, cls: CharClass): (r: string)
    ensures |r| <= |s| && r == s[|s| - |r|..]
    ensures forall k :: 0 <= k < |s| - |r| ==> InClass(s[k], cls)
    ensures r == [] || !InClass(r[0], cls)
    decreases |s|
  {
    if |s| > 0 && InClass(s[0], cls) then LStrip(s[1..], cls) else s
  }

  /** `RStrip` is determined by its contract: stopping before a character
      outside `cls` with only `cls` characters after it is the result. */
  lemma RStripExact(s: string, n: int, cls: CharClass)
    requires 0 <= n <= |s|
    requires forall k :: n <= k < |s| ==> InClass(s[k], cls)
    requires n == 0 || !InClass(s[n - 1], cls)
    ensures RStrip(s, cls) == s[..n]
  {
    var r := RStrip(s, cls);
    if n > 0 { assert !InClass(s[n - 1], cls); }
    if |r| > 0 { assert !InClass(r[|r| - 1], cls); }
  }

  /** `LStrip` is determined by its contract, as `RStrip` is. */
  lemma LStripExact(s: string, n: int, cls: CharClass)
    requires 0 <= n <= |s|
    requires forall k :: 0 <= k < n ==> InClass(s[k], cls)
    requires n == |s| || !InClass(s[n], cls)
    ensures LStrip(s, cls) == s[n..]
  {
    var r := LStrip(s, cls);
    if n < |s| { assert !InClass(s[n], cls); }
    if |r| > 0 { assert !InClass(r[0], cls); }
  }

  /** `r` is `s[i..]` with only whitespace before `i` and after `r` in `s`. */
  ghost predicate StrippedAt(s: string, r: string, i: int) {
    0 <= i <= |s| - |r| && r == s[i..i + |r|]
    && (forall k :: 0 <= k < i ==> IsSpace(s[k]))
    && (forall k :: i + |r| <= k < |s| ==> IsSpace(s[k]))
  }

  /** Case folding a whitespace-framed slice gives the same slice of the case
      folded text. */
  lemma StrippedLowered(s: string, r: string, i: int)
    requires StrippedAt(s, r, i)
    ensures StrippedAt(Lower(s), Lower(r), i)
  {
    forall k | 0 <= k < |r|
      ensures Lower(r)[k] == Lower(s)[i + k]
    {
      assert r[k] == s[i + k];
    }
    assert Lower(r) == Lower(s)[i..i + |r|];
  }

  /** A prefix of a suffix of `s`, cut off only at whitespace, is a slice of
      `s` with only whitespace around it. */
  lemma TrimmedSlice(s: string, l: string, r: string)
    requires |l| <= |s| && l == s[|s| - |l|..]
    requires |r| <= |l| && r == l[..|r|]
    requires forall k :: 0 <= k < |s| - |l| ==> InClass(s[k], Space)
    requires forall k :: |r| <= k < |l| ==> InClass(l[k], Space)
    ensures StrippedAt(s, r, |s| - |l|)
  {
    var i := |s| - |l|;
    assert r == s[i..i + |r|];
    forall k | i + |r| <= k < |s|
      ensures IsSpace(s[k])
    {
      assert s[k] == l[k - i];
      assert InClass(l[k - i], Space);
    }
    forall k | 0 <= k < i
      ensures IsSpace(s[k])
    {
      assert InClass(s[k], Space);
    }
  }

  /** Argument-less `s.strip()`: `s` with the whitespace at both ends removed. */
  function Strip(s: string): (r: string)
    ensures |r| <= |s|
    ensures r == [] || (!IsSpace(r[0]) && !IsSpace(r[|r| - 1]))
    ensures exists i :: StrippedAt(s, r, i)
  {
    var l := LStrip(s, Space);
    var r := RStrip(l, Space);
    TrimmedSlice(s, l, r);
    r
  }

  /** The characters `rstrip("? .")` removes from an extracted argument. */
  const ArgumentTail: set<char> := {'?', ' ', '.'}

  /** `s.strip().rstrip("? .")`, the trimming every extracted argument gets. */
  function TrimArgument(s: string): (r: string)
    ensures |r| <= |Strip(s)| && r == Strip(s)[..|r|]
    ensures forall k :: |r| <= k < |Strip(s)| ==> Strip(s)[k] in ArgumentTail
    ensures r == [] || (!IsSpace(r[0]) && r[|r| - 1] !in ArgumentTail)
  {
    RStrip(Strip(s), OneOf(ArgumentTail))
  }

  /** `[k, j)` is the last word of `s` in the sense of argument-less `split`:
      a maximal run of non-whitespace followed only by whitespace. */
  predicate IsLastWord(s: string, k: int, j: int) {
    0 <= k < j <= |s|
    && (forall m :: k <= m < j ==> !IsSpace(s[m]))
    && (forall m :: j <= m < |s| ==> IsSpace(s[m]))
    && (k == 0 || IsSpace(s[k - 1]))
  }

  /** Argument-less `split` has a single last word. */
  lemma LastWordUnique(s: string, k: int, j: int, k': int, j': int)
    requires IsLastWord(s, k, j) && IsLastWord(s, k', j')
    ensures k == k' && j == j'
  {
    assert !IsSpace(s[j - 1]) && !IsSpace(s[j' - 1]);
  }

  /** The span of `s.split()[-1]`; none when `s.split()` is empty (indexing it raises). */
  function LastWordSpan(s: string): (r: Option<(nat, nat)>)
    ensures r.None? <==> AllIn(s, Space)
    ensures r.Some? ==> IsLastWord(s, r.value.0, r.value.1)
    ensures forall k, j :: IsLastWord(s, k, j) ==> r == Some((k, j))
  {
    var body := RStrip(s, Space);
    if body == [] then
      assert forall k, j :: IsLastWord(s, k, j) ==> IsSpace(s[j - 1]);
      None
    else
      var head := RStrip(body, NonSpace);
      assert IsLastWord(s, |head|, |body|);
      assert forall k, j :: IsLastWord(s, k, j) ==> k == |head| && j == |body| by {
        forall k, j | IsLastWord(s, k, j) ensures k == |head| && j == |body| {
          LastWordUnique(s, k, j, |head|, |body|);
        }
      }
      Some((|head|, |body|))
  }

  /** `sep.join(parts)`: empty for no parts, otherwise it begins with the first part. */
  function Join(sep: string, parts: seq<string>): (r: string)
    ensures parts == [] ==> r == []
    ensures |parts| > 0 ==> |parts[0]| <= |r| && r[..|parts[0]|] == parts[0]
    decreases |parts|
  {
    if |parts| == 0 then []
    else if |parts| == 1 then parts[0]
    else parts[0] + sep + Join(sep, parts[1..])
  }

  /** Joining one more part appends the separator and that part. */
  lemma {:induction false} JoinSnoc(sep: string, parts: seq<string>, last: string)
    ensures Join(sep, parts + [last]) == if parts == [] then last else Join(sep, parts) + sep + last
    decreases |parts|
  {
    if |parts| > 1 {
      assert (parts + [last])[1..] == parts[1..] + [last];
      JoinSnoc(sep, parts[1..], last);
    } else if |parts| == 1 {
      assert (parts + [last])[1..] == [last];
    }
  }
}
