/** The Python string operations the code-review tools use: `in` (substring
    search), `str.startswith`, `str.strip`, `str.count` of one character and
    `str.split(sep)`. Every scan walks positions of the original string. */
module Text {
  import opened Values

  /** `pat` occurs in `s` starting at index `i`. */
  predicate OccursAt(s: string, pat: string, i: nat) {
    i + |pat| <= |s| && s[i..i + |pat|] == pat
  }

  /** The first position at or after `from` where `pat` occurs (`str.find`
      with a start). */
  function IndexFrom(s: string, pat: string, from: nat): (r: Option<nat>)
    ensures r.Some? ==> from <= r.value && OccursAt(s, pat, r.value)
    decreases |s| - from
  {
    if from + |pat| > |s| then None
    else if OccursAt(s, pat, from) then Some(from)
    else IndexFrom(s, pat, from + 1)
  }

  /** `IndexFrom` finds the first occurrence at or after `from`, and finds
      none only when there is none. */
  lemma {:induction false} IndexFromFinds(s: string, pat: string, from: nat)
    ensures var r := IndexFrom(s, pat, from);
      && (r.Some? ==> forall i: nat :: from <= i < r.value ==> !OccursAt(s, pat, i))
      && (r.None? ==> forall i: nat :: from <= i ==> !OccursAt(s, pat, i))
    decreases |s| - from
  {
    if from + |pat| <= |s| && !OccursAt(s, pat, from) {
      IndexFromFinds(s, pat, from + 1);
    }
  }

  /** The position of the first occurrence of `pat` in `s` (`str.find`). */
  function IndexOf(s: string, pat: string): Option<nat> {
    IndexFrom(s, pat, 0)
  }

  /** Python's `pat in s`. */
  predicate Contains(s: string, pat: string) {
    IndexOf(s, pat).Some?
  }

  /** `pat in s` holds exactly when `pat` occurs somewhere in `s`. */
  lemma ContainsIff(s: string, pat: string)
    ensures Contains(s, pat) <==> exists i: nat :: OccursAt(s, pat, i)
  {
    IndexFromFinds(s, pat, 0);
  }

  /** `pat` occurs at `i`, so `pat in s`. */
  lemma OccurrenceContains(s: string, pat: string, i: nat)
    requires OccursAt(s, pat, i)
    ensures Contains(s, pat)
  {
    IndexFromFinds(s, pat, 0);
  }

  /** An occurrence with none before it is the first one. */
  lemma FirstOccurrence(s: string, pat: string, j: nat)
    requires OccursAt(s, pat, j)
    requires forall k: nat :: k < j ==> !OccursAt(s, pat, k)
    ensures IndexOf(s, pat) == Some(j)
  {
    IndexFromFinds(s, pat, 0);
  }

  /** A string in which `pat` occurs nowhere does not contain it. */
  lemma NowhereLacks(s: string, pat: string)
    requires forall i: nat :: i + |pat| <= |s| ==> !OccursAt(s, pat, i)
    ensures !Contains(s, pat)
  {
    IndexFromFinds(s, pat, 0);
  }

  /** Some character of `pat` never appears in `s`, so `pat` does not occur. */
  lemma MissingChar(s: string, pat: string, c: char)
    requires c in pat && c !in s
    ensures !Contains(s, pat)
  {
    var k :| 0 <= k < |pat| && pat[k] == c;
    forall i: nat | i + |pat| <= |s|
      ensures !OccursAt(s, pat, i)
    {
      assert s[i..i + |pat|][k] == s[i + k];
    }
    NowhereLacks(s, pat);
  }

  /** A slice in which `pat` does not start anywhere inside has no `pat`. */
  lemma SliceLacks(s: string, pat: string, lo: nat, hi: nat)
    requires lo <= hi <= |s|
    requires forall i: nat :: lo <= i && i + |pat| <= hi ==> !OccursAt(s, pat, i)
    ensures !Contains(s[lo..hi], pat)
  {
    forall j: nat | j + |pat| <= hi - lo
      ensures !OccursAt(s[lo..hi], pat, j)
    {
      assert !OccursAt(s, pat, lo + j);
      var inSlice, inText := s[lo..hi][j..j + |pat|], s[lo + j..lo + j + |pat|];
      assert forall t :: 0 <= t < |pat| ==> inSlice[t] == inText[t];
    }
    NowhereLacks(s[lo..hi], pat);
  }

  /** A prefix of a string without `pat` has no `pat` either. */
  lemma PrefixLacks(s: string, t: string, pat: string)
    requires t <= s && !Contains(s, pat)
    ensures !Contains(t, pat)
  {
    IndexFromFinds(s, pat, 0);
    forall i: nat | i + |pat| <= |t|
      ensures !OccursAt(t, pat, i)
    {
      assert !OccursAt(s, pat, i);
      assert t[i..i + |pat|] == s[i..i + |pat|];
    }
    NowhereLacks(t, pat);
  }

  /** `s.startswith(p)`. */
  predicate StartsWith(s: string, p: string) {
    |p| <= |s| && s[..|p|] == p
  }

  /** The characters `str.isspace` accepts: the ASCII whitespace and
      separators and the Unicode space characters. */
  predicate IsSpace(c: char) {
    || c == ' ' || c == '\t' || c == '\n' || c == '\r'
    || c == '\U{B}' || c == '\U{C}'
    || ('\U{1C}' <= c <= '\U{1F}')
    || c == '\U{85}' || c == '\U{A0}' || c == '\U{1680}'
    || ('\U{2000}' <= c <= '\U{200A}')
    || c == '\U{2028}' || c == '\U{2029}' || c == '\U{202F}' || c == '\U{205F}' || c == '\U{3000}'
  }

  /** The first position at or after `from` that is not whitespace, or `|s|`. */
  function SkipSpace(s: string, from: nat): (r: nat)
    requires from <= |s|
    ensures from <= r <= |s|
    decreases |s| - from
  {
    if from < |s| && IsSpace(s[from]) then SkipSpace(s, from + 1) else from
  }

  /** `SkipSpace` passes over whitespace only, and stops at the first
      character that is not whitespace. */
  lemma {:induction false} SkipSpaceStops(s: string, from: nat)
    requires from <= |s|
    ensures var r := SkipSpace(s, from);
      && (forall k :: from <= k < r ==> IsSpace(s[k]))
      && (r < |s| ==> !IsSpace(s[r]))
    decreases |s| - from
  {
    if from < |s| && IsSpace(s[from]) {
      SkipSpaceStops(s, from + 1);
    }
  }

  /** The end of `s[lo..hi]` once its trailing whitespace is dropped. */
  function TrimEnd(s: string, lo: nat, hi: nat): (r: nat)
    requires lo <= hi <= |s|
    ensures lo <= r <= hi
    decreases hi
  {
    if hi > lo && IsSpace(s[hi - 1]) then TrimEnd(s, lo, hi - 1) else hi
  }

  /** `TrimEnd` drops trailing whitespace only, and stops after the last
      character that is not whitespace. */
  lemma {:induction false} TrimEndStops(s: string, lo: nat, hi: nat)
    requires lo <= hi <= |s|
    ensures var r := TrimEnd(s, lo, hi);
      && (forall k :: r <= k < hi ==> IsSpace(s[k]))
      && (r > lo ==> !IsSpace(s[r - 1]))
    decreases hi
  {
    if hi > lo && IsSpace(s[hi - 1]) {
      TrimEndStops(s, lo, hi - 1);
    }
  }

  /** `s.strip()`: the slice of `s` between its leading and its trailing
      whitespace. */
  function Strip(s: string): string {
    var lo := SkipSpace(s, 0);
    s[lo..TrimEnd(s, lo, |s|)]
  }

  /** `s.strip()` removes whitespace and only whitespace: what is left is a
      slice of `s` that neither starts nor ends with whitespace, and all
      that lies before and after it is whitespace. */
  lemma StripDropsSpace(s: string)
    ensures var lo := SkipSpace(s, 0); var r := Strip(s);
      && lo + |r| <= |s| && r == s[lo..lo + |r|]
      && (r != [] ==> !IsSpace(r[0]) && !IsSpace(r[|r| - 1]))
      && (forall k :: 0 <= k < lo ==> IsSpace(s[k]))
      && (forall k :: lo + |r| <= k < |s| ==> IsSpace(s[k]))
  {
    var lo := SkipSpace(s, 0);
    var hi := TrimEnd(s, lo, |s|);
    SkipSpaceStops(s, 0);
    TrimEndStops(s, lo, |s|);
    if hi > lo {
      assert Strip(s)[0] == s[lo];
      assert Strip(s)[hi - lo - 1] == s[hi - 1];
    }
  }

  /** The pieces of `s[from..]` between the occurrences of `sep`, scanning
      from the left (`str.split(sep)` for a non-empty separator). */
  function SplitFrom(s: string, sep: string, from: nat): (r: seq<string>)
    requires sep != [] && from <= |s|
    ensures |r| >= 1
    ensures IndexFrom(s, sep, from).None? ==> r == [s[from..]]
    ensures IndexFrom(s, sep, from).Some? ==> |r| >= 2 && r[0] == s[from..IndexFrom(s, sep, from).value]
    decreases |s| - from
  {
    match IndexFrom(s, sep, from)
    case None => [s[from..]]
    case Some(i) => [s[from..i]] + SplitFrom(s, sep, i + |sep|)
  }

  /** `s.split(sep)`. */
  function Split(s: string, sep: string): seq<string>
    requires sep != []
  {
    SplitFrom(s, sep, 0)
  }

  /** The first piece of a split of `s[from..]` is the stretch from `from`
      up to the first `sep`, or to the end when there is none. */
  lemma PieceFrom(s: string, sep: string, from: nat)
    requires sep != [] && from <= |s|
    ensures var p := SplitFrom(s, sep, from)[0];
      && from + |p| <= |s| && p == s[from..from + |p|]
      && (forall q: nat :: from <= q < from + |p| ==> !OccursAt(s, sep, q))
      && (from + |p| == |s| || OccursAt(s, sep, from + |p|))
  {
    IndexFromFinds(s, sep, from);
  }

  /** The second piece of a split starts right after the first `sep`, holds
      no `sep` and runs up to the next `sep` or the end. */
  lemma SecondPiece(s: string, sep: string, j: nat)
    requires sep != [] && IndexOf(s, sep) == Some(j)
    ensures |Split(s, sep)| >= 2
    ensures var i := j + |sep|; var piece := Split(s, sep)[1];
      && i + |piece| <= |s| && piece == s[i..i + |piece|]
      && !Contains(piece, sep)
      && (i + |piece| == |s| || OccursAt(s, sep, i + |piece|))
  {
    var i := j + |sep|;
    assert SplitFrom(s, sep, 0) == [s[0..j]] + SplitFrom(s, sep, i);
    assert Split(s, sep)[1] == SplitFrom(s, sep, i)[0];
    PieceFrom(s, sep, i);
    SliceLacks(s, sep, i, i + |Split(s, sep)[1]|);
  }

  /** `sep.join(parts)`. */
  function Join(parts: seq<string>, sep: string): string
    requires |parts| >= 1
  {
    if |parts| == 1 then parts[0] else parts[0] + sep + Join(parts[1..], sep)
  }

  /** Cutting `s[from..]` around an occurrence of `sep` at `i`. */
  lemma CutAround(s: string, sep: string, from: nat, i: nat)
    requires from <= i && OccursAt(s, sep, i)
    ensures s[from..] == s[from..i] + sep + s[i + |sep|..]
  {
    assert s[i..] == sep + s[i + |sep|..];
    assert s[from..] == s[from..i] + s[i..];
  }

  /** Joining the pieces of a split with the separator gives back the text. */
  lemma {:induction false} JoinSplitFrom(s: string, sep: string, from: nat)
    requires sep != [] && from <= |s|
    ensures Join(SplitFrom(s, sep, from), sep) == s[from..]
    decreases |s| - from
  {
    var found := IndexFrom(s, sep, from);
    if found.Some? {
      var i := found.value;
      var parts := SplitFrom(s, sep, from);
      var rest := SplitFrom(s, sep, i + |sep|);
      JoinSplitFrom(s, sep, i + |sep|);
      assert parts == [s[from..i]] + rest;
      assert parts[1..] == rest;
      assert Join(parts, sep) == s[from..i] + sep + Join(rest, sep);
      CutAround(s, sep, from, i);
    }
  }

  /** `sep.join(s.split(sep)) == s`. */
  lemma JoinSplit(s: string, sep: string)
    requires sep != []
    ensures Join(Split(s, sep), sep) == s
  {
    JoinSplitFrom(s, sep, 0);
  }

  /** No piece of a split contains the separator. */
  lemma {:induction false} SplitFromPieces(s: string, sep: string, from: nat)
    requires sep != [] && from <= |s|
    ensures forall k :: 0 <= k < |SplitFrom(s, sep, from)| ==> !Contains(SplitFrom(s, sep, from)[k], sep)
    decreases |s| - from
  {
    var parts := SplitFrom(s, sep, from);
    IndexFromFinds(s, sep, from);
    match IndexFrom(s, sep, from)
    case None =>
      SliceLacks(s, sep, from, |s|);
      assert parts[0] == s[from..|s|];
    case Some(i) =>
      SplitFromPieces(s, sep, i + |sep|);
      SliceLacks(s, sep, from, i);
      assert parts[1..] == SplitFrom(s, sep, i + |sep|);
      forall k | 0 < k < |parts|
        ensures !Contains(parts[k], sep)
      {
        assert parts[k] == parts[1..][k - 1];
      }
  }

  /** No piece of `s.split(sep)` contains `sep`. */
  lemma SplitPieces(s: string, sep: string)
    requires sep != []
    ensures forall k :: 0 <= k < |Split(s, sep)| ==> !Contains(Split(s, sep)[k], sep)
  {
    SplitFromPieces(s, sep, 0);
  }

  /** The number of occurrences of `c` in `s[from..]`. */
  function CountFrom(s: string, c: char, from: nat): nat
    requires from <= |s|
    decreases |s| - from
  {
    if from == |s| then 0 else (if s[from] == c then 1 else 0) + CountFrom(s, c, from + 1)
  }

  /** `s.count(c)`. */
  function CountChar(s: string, c: char): nat {
    CountFrom(s, c, 0)
  }

  /** A stretch without `c` adds nothing to the count. */
  lemma {:induction false} CountSkips(s: string, c: char, from: nat, to: nat)
    requires from <= to <= |s|
    requires forall k :: from <= k < to ==> s[k] != c
    ensures CountFrom(s, c, from) == CountFrom(s, c, to)
    decreases |s| - from
  {
    if from < to {
      CountSkips(s, c, from + 1, to);
    }
  }

  /** A one-character separator occurs exactly where that character is. */
  lemma OccursAtChar(s: string, c: char, k: nat)
    requires k < |s|
    ensures OccursAt(s, [c], k) <==> s[k] == c
  {
    assert s[k..k + 1] == [s[k]];
  }

  /** Splitting `s[from..]` at `c` gives one piece more than it has `c`s. */
  lemma {:induction false} SplitFromCount(s: string, c: char, from: nat)
    requires from <= |s|
    ensures |SplitFrom(s, [c], from)| == CountFrom(s, c, from) + 1
    decreases |s| - from
  {
    IndexFromFinds(s, [c], from);
    match IndexFrom(s, [c], from)
    case None =>
      forall k | from <= k < |s|
        ensures s[k] != c
      {
        OccursAtChar(s, c, k);
      }
      CountSkips(s, c, from, |s|);
    case Some(i) =>
      forall k | from <= k < i
        ensures s[k] != c
      {
        OccursAtChar(s, c, k);
      }
      CountSkips(s, c, from, i);
      OccursAtChar(s, c, i);
      SplitFromCount(s, c, i + 1);
  }

  /** `len(s.split(c))` is one more than `s.count(c)`. */
  lemma SplitCount(s: string, c: char)
    ensures |Split(s, [c])| == CountChar(s, c) + 1
  {
    SplitFromCount(s, c, 0);
  }
}
