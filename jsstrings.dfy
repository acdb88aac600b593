/**
  The two JavaScript string operations the core relies on:
  `s.indexOf(pat, from)` and `s.split(sep)` for a non-empty separator.
*/
module JsStrings {
  import opened Wrappers

  /** `pat` occurs in `s` starting at index `k`. */
  predicate OccursAt(s: string, pat: string, k: int) {
    0 <= k && k + |pat| <= |s| && s[k..k + |pat|] == pat
  }

  ghost predicate Contains(s: string, pat: string) {
    exists k :: OccursAt(s, pat, k)
  }

  /** `s.indexOf(pat, from)`: the first occurrence of `pat` at or after `from`, if any. */
  function IndexOf(s: string, pat: string, from: nat): (r: Option<nat>)
    ensures r.Some? ==> from <= r.value && OccursAt(s, pat, r.value)
    ensures r.Some? ==> forall k :: from <= k < r.value ==> !OccursAt(s, pat, k)
    ensures r.None? ==> forall k :: from <= k ==> !OccursAt(s, pat, k)
    decreases |s| - from
  {
    if from + |pat| > |s| then None
    else if s[from..from + |pat|] == pat then Some(from)
    else IndexOf(s, pat, from + 1)
  }

  /** The pieces of `s[from..]` between the non-overlapping occurrences of `sep`, left to right. */
  function SplitFrom(s: string, sep: string, from: nat): (parts: seq<string>)
    requires sep != [] && from <= |s|
    ensures |parts| >= 1
    decreases |s| - from
  {
    match IndexOf(s, sep, from)
    case None => [s[from..]]
    case Some(i) => [s[from..i]] + SplitFrom(s, sep, i + |sep|)
  }

  /** `s.split(sep)` for a non-empty separator. */
  function Split(s: string, sep: string): (parts: seq<string>)
    requires sep != []
    ensures |parts| >= 1
  {
    SplitFrom(s, sep, 0)
  }

  /** `parts.join(sep)`. */
  function Join(parts: seq<string>, sep: string): string {
    if |parts| == 0 then []
    else if |parts| == 1 then parts[0]
    else parts[0] + sep + Join(parts[1..], sep)
  }

  /** An occurrence inside a slice is an occurrence in the whole string. */
  lemma OccursInSlice(s: string, pat: string, a: nat, b: nat, k: int)
    requires a <= b <= |s| && OccursAt(s[a..b], pat, k)
    ensures OccursAt(s, pat, a + k)
  {
    var u := s[a..b];
    var v, w := u[k..k + |pat|], s[a + k..a + k + |pat|];
    forall t | 0 <= t < |pat| ensures v[t] == w[t] {
      assert v[t] == u[k + t] == s[a + k + t];
    }
    assert v == w;
  }

  /** A slice that lies between two occurrences (or the ends) holds no occurrence. */
  lemma SliceFree(s: string, pat: string, a: nat, b: nat)
    requires pat != [] && a <= b <= |s|
    requires forall k :: a <= k < b ==> !OccursAt(s, pat, k)
    ensures !Contains(s[a..b], pat)
  {
    if k :| OccursAt(s[a..b], pat, k) {
      OccursInSlice(s, pat, a, b, k);
    }
  }

  /** Joining the pieces of `s[from..]` gives back `s[from..]`. */
  lemma {:induction false} SplitFromJoin(s: string, sep: string, from: nat)
    requires sep != [] && from <= |s|
    ensures Join(SplitFrom(s, sep, from), sep) == s[from..]
    decreases |s| - from
  {
    match IndexOf(s, sep, from)
    case None =>
      assert s[from..|s|] == s[from..];
    case Some(i) =>
      var rest := SplitFrom(s, sep, i + |sep|);
      SplitFromJoin(s, sep, i + |sep|);
      assert SplitFrom(s, sep, from) == [s[from..i]] + rest;
      assert s[i..i + |sep|] == sep;
      assert s[from..] == s[from..i] + s[i..i + |sep|] + s[i + |sep|..];
  }

  /** No piece of `s[from..]` contains the separator. */
  lemma {:induction false} SplitFromPiecesFree(s: string, sep: string, from: nat)
    requires sep != [] && from <= |s|
    ensures forall j :: 0 <= j < |SplitFrom(s, sep, from)| ==> !Contains(SplitFrom(s, sep, from)[j], sep)
    decreases |s| - from
  {
    match IndexOf(s, sep, from)
    case None =>
      SliceFree(s, sep, from, |s|);
      assert s[from..|s|] == s[from..];
    case Some(i) =>
      SliceFree(s, sep, from, i);
      var rest := SplitFrom(s, sep, i + |sep|);
      SplitFromPiecesFree(s, sep, i + |sep|);
      assert SplitFrom(s, sep, from) == [s[from..i]] + rest;
  }

  /** Splitting and joining again with the same separator gives back the string,
      and no piece contains the separator. */
  lemma SplitJoin(s: string, sep: string)
    requires sep != []
    ensures |Split(s, sep)| >= 1
    ensures Join(Split(s, sep), sep) == s
    ensures forall j :: 0 <= j < |Split(s, sep)| ==> !Contains(Split(s, sep)[j], sep)
  {
    SplitFromJoin(s, sep, 0);
    SplitFromPiecesFree(s, sep, 0);
    assert s[0..] == s;
  }

  /** The first piece is the text before the first separator, or all of `s` when there is none;
      there is a second piece exactly when the separator occurs. */
  lemma SplitFirstPiece(s: string, sep: string)
    requires sep != []
    ensures |Split(s, sep)| >= 1
    ensures IndexOf(s, sep, 0).None? ==> Split(s, sep) == [s]
    ensures IndexOf(s, sep, 0).Some? ==>
      |Split(s, sep)| >= 2 && Split(s, sep)[0] == s[..IndexOf(s, sep, 0).value]
  {
    match IndexOf(s, sep, 0)
    case None =>
      assert s[0..] == s;
    case Some(i) =>
      assert Split(s, sep) == [s[0..i]] + SplitFrom(s, sep, i + |sep|);
  }

  /** The second piece runs from the end of the first separator to the next one, or to the end. */
  lemma SplitSecondPiece(s: string, sep: string, i: nat)
    requires sep != [] && IndexOf(s, sep, 0) == Some(i)
    ensures |Split(s, sep)| >= 2
    ensures Split(s, sep)[1] ==
      match IndexOf(s, sep, i + |sep|)
      case None => s[i + |sep|..]
      case Some(j) => s[i + |sep|..j]
  {
    var rest := SplitFrom(s, sep, i + |sep|);
    assert Split(s, sep) == [s[0..i]] + rest;
    match IndexOf(s, sep, i + |sep|)
    case None =>
      assert rest == [s[i + |sep|..]];
    case Some(j) =>
      assert rest == [s[i + |sep|..j]] + SplitFrom(s, sep, j + |sep|);
  }
}
