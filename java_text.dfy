/**
 * The three `java.lang.String` operations the skill codec relies on, over
 * `seq<char>`: `startsWith`, `indexOf(String)` and `trim`. Each comes with a
 * contract that characterises it independently of its definition.
 */
module JavaText {

  /** `s.startsWith(p)`: `s` is `p` followed by some rest. */
  predicate StartsWith(s: string, p: string)
    ensures StartsWith(s, p) <==> exists rest :: s == p + rest
  {
    if |p| <= |s| && s[..|p|] == p then
      assert s == p + s[|p|..];
      true
    else
      false
  }

  /** `t` occurs in `s` starting at index `i`. */
  predicate OccursAt(s: string, t: string, i: nat) {
    i + |t| <= |s| && s[i..i + |t|] == t
  }

  /** Some occurrence of `t` lies inside `s`. */
  ghost predicate Contains(s: string, t: string) {
    exists i: nat :: OccursAt(s, t, i)
  }

  /** The first index at or after `from` where `t` occurs in `s`, or -1. */
  function IndexFrom(s: string, t: string, from: nat): (r: int)
    requires from <= |s|
    ensures r == -1 || (from <= r <= |s| && OccursAt(s, t, r))
    ensures r == -1 ==> forall j: nat :: from <= j ==> !OccursAt(s, t, j)
    ensures r != -1 ==> forall j: nat :: from <= j < r ==> !OccursAt(s, t, j)
    decreases |s| - from
  {
    if OccursAt(s, t, from) then from
    else if from == |s| then -1
    else IndexFrom(s, t, from + 1)
  }

  /**
   * `s.indexOf(t)`: the index of the first occurrence of `t` in `s`, or -1
   * when there is none.
   */
  function IndexOf(s: string, t: string): (r: int)
    ensures r == -1 <==> !Contains(s, t)
    ensures r != -1 ==> 0 <= r <= |s| && OccursAt(s, t, r)
    ensures r != -1 ==> forall j: nat :: j < r ==> !OccursAt(s, t, j)
  {
    var r := IndexFrom(s, t, 0);
    assert r != -1 ==> OccursAt(s, t, r as nat);
    r
  }

  /** Java's `trim` removes every character whose code is at most U+0020. */
  predicate IsBlank(c: char) {
    c <= ' '
  }

  predicate AllBlank(s: string) {
    forall k :: 0 <= k < |s| ==> IsBlank(s[k])
  }

  /** `r` starts and ends with a non-blank character, or is empty. */
  predicate Tight(r: string) {
    r == [] || (!IsBlank(r[0]) && !IsBlank(r[|r| - 1]))
  }

  /** `s` is `pre + r + post` with `pre` of length `i` and `pre`, `post` blank. */
  predicate TrimmedAt(s: string, r: string, i: nat) {
    && i + |r| <= |s|
    && s[i..i + |r|] == r
    && AllBlank(s[..i])
    && AllBlank(s[i + |r|..])
    && Tight(r)
  }

  /** `r` is what is left of `s` once its blank ends are removed. */
  ghost predicate IsTrimOf(r: string, s: string) {
    exists i: nat :: TrimmedAt(s, r, i)
  }

  /** The first index at or after `i` holding a non-blank character, or `|s|`. */
  function SkipLeading(s: string, i: nat): (k: nat)
    requires i <= |s|
    ensures i <= k <= |s|
    ensures forall j :: i <= j < k ==> IsBlank(s[j])
    ensures k < |s| ==> !IsBlank(s[k])
    decreases |s| - i
  {
    if i < |s| && IsBlank(s[i]) then SkipLeading(s, i + 1) else i
  }

  /** The least `k` in `[lo, hi]` such that `s[k..hi]` is blank. */
  function SkipTrailing(s: string, lo: nat, hi: nat): (k: nat)
    requires lo <= hi <= |s|
    ensures lo <= k <= hi
    ensures forall j :: k <= j < hi ==> IsBlank(s[j])
    ensures lo < k ==> !IsBlank(s[k - 1])
    decreases hi
  {
    if lo < hi && IsBlank(s[hi - 1]) then SkipTrailing(s, lo, hi - 1) else hi
  }

  /** `s.trim()`. */
  function Trim(s: string): (r: string)
    ensures |r| <= |s|
    ensures Tight(r)
    ensures IsTrimOf(r, s)
  {
    var lo := SkipLeading(s, 0);
    var hi := SkipTrailing(s, lo, |s|);
    var r := s[lo..hi];
    assert TrimmedAt(s, r, lo);
    r
  }
}
