/** The parts of Go's `strings` package that the catalog-id decoder relies on. */
module Strings {

  /** `sep` occurs in `s` starting at position `i`. */
  predicate OccursAt(s: string, sep: string, i: nat) {
    i + |sep| <= |s| && s[i..i + |sep|] == sep
  }

  /** `sep` occurs somewhere in `s` (what `strings.Contains` reports). */
  predicate Contains(s: string, sep: string) {
    exists i: nat :: i <= |s| && OccursAt(s, sep, i)
  }

  /** The first position at or after `from` where `sep` occurs in `s`, or -1. */
  function IndexFrom(s: string, sep: string, from: nat): (r: int)
    requires from <= |s|
    decreases |s| - from
    ensures r == -1 || (from <= r <= |s| && OccursAt(s, sep, r))
    ensures r == -1 ==> forall j: nat :: from <= j <= |s| ==> !OccursAt(s, sep, j)
    ensures r != -1 ==> forall j: nat :: from <= j < r ==> !OccursAt(s, sep, j)
  {
    if from + |sep| > |s| then -1
    else if s[from..from + |sep|] == sep then from
    else IndexFrom(s, sep, from + 1)
  }

  /** `strings.Index`: the first position of `sep` in `s`, or -1 when it does not occur. */
  function Index(s: string, sep: string): (r: int)
    ensures r == -1 <==> !Contains(s, sep)
    ensures r != -1 ==> 0 <= r <= |s| && OccursAt(s, sep, r)
    ensures r != -1 ==> forall j: nat :: j < r ==> !OccursAt(s, sep, j)
  {
    IndexFrom(s, sep, 0)
  }

  /** The three results of `strings.Cut`. */
  datatype CutResult = CutResult(before: string, after: string, found: bool)

  /**
   * `strings.Cut`: slices `s` around the FIRST occurrence of `sep`; when `sep`
   * does not occur, `before` is all of `s` and `after` is empty.
   */
  function Cut(s: string, sep: string): (r: CutResult)
    ensures r.found <==> Contains(s, sep)
    ensures r.found ==> s == r.before + sep + r.after
    ensures r.found ==> forall j: nat :: j < |r.before| ==> !OccursAt(s, sep, j)
    ensures !r.found ==> r.before == s && r.after == ""
  {
    var i := Index(s, sep);
    if i >= 0 then
      assert s == s[..i] + s[i..i + |sep|] + s[i + |sep|..];
      CutResult(s[..i], s[i + |sep|..], true)
    else CutResult(s, "", false)
  }

  /**
   * Cutting `a + sep + b` gives back `a` and `b` whenever `sep` does not start
   * anywhere inside `a`: the first occurrence is the one right after `a`.
   */
  lemma CutAtFirst(a: string, sep: string, b: string)
    requires forall j: nat :: j < |a| ==> !OccursAt(a + sep + b, sep, j)
    ensures Cut(a + sep + b, sep) == CutResult(a, b, true)
  {
    var s := a + sep + b;
    assert s[|a|..|a| + |sep|] == sep;
    assert OccursAt(s, sep, |a|);
    var i := Index(s, sep);
    assert i == |a|;
    assert s[..i] == a;
    assert s[i + |sep|..] == b;
  }

  /** A string without the character `c` contains no separator that starts with `c`. */
  lemma NoOccurrenceBefore(a: string, sep: string, b: string)
    requires |sep| > 0
    requires forall k :: 0 <= k < |a| ==> a[k] != sep[0]
    ensures forall j: nat :: j < |a| ==> !OccursAt(a + sep + b, sep, j)
  {
    var s := a + sep + b;
    forall j: nat | j < |a| ensures !OccursAt(s, sep, j) {
      assert s[j] == a[j];
      assert j + |sep| <= |s| ==> s[j..j + |sep|][0] == s[j];
    }
  }

  /** A string without the first character of `sep` does not contain `sep`. */
  lemma NotContainedWithoutFirstChar(s: string, sep: string)
    requires |sep| > 0
    requires forall k :: 0 <= k < |s| ==> s[k] != sep[0]
    ensures !Contains(s, sep)
  {
    forall i: nat | i <= |s| ensures !OccursAt(s, sep, i) {
      assert i + |sep| <= |s| ==> s[i..i + |sep|][0] == s[i];
    }
  }
}
