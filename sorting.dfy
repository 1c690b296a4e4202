/** Python's `sorted` on a list of floats and the "upper median"
    `sorted(xs)[len(xs) // 2]` that the warm-up snapshot takes of the returns
    and of their absolute deviations. */
module Sorting {

  ghost predicate SortedAsc(s: seq<real>) {
    forall i, j :: 0 <= i < j < |s| ==> s[i] <= s[j]
  }

  /** Insertion of x into an ascending sequence. */
  function Insert(x: real, s: seq<real>): (r: seq<real>)
    requires SortedAsc(s)
    ensures |r| == |s| + 1
    ensures r[0] == if |s| == 0 || x <= s[0] then x else s[0]
    ensures SortedAsc(r)
    ensures multiset(r) == multiset(s) + multiset{x}
  {
    if |s| == 0 then [x]
    else if x <= s[0] then [x] + s
    else
      var rest := Insert(x, s[1..]);
      assert s == [s[0]] + s[1..];
      PrependSorted(s[0], rest);
      [s[0]] + rest
  }

  lemma PrependSorted(h: real, t: seq<real>)
    requires SortedAsc(t)
    requires |t| > 0 ==> h <= t[0]
    ensures SortedAsc([h] + t)
  {
  }

  /** `sorted(s)`: an ascending permutation of s. */
  function Sort(s: seq<real>): (r: seq<real>)
    ensures SortedAsc(r)
    ensures multiset(r) == multiset(s)
    ensures |r| == |s|
  {
    if |s| == 0 then []
    else
      assert s == [s[0]] + s[1..];
      Insert(s[0], Sort(s[1..]))
  }

  /** `sorted(s)[len(s) // 2]`. */
  function UpperMedian(s: seq<real>): (m: real)
    requires |s| > 0
    ensures m in s
  {
    var r := Sort(s);
    assert r[|s| / 2] in multiset(r);
    r[|s| / 2]
  }

  /** The median of a constant sequence is that constant. */
  lemma UpperMedianOfConstant(s: seq<real>, c: real)
    requires |s| > 0
    requires forall i :: 0 <= i < |s| ==> s[i] == c
    ensures UpperMedian(s) == c
  {
  }

  /** Every element of a sequence of non-negative numbers is bounded below by
      zero, and so is their median. */
  lemma UpperMedianNonNeg(s: seq<real>)
    requires |s| > 0
    requires forall i :: 0 <= i < |s| ==> s[i] >= 0.0
    ensures UpperMedian(s) >= 0.0
  {
  }
}
