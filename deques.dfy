/** Python's `collections.deque(maxlen=cap)`, seen as a sequence: `append`
    adds at the right end and, once the deque is full, drops the leftmost
    (oldest) element. */
module Deques {

  function BoundedAppend<T>(s: seq<T>, x: T, cap: nat): (r: seq<T>)
    requires cap > 0
    requires |s| <= cap
    ensures |r| == if |s| < cap then |s| + 1 else cap
    ensures r[|r| - 1] == x
    ensures r == (s + [x])[|s| + 1 - |r|..]
  {
    if |s| < cap then s + [x] else s[1..] + [x]
  }

  /** Appending adds x and possibly drops an old element: nothing else
      appears. */
  lemma BoundedAppendMembers<T>(s: seq<T>, x: T, cap: nat, y: T)
    requires cap > 0
    requires |s| <= cap
    requires y in BoundedAppend(s, x, cap)
    ensures y == x || y in s
  {
    var r := BoundedAppend(s, x, cap);
    var k :| 0 <= k < |r| && r[k] == y;
    if k < |r| - 1 {
      assert y == s[|s| + 1 - |r| + k];
    }
  }
}
