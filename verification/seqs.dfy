/** An optional value: a lookup that may miss, or a record field that may be absent. */
module Wrappers {
  datatype Option<+T> = None | Some(value: T)
}

/** Array `filter`, as the views use it, and the sub-sequence order it keeps. */
module Seqs {
  /** `a` is `b` with some elements dropped, the rest kept in their order. */
  ghost predicate IsSubsequence<T>(a: seq<T>, b: seq<T>)
    decreases |b|
  {
    && |a| <= |b|
    && (|a| == 0
        || (a[0] == b[0] && IsSubsequence(a[1..], b[1..]))
        || IsSubsequence(a, b[1..]))
  }

  /**
   * `s.filter(p)`: exactly the elements of `s` that satisfy `p`, each as
   * often as in `s`, in their original order.
   */
  function Filter<T(!new)>(s: seq<T>, p: T -> bool): (r: seq<T>)
    ensures IsSubsequence(r, s)
    ensures forall x :: x in r <==> x in s && p(x)
    ensures forall x :: multiset(r)[x] == if p(x) then multiset(s)[x] else 0
  {
    if |s| == 0 then []
    else
      assert s == [s[0]] + s[1..];
      if p(s[0]) then [s[0]] + Filter(s[1..], p) else Filter(s[1..], p)
  }
}
