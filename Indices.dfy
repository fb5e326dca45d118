/** The index lists that the binding builds by walking a sequence front to back and appending
    the position of every element that passes a test. */
module Indices {

  /** Positions of the elements of `s` that satisfy `keep`, in the order a front-to-back
      loop appends them. */
  function IndicesWhere<T>(s: seq<T>, keep: T -> bool): (r: seq<int>)
    ensures |r| <= |s|
    ensures forall k :: 0 <= k < |r| ==> 0 <= r[k] < |s|
  {
    if s == [] then []
    else IndicesWhere(s[..|s| - 1], keep) + (if keep(s[|s| - 1]) then [|s| - 1] else [])
  }

  ghost predicate StrictlyAscending(r: seq<int>)
  {
    forall i, j :: 0 <= i < j < |r| ==> r[i] < r[j]
  }

  /** One more loop iteration: looking at position `k` appends `k` exactly when it passes. */
  lemma IndicesWhereStep<T>(s: seq<T>, k: int, keep: T -> bool)
    requires 0 <= k < |s|
    ensures IndicesWhere(s[..k + 1], keep) == IndicesWhere(s[..k], keep) + (if keep(s[k]) then [k] else [])
  {
    assert s[..k + 1][..k] == s[..k];
  }

  lemma {:induction false} IndicesWhereAscending<T>(s: seq<T>, keep: T -> bool)
    ensures StrictlyAscending(IndicesWhere(s, keep))
  {
    if s != [] {
      IndicesWhereAscending(s[..|s| - 1], keep);
    }
  }

  /** A position is listed exactly when it is in range and its element passes. */
  lemma {:induction false} IndicesWhereMembers<T>(s: seq<T>, keep: T -> bool)
    ensures forall b :: b in IndicesWhere(s, keep) <==> 0 <= b < |s| && keep(s[b])
  {
    if s != [] {
      var init := s[..|s| - 1];
      IndicesWhereMembers(init, keep);
      assert forall b :: 0 <= b < |init| ==> init[b] == s[b];
    }
  }
}
