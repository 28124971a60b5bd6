/** Small facts about sets and sequences that several modules need. */
module Collections {

  lemma SubsetSize<T>(small: set<T>, big: set<T>)
    requires small <= big
    ensures |small| <= |big|
  {
    assert big == small + (big - small);
  }

  lemma SubsetOfSameSize<T>(small: set<T>, big: set<T>)
    requires small <= big && |small| == |big|
    ensures small == big
  {
    assert big == small + (big - small);
  }

  lemma HeadIsIn<T>(s: seq<T>)
    ensures s != [] ==> s[0] in s
  {
  }

  /** What others do in the k-th gap between a caller's steps; nothing beyond the plan. */
  function Gap<T>(plan: seq<seq<T>>, k: nat): seq<T> {
    if k < |plan| then plan[k] else []
  }
}
