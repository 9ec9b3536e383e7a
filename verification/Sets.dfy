/** The elements of sequences, and the sizes of subsets. */
module Sets {

  function Members<T>(s: seq<T>): set<T> { set i | 0 <= i < |s| :: s[i] }

  lemma SmallerSet<T>(a: set<T>, b: set<T>)
    requires a <= b
    ensures |a| <= |b|
  {
    assert b == a + (b - a);
  }

  lemma EqualSets<T>(a: set<T>, b: set<T>)
    requires a <= b && |a| == |b|
    ensures a == b
  {
    assert b == a + (b - a);
  }
}
