/** Sizes of finite sets. */
module Finite {

  lemma SubsetSmaller<T>(a: set<T>, b: set<T>)
    requires a <= b
    ensures |a| <= |b|
  {
    assert a + (b - a) == b;
    assert a !! (b - a);
  }

  lemma SubsetWithout<T>(a: set<T>, b: set<T>, r: T)
    requires a <= b - {r} && r in b
    ensures |a| + 1 <= |b|
  {
    SubsetSmaller(a + {r}, b);
  }
}
