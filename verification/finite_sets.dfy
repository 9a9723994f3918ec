module FiniteSets {
  lemma SubsetSize(a: set<nat>, b: set<nat>)
    requires a <= b
    ensures |a| <= |b|
  {
    assert b == a + (b - a);
  }

  lemma DifferenceSize(a: set<nat>, b: set<nat>)
    ensures |a - b| + |b| >= |a|
  {
    assert a == (a - b) + (a * b);
    SubsetSize(a * b, b);
  }
}
