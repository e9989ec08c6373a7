/** The optional value used wherever the resolver has a nil pointer, a zero time or a missing map entry; sets. */
module Wrappers {
  datatype Option<+T> = None | Some(value: T)

  lemma SubsetSize<T>(a: set<T>, b: set<T>)
    requires a <= b
    ensures |a| <= |b|
  {
    assert b == a + (b - a);
  }
}
