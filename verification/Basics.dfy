// Shared vocabulary: optional values and the clamping arithmetic used throughout the controller.
module Basics {
  datatype Option<+T> = None | Some(value: T)

  function Min(a: int, b: int): (m: int) {
    if a <= b then a else b
  }

  function Max(a: int, b: int): (m: int) {
    if a >= b then a else b
  }

  lemma SubsetSize<T>(a: set<T>, b: set<T>)
    requires a <= b
    ensures |a| <= |b|
  {
    assert b == a + (b - a);
  }
}
