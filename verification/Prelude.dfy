/** Vocabulary shared by every module of the model. */
module Prelude {

  /** A column or field that may be null. */
  datatype Option<+T> = None | Some(value: T)

  /** Milliseconds since the epoch. */
  type Time = nat

  /** Removing elements that fail a test can only shrink a finite set. */
  lemma SubsetSize<T>(a: set<T>, b: set<T>)
    requires a <= b
    ensures |a| <= |b|
    decreases b
  {
    if a != {} {
      var x :| x in a;
      SubsetSize(a - {x}, b - {x});
    }
  }
}
