/** Optional values, the two-way results that stand for Go's `(value, error)` pairs, and what is said of them. */
module Wrappers {
  datatype Option<+T> = None | Some(value: T)

  datatype Result<+T, +E> = Ok(value: T) | Err(error: E)

  predicate Every<T>(s: seq<T>, p: T -> bool) {
    forall i :: 0 <= i < |s| ==> p(s[i])
  }

  // How an object may change between two moments.

  /** It is not lost. */
  predicate Stays<T(==)>(before: Option<T>, after: Option<T>) { before.Some? ==> after == before }

  /** It is not gained. */
  predicate Shrinks<T(==)>(before: Option<T>, after: Option<T>) { after.Some? ==> after == before }

  /** It is the same if it is there both times. */
  predicate Agree<T(==)>(a: Option<T>, b: Option<T>) { a.Some? && b.Some? ==> a == b }
}
