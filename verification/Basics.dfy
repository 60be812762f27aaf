/**
 Types shared by every component: optional values, results, bytes, and the
 three ways a durable write can end.
 */
module Basics {
  datatype Option<+T> = None | Some(value: T)

  datatype Result<+T, +E> = Ok(value: T) | Err(error: E)

  type byte = b: int | 0 <= b < 256

  /** How one atomic JSON write ends. A failure after the rename leaves the new
      contents in place although the caller is told that the write failed. */
  datatype Outcome = Stored | NotStored | StoredButErr {
    /** The new contents are on disk. */
    predicate Applied() {
      !NotStored?
    }

    /** The caller sees success. */
    predicate Reported() {
      Stored?
    }
  }

  lemma SubsetSize<T>(a: set<T>, b: set<T>)
    requires a <= b
    ensures |a| <= |b|
  {
    assert b == a + (b - a);
  }
}
