/** Optional values (Java's `null` and `Optional`) and results (a value or a thrown exception). */
module Wrappers {

  /** `None` stands for a Java `null` or an empty `Optional`. */
  datatype Option<+T> = None | Some(value: T)

  /** `Failure` stands for an exception that leaves the operation. */
  datatype Result<+T, +E> = Success(value: T) | Failure(error: E)
}
