/** Optional values (Java's nullable references) and results (a value or a conflict). */
module Wrappers {

  /** A reference that may be null: `None` stands for Java's `null`. */
  datatype Option<+T> = None | Some(value: T)

  /** The outcome of an operation that may raise an exception carrying `E`. */
  datatype Result<+R, +E> = Success(value: R) | Failure(error: E)
}
