/** Optional values and success-or-error results, used where the Python
    source returns `None` or raises. */
module Outcomes {

  /** A value that may be absent (`X | None` in the source). */
  datatype Option<+T> = None | Some(value: T)

  /** The outcome of an operation that can raise: its value, or the error it raises. */
  datatype Result<+T, +E> = Success(value: T) | Failure(error: E)
}
