/** Failure-carrying result types used where the library returns `null`
    or throws instead of producing a value. */
module Wrappers {

  /** A value that may be absent; `None` stands for a `null` return. */
  datatype Option<+T> = None | Some(value: T)

  /** A value or the error that prevented it; `Failure` stands for a thrown exception. */
  datatype Result<+T, +E> = Success(value: T) | Failure(error: E)

  /** What a JavaScript `TypeError` reports: reading an index of `null`,
      or assigning to a `const` binding. */
  datatype Thrown = TypeError(message: string)
}
