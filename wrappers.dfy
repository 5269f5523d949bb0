/** Optional values and results with an error payload, used by the credential selector. */
module Wrappers {

  /** A value that may be missing; stands for a .NET reference that may be null. */
  datatype Option<+T> = None | Some(value: T)

  /** The outcome of an operation that either yields a value or fails with an error payload. */
  datatype Result<+R, +E> = Success(value: R) | Failure(error: E)
}
