/** Failure-carrying return types used in place of the source's exceptions
    and `None` returns. */
module Wrappers {

  /** A value that may be absent (a failed parse, a missing key). */
  datatype Option<+T> = None | Some(value: T)

  /** Either a value or the error the source reports instead. */
  datatype Result<+R, +E> = Success(value: R) | Failure(error: E)
}
