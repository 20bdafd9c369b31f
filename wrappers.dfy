/** Option and Result types shared by the other modules. */
module Wrappers {

  /** An optional value: Python's `None` or a present value. */
  datatype Option<+T> = None | Some(value: T)

  /** A value or the error the source would raise or return instead. */
  datatype Result<+T, +E> = Success(value: T) | Failure(error: E)
}
