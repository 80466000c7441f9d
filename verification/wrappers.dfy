/** The two wrappers used throughout the model: an optional value (Python's
    `Optional[...]`, with `None` for an absent field) and a result that is either
    a value or the exception a constructor raised. */
module Wrappers {

  /** An optional value; `None` is an absent field, never a sentinel. */
  datatype Option<+T> = None | Some(value: T)

  /** Either a successfully constructed value or the error that aborted construction */
  datatype Result<+R, +E> = Success(value: R) | Failure(error: E)
}
