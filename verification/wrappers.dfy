/** Failure-carrying return types shared by every skill: `Option` for a lookup
    that may find nothing and `Result` for an operation that either produces a
    value or reports why it could not. */
module Wrappers {

  datatype Option<+T> = None | Some(value: T)

  datatype Result<+R, +E> = Success(value: R) | Failure(error: E)
}
