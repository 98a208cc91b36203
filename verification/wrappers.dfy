/** Failure-carrying datatypes shared by the model: `Option` for JavaScript's
    `null`/`undefined`, `Result` for an expression that throws. */
module Wrappers {

  datatype Option<+T> = None | Some(value: T)

  datatype Result<+R, +E> = Success(value: R) | Failure(error: E)
}
