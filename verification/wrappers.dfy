/** The wrappers used across the model: `Option` stands for a TypeScript value
    that may be `undefined`, `Result` for a call that either returns a value or
    throws an error. */
module Wrappers {

  datatype Option<+T> = None | Some(value: T)

  datatype Result<+R, +E> = Success(value: R) | Failure(error: E)
}
