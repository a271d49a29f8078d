/** Failure-carrying datatypes shared by the whole model: `Option` for the
    source's `None` returns and `Result` for its raised exceptions and HTTP errors. */
module Wrappers {

  datatype Option<+T> = None | Some(value: T)

  datatype Result<+R, +E> = Success(value: R) | Failure(error: E)
}
