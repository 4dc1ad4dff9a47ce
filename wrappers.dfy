/** Option and Result, the shapes Go expresses with a zero value or an extra `error` return. */
module Wrappers {

  datatype Option<+T> = None | Some(value: T)

  datatype Result<+T, +E> = Success(value: T) | Failure(error: E)
}
