/** Option and Result values for the places where the Python code returns None or raises. */
module Wrappers {

  datatype Option<+T> = None | Some(value: T)

  /** `Failure` stands for a raised exception; `error` is what the handler sees. */
  datatype Result<+R, +E> = Success(value: R) | Failure(error: E)
}
