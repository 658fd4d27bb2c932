/** Option and Result, used for PHP's nullable values and for the exceptions the clients throw. */
module Wrappers {

  datatype Option<+T> = None | Some(value: T)

  datatype Result<+R, +E> = Success(value: R) | Failure(error: E)
}
