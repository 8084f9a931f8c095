/** Option for getMetrics's optional prefix; Result for the errors that end() and the log interceptor throw. */
module Wrappers {

  datatype Option<+T> = None | Some(value: T)

  datatype Result<+R, +E> = Success(value: R) | Failure(error: E)
}
