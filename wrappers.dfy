/** Option and Result, the two failure-carrying shapes the plugin model uses. */
module Wrappers {

  /** A value that may be absent; a Go `error` that may be nil is an `Option<Error>`. */
  datatype Option<+T> = None | Some(value: T)

  /** Either a value or an error, for Go calls that return `(T, error)`. */
  datatype Result<+T, +E> = Success(value: T) | Failure(error: E)
}
