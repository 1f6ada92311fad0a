/** Errors shared by the dispatchers: the package's string error type, its
    routing sentinel, and Go's `error` return value (nil or an error). */
module Errors {

  /** `Error` is a string type; two errors are equal when their texts are. */
  datatype Error = Error(msg: string)

  /** The sentinel a dispatcher returns when nothing handles the arguments. */
  const NotFound: Error := Error("not found")

  /** A returned `error`: nil (`Ok`) or a failure. */
  datatype Status = Ok | Fail(err: Error)

  /** A value or the error that prevented computing it. */
  datatype Result<T> = Success(value: T) | Failure(error: Error)

  datatype Option<T> = None | Some(value: T)
}
