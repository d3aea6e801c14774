/** Optional values, opaque errors and error-or-value results, standing for Go's
    `*string` (nil or a string), `error` and `(T, error)` returns. */
module Outcomes {

  /** A Go pointer that may be nil: `*string` for a sequence token. */
  datatype Option<+T> = None | Some(value: T)

  /** A Go `error`: opaque to the hook, which only passes it on. */
  datatype Error = Error(description: string)

  /** The `(value, err)` pair of a Go call: exactly one of the two is meaningful. */
  datatype Result<+T> = Success(value: T) | Failure(error: Error)
}
