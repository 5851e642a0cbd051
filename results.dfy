/** Optional values and error returns, standing for Go's nil pointers and `error` results. */
module Results {

  datatype Option<T> = None | Some(value: T)

  /** An `error` result: `Pass` is a nil error, `Fail(e)` a non-nil one. */
  datatype Outcome<E> = Pass | Fail(error: E)

  /** A value-or-error pair such as `([]byte, error)`. */
  datatype Result<T, E> = Ok(value: T) | Err(error: E)
}
