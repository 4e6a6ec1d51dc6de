/** Failure-carrying return values shared by the modules of this model. */
module Wrappers {

  /** A value that may be absent. */
  datatype Option<T> = None | Some(value: T)

  /** Either a value or an error: Go's `(T, error)` pair with exactly one side set. */
  datatype Result<T, E> = Ok(value: T) | Err(error: E)

  /** Go's bare `error` return: `nil` (Pass) or a non-nil error (Fail). */
  datatype Outcome<E> = Pass | Fail(error: E)
}
