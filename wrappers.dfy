/** Small wrapper datatypes shared by the model. */
module Wrappers {

  /** A value that may be absent: TypeScript's `T | undefined`. */
  datatype Option<+T> = None | Some(value: T)

  /** The nullish-coalescing operator `o ?? d`: only an absent value is replaced. */
  function Coalesce<T>(o: Option<T>, d: T): T
  {
    match o
    case Some(v) => v
    case None => d
  }

  /** The value of a settled promise: a result or the error it was rejected with. */
  datatype Result<+R, +E> = Success(value: R) | Failure(error: E)

  /** A pass/fail check that carries an error on failure. */
  datatype Outcome<+E> = Pass | Fail(error: E)
}
