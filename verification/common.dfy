/** Failure-carrying wrappers shared by every module of the listings model. */
module Common {

  /** A value that may be absent: JavaScript's `undefined`, a nullable reference, a missing query field. */
  datatype Option<+T> = None | Some(value: T)

  /** The outcome of a computation that may throw: `Ok` carries the value, `Err` the exception. */
  datatype Result<+T, +E> = Ok(value: T) | Err(error: E)
}
