/** Failure-carrying result types shared by every module of the model. */
module Wrappers {

  datatype Option<+T> = None | Some(value: T)

  /** blas::Error: a message (what()) and the name of the function that raised it. */
  datatype BlasError = BlasError(message: string, func: string)

  /** The outcome of a host-side call that either returns a value or throws a blas::Error. */
  datatype Result<+T> = Ok(value: T) | Err(error: BlasError)
}
