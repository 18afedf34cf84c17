/** Value wrappers for C#'s nullable references and for calls that either
    succeed or throw. */
module Wrappers {

  /** A nullable reference: None stands for C#'s null. */
  datatype Option<T> = None | Some(value: T)

  /** The result of a call that either returns a value or throws. */
  datatype Result<T, E> = Success(value: T) | Failure(error: E)

  /** The result of a void call that either returns or throws. */
  datatype Outcome<E> = Pass | Fail(error: E)
}
