/** Optional values, results and outcomes: the model's stand-ins for Java's null and its exceptions. */
module Wrappers {

  /** A Java reference that may be null. */
  datatype Option<T> = None | Some(value: T)

  /** The Java exceptions that the modelled code throws or lets escape. */
  datatype Exception =
    | ConfigException
    | NullPointerException
    | IllegalArgumentException
    | IllegalStateException

  /** A value-returning call that either returns or throws. */
  datatype Result<T> = Success(value: T) | Failure(error: Exception)

  /** A void call that either returns normally or throws. */
  datatype Outcome = Pass | Fail(error: Exception)
}
