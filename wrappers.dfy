/** Optional values (Java's null references and Optionals) and results of operations that may throw. */
module Wrappers {

  /** A value that may be absent: a null reference, `Optional.empty()` or Guava's `Optional.absent()`. */
  datatype Option<+T> = None | Some(value: T) {

    /** `Optional.orElse(default)`. */
    function GetOr(default: T): T {
      match this
      case Some(v) => v
      case None => default
    }
  }

  /** The outcome of a call that either returns a value or throws. */
  datatype Result<+T, +E> = Ok(value: T) | Err(error: E)
}
