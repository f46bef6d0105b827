/** Failure-carrying datatypes used across the model: `Option` for values that
    may be `undefined`, `Result` for computations that may throw. */
module Wrappers {

  datatype Option<+T> = None | Some(value: T) {

    /** The wrapped value, or `default` when there is none (JavaScript's `??`). */
    function GetOr(default: T): T {
      match this
      case Some(v) => v
      case None => default
    }
  }

  /** `Ok` is a normal return, `Err` a thrown value. */
  datatype Result<+T, +E> = Ok(value: T) | Err(error: E)
}
