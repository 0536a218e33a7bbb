/** Failure-carrying values shared by every module of the model. */
module Common {

  /** An optional value: Rust's `Option<T>`. */
  datatype Option<T> = None | Some(value: T) {
    /** `unwrap_or`: the value if present, otherwise `default`. */
    function GetOr(default: T): T {
      match this
      case Some(v) => v
      case None => default
    }
  }

  /** A value or an error: Rust's `Result<T, E>`. */
  datatype Result<T, E> = Ok(value: T) | Err(error: E)

  /** A computation that either finishes with a value or panics (an `unwrap` on a failure). */
  datatype Outcome<T> = Done(value: T) | Panicked
}
