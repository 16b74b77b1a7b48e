/** Optional values and fallible results, standing for Rust's `Option` and `Result`. */
module Wrappers {

  /** `Option<T>`: a value that may be absent. */
  datatype Option<+T> = None | Some(value: T) {

    /** The wrapped value, or `default` when there is none (Rust's `unwrap_or`). */
    function UnwrapOr(default: T): T {
      match this
      case Some(v) => v
      case None => default
    }
  }

  /** `Result<R, E>`: either a value or an error. */
  datatype Result<+R, +E> = Ok(value: R) | Err(error: E)
}
