/** Option and Result, standing for Rust's `Option<T>` and `Result<T, E>`. */
module Wrappers {

  datatype Option<+T> = None | Some(value: T) {
    /** Rust's `unwrap_or` / `unwrap_or_default` with the default passed in. */
    function GetOr(default: T): (r: T)
      ensures Some? ==> r == value
      ensures None? ==> r == default
    {
      match this
      case Some(v) => v
      case None => default
    }
  }

  datatype Result<+T, +E> = Success(value: T) | Failure(error: E)
}
