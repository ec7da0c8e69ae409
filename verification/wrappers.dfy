/** Option and Result, the two failure-carrying shapes the bindings use:
    Rust's `Option<T>` / Go's `*T` for optional fields, and Rust's
    `Result<T, E>` / Go's `(T, error)` for fallible calls. */
module Wrappers {

  datatype Option<+T> = None | Some(value: T) {

    /** The wrapped value, or `default` when absent (serde's `#[serde(default)]`). */
    function GetOr(default: T): (r: T)
      ensures Some? ==> r == value
      ensures None? ==> r == default
    {
      match this
      case Some(v) => v
      case None => default
    }
  }

  datatype Result<+T, +E> = Success(value: T) | Failure(error: E)
}
