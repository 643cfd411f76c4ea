/**
 * Failure-compatible wrappers used across the model: `Option` stands for
 * Rust's `Option`, and `Result` for Rust's `Result` with its error type.
 */
module Wrappers {

  /** An optional value. */
  datatype Option<+T> = None | Some(value: T) {

    /** The wrapped value, or `default` when there is none (`unwrap_or`). */
    function GetOr(default: T): T {
      match this
      case Some(v) => v
      case None => default
    }
  }

  /** Either a value or an error. */
  datatype Result<+R, +E> = Success(value: R) | Failure(error: E)
}
