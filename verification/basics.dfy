/** Rust's `Option` and `Result` as the service code uses them, and raw byte strings. */
module Basics {

  /** An optional value (`Option`). */
  datatype Option<T> = None | Some(value: T) {

    /** The wrapped value, or `default` when there is none (`unwrap_or`). */
    function GetOr(default: T): T {
      match this
      case Some(v) => v
      case None => default
    }
  }

  /** A value or an error (`Result`); the `?` operator is written `:-`. */
  datatype Result<T, E> = Ok(value: T) | Err(error: E) {

    predicate IsFailure() {
      Err?
    }

    function PropagateFailure<U>(): Result<U, E>
      requires Err?
    {
      Err(error)
    }

    function Extract(): T
      requires Ok?
    {
      value
    }
  }

  /** Raw bytes: module contents and sandbox memory. */
  type Bytes = seq<bv8>
}
