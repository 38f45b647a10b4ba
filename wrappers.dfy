/**
 * Failure-compatible wrappers shared by every module of the model: `Option`
 * for Rust's `Option<T>`, and `Result` for the crate's `Result<T, Error>`
 * whose error cases are the two variants of the crate's `Error` enum that
 * the converters produce.
 */
module Wrappers {

  /** `Option<T>`; usable with `:-` like Rust's `?` on an option. */
  datatype Option<+T> = None | Some(value: T) {
    predicate IsFailure() {
      None?
    }

    function PropagateFailure<U>(): Option<U>
      requires None?
    {
      None
    }

    function Extract(): T
      requires Some?
    {
      value
    }

    /** `Option::ok_or`: a missing value becomes the given error. */
    function OkOr(e: Error): Result<T> {
      match this
      case Some(v) => Ok(v)
      case None => Err(e)
    }
  }

  /** The crate's error type: a value that failed to parse, or a document
      that does not have the expected shape (with a human-readable reason). */
  datatype Error = ParseError | ConversionError(msg: string)

  /** `Result<T, Error>`; usable with `:-` like Rust's `?` on a result. */
  datatype Result<+T> = Ok(value: T) | Err(error: Error) {
    predicate IsFailure() {
      Err?
    }

    function PropagateFailure<U>(): Result<U>
      requires Err?
    {
      Err(error)
    }

    function Extract(): T
      requires Ok?
    {
      value
    }
  }
}
