/** Rust's `Option` and `Result`, and the outcome of an operation that may panic. */
module Wrappers {

  /** Rust's `Option<T>`. */
  datatype Option<+T> = None | Some(value: T)

  /** Rust's `Result<T, E>`. */
  datatype Result<+T, +E> = Ok(value: T) | Err(error: E) {
    /** `Result::is_err` */
    predicate IsErr() {
      Err?
    }
  }

  /** An operation that either completes with a value or panics with a message
      (an `expect` whose argument is `Err`). The message is the argument of
      `expect` alone: Rust's panic message also appends the debug form of the
      error, which is opaque here. */
  datatype Outcome<+T> = Done(value: T) | Panic(message: string)
}
