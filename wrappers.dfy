/** Option, Result and the outcome of an operation that may panic. */
module Wrappers {

  datatype Option<+T> = None | Some(value: T)

  /** Rust's `Result<T, E>`. */
  datatype Result<+T, +E> = Success(value: T) | Failure(error: E)

  /** The outcome of Rust code that either finishes or panics
      (`unreachable!`, `unwrap` on `None`, an index out of range). */
  datatype Outcome<+T> = Done(value: T) | Panic(reason: string)
}
