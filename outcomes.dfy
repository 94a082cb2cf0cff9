/** Result shapes shared by the model: the engine's replies and the
    Rust `Option` / `Result` values the service returns. */
module Outcomes {

  datatype Option<+T> = None | Some(value: T)

  /** Rust's `Result<T, E>`. */
  datatype Result<+T, +E> = Ok(value: T) | Err(error: E)

  /** How a call that may panic ends: it returns a value, or the thread
      aborts (a Rust `expect` on an error). */
  datatype Completion<+T> = Returned(value: T) | Aborted
}
