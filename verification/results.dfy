/**
 The two failure-carrying shapes the worker uses: an optional value (a
 decode that may fail) and Rust's `Result<String, String>` (a task outcome
 that is either output text or an error message, never both).
 */
module Results {

  datatype Option<+T> = None | Some(value: T)

  datatype Result<+T, +E> = Ok(value: T) | Err(error: E)
}
