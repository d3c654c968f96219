/** Optional values and success-or-failure results, shared by every module of the model. */
module Wrappers {

  /** A value that may be absent: TypeScript's `T | null` and Rust's `Option<T>`. */
  datatype Option<+T> = None | Some(value: T)

  /** The outcome of a call that can fail: Rust's `Result<R, E>` and a settled JavaScript promise. */
  datatype Result<+R, +E> = Ok(value: R) | Err(error: E)
}
