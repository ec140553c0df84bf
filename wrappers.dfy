/** Optional values and the `Result<T, String>` of the canister's update and query calls. */
module Wrappers {

  datatype Option<+T> = None | Some(value: T)

  /** A Rust `Result<T, String>`: every error of the canister is a message string. */
  datatype Result<+T> = Ok(value: T) | Err(error: string)
}
