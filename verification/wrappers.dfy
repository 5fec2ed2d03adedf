/** Failure-compatible wrappers used for the library's error paths (thrown errors, failed assertions). */
module Wrappers {

  datatype Option<+T> = None | Some(value: T)

  datatype Result<+T, +E> = Ok(value: T) | Err(error: E)
}
