/** The two failure-carrying shapes the calculator's Rust code returns: `Option` and `Result`. */
module Wrappers {

  datatype Option<+T> = None | Some(value: T)

  datatype Result<+T, +E> = Ok(value: T) | Err(error: E)
}
