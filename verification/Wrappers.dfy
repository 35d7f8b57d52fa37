/** The optional value: SQL's NULL, Python's None and Rust's Option all become this. */
module Wrappers {
  datatype Option<+T> = None | Some(value: T)
}
