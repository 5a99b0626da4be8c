/** The optional value used where the Rust code returns `Option` or calls `unwrap`. */
module Wrappers {
  datatype Option<+T> = None | Some(value: T)
}
