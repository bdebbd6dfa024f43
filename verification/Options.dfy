/** Values that may be absent, as Rust's Option. */
module Options {
  datatype Option<+T> = None | Some(value: T)
}
