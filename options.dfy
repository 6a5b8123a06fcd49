/** The optional value used for Rust's `Option` and for lookups that can fail. */
module Options {

  datatype Option<+T> = None | Some(value: T)

}
