/** The optional value used throughout the model, in place of Rust's `Option`. */
module Options {
  datatype Option<+T> = None | Some(value: T)
}
