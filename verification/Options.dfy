/** The optional value used throughout the model for `undefined` and SQL NULL. */
module Options {
  datatype Option<+T> = None | Some(value: T)
}
