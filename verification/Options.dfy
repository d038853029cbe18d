/** A value that may be undefined in the source. */
module Options {
  datatype Option<+T> = None | Some(value: T)
}
