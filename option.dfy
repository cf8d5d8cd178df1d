/** The optional value used wherever the source has a value or None. */
module Optional {
  datatype Option<+T> = None | Some(value: T)
}
