/** The optional value used wherever the application has a nil case. */
module Options {
  datatype Option<+T> = None | Some(value: T)
}
