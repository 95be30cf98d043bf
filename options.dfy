/** The optional value used wherever the client may or may not act. */
module Options {
  datatype Option<+T> = None | Some(value: T)
}
