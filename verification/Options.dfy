/** The optional value used where the controller's Python fields may be None. */
module Options {
  datatype Option<+T> = None | Some(value: T)
}
