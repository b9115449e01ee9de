/** The optional value, for fields the coordinator may leave unset. */
module Options {
  datatype Option<+T> = None | Some(value: T)
}
