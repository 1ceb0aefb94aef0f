/** The optional value: a nil pointer, an absent map entry or a nil error in the modelled code. */
module Options {
  datatype Option<+T> = None | Some(value: T)
}
