/** The optional value used for register contents that may not have been written. */
module Options {
  datatype Option<+T> = None | Some(value: T)
}
