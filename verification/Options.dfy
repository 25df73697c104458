/** The optional value used for null pointers and fields that are not initialised. */
module Options {
  datatype Option<+T> = None | Some(value: T)
}
