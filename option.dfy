/** The optional value used for callbacks that may or may not fire. */
module Optional {
  datatype Option<+T> = None | Some(value: T)
}
