/** The conventional optional value, used wherever the source has `undefined`. */
module Options {
  datatype Option<+T> = None | Some(value: T)
}
