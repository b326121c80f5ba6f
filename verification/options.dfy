/** An optional value, used for the key bindings and for the rotation chosen in a frame. */
module Options {
  datatype Option<+T> = None | Some(value: T)
}
