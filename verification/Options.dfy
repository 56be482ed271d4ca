/** Values that may be missing: null pointers and structures not yet written. */
module Options {
  datatype Option<+V> = None | Some(value: V)
}
