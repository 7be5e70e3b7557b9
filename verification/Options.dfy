/** A value that may be missing: Go's nil pointers and second results. */
module Options {
  datatype Option<+T> = None | Some(value: T)
}
