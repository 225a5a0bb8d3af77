/** The usual optional value: Go's nil pointers and missing map entries. */
module Options {
  datatype Option<+T> = None | Some(value: T)
}
