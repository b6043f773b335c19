/** The result of a lookup that may find nothing: a Go nil or a missing value. */
module Options {
  datatype Option<+T> = None | Some(value: T)
}
