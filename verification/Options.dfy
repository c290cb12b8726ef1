/** The usual optional value, used wherever the operator distinguishes a missing object from a present one. */
module Options {
  datatype Option<+T> = None | Some(value: T)
}
