/** A value that may be missing: a dictionary lookup or an unset field. */
module Options {
  datatype Option<+T> = None | Some(value: T)
}
