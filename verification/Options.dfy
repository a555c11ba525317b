/** The usual optional value: a nilable Go value, or a (value, found) pair. */
module Options {
  datatype Option<+T> = None | Some(value: T)
}
