/** A value that may be absent: Python's None, a missing entry, a step that cannot happen. */
module Options {
  datatype Option<+T> = None | Some(value: T)
}
