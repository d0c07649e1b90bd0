/** An optional value: the result of a step that may be disabled, a lookup that may miss. */
module Options {
  datatype Option<+T> = None | Some(value: T)
}
