/** An optional value: a form field or dialog answer that may be absent. */
module Options {
  datatype Option<+T> = None | Some(value: T)
}
