/** An optional value: a document field or snapshot that may be absent. */
module Options {
  datatype Option<+T> = None | Some(value: T)
}
