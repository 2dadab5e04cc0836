/** A value that may be absent: a nullable column, an optional JSON key, `None`. */
module Options {
  datatype Option<+T> = None | Some(value: T)
}
