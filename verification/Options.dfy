/** A value that may be absent: a NULL column, a missing reply, a free lock. */
module Options {
  datatype Option<T> = None | Some(value: T)
}
