/** Python's `None`-or-value arguments. */
module Optional {
  datatype Option<T> = None | Some(value: T)
}
