/** The optional value used where Go returns a nil zero value. */
module Options {
  datatype Option<T> = None | Some(value: T)
}
