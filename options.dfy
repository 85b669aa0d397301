/** The optional value used wherever the page holds "a value or nothing" (`null` in the source). */
module Options {
  datatype Option<T> = None | Some(value: T)
}
