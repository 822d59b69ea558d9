/** The optional value of a JavaScript field that may be `null` or `undefined`. */
module Options {
  datatype Option<T> = None | Some(value: T)
}
