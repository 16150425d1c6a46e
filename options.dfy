/** The optional value shared by every component model: a JavaScript `null`
    or `undefined` is `None`. */
module Options {
  datatype Option<+T> = None | Some(value: T)
}
