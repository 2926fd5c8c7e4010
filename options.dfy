/** The optional value the source expresses with `None`. */
module Options {
  datatype Option<T> = None | Some(value: T)
}
