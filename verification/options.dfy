/** An optional value: a prop the caller may omit, or a DOM element that may be absent. */
module Options {
  datatype Option<+T> = None | Some(value: T)
}
