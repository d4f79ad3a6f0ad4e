/** An optional value: a parse that may fail, an escape that may not happen. */
module Optional {
  datatype Option<+T> = None | Some(value: T)
}
