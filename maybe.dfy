/** An optional value, for results that may be absent. */
module Maybe {
  datatype Option<T> = None | Some(value: T)
}
