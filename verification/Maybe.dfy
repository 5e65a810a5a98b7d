/** The optional value the source writes as `None` or a value. */
module Maybe {
  datatype Option<+T> = None | Some(value: T)
}
