/** An optional value, for lookups that may find nothing. */
module Maybe {
  datatype Option<+T> = None | Some(value: T)
}
