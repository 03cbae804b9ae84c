/** The optional value used for lookups that may miss and for an absent request body. */
module Options {
  datatype Option<+T> = None | Some(value: T)
}
