/** The optional value used for nullable columns and missing results. */
module Options {
  datatype Option<+T> = None | Some(value: T)
}
