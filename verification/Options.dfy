/** Nullable columns and optional values of the source. */
module Options {
  datatype Option<+T> = None | Some(value: T)
}
