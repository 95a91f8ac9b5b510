/** The stock option type, for nullable columns, absent hash fields and unset cursors. */
module Options {
  datatype Option<+T> = None | Some(value: T)
}
