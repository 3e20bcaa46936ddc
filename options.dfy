/** A value that may be absent: the `null` a failed regex `match` returns. */
module Options {
  datatype Option<+T> = None | Some(value: T)
}
