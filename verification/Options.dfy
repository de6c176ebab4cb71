// The optional value used wherever the source keeps `null` or `undefined`.
module Options {
  datatype Option<+T> = None | Some(value: T)
}
