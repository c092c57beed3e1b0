/** What a lookup or a nullable field yields. */
module Options {
  datatype Option<+T> = None | Some(value: T)
}
