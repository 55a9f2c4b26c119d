/** An optional value: a field of a parsed document that is present or not. */
module Options {

  datatype Option<+T> = None | Some(value: T)
}
