/** An optional value: a quantity the caller omitted, a rate field not yet written. */
module Options {

  datatype Option<+T> = None | Some(value: T)
}
