/** An optional value, for what the program expresses by None or by an exception without content. */
module Options {

  datatype Option<+T> = None | Some(value: T)
}
