/** An optional value: the outcome of a parse that may fail. */
module Options {

  datatype Option<+T> = None | Some(value: T)

}
