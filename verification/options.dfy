/** The optional value used wherever the program has `None` or a value. */
module Options {

  datatype Option<T> = None | Some(value: T)

}
