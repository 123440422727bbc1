/** A value that may be absent: a null pointer in the source. */
module Options {

  datatype Option<T> = None | Some(value: T)
}
