/** A value that may be missing: a null pointer, a lookup that finds nothing. */
module Options {

  datatype Option<T> = None | Some(value: T)
}
