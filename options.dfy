/** The optional value used wherever the C code returns NULL. */
module Options {
  datatype Option<T> = None | Some(value: T)
}
