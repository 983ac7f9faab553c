/** The usual optional value; models Kotlin's and Python's nullable references. */
module Options {
  datatype Option<+T> = None | Some(value: T)
}
