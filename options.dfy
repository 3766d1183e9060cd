/** A value that may be absent: Kotlin's nullable references. */
module Options {

  datatype Option<T> = None | Some(value: T)
}
