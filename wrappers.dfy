/** Kotlin's nullable values (`T?`), as an explicit datatype. */
module Wrappers {

  datatype Option<T> = None | Some(value: T)
}
