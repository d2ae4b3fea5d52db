/** The optional value the Rust sources return from their lookups (`Option<T>`). */
module Wrappers {

  datatype Option<+T> = None | Some(value: T)
}
