/** The option type of the whole project. */
module Wrappers {

  datatype Option<T> = None | Some(value: T)
}
