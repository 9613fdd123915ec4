/** An optional value: the shape of a lookup or a decode that may fail. */
module Wrappers {

  datatype Option<+T> = None | Some(value: T)
}
