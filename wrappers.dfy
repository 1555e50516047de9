/** The optional value used for absent map entries and absent payloads. */
module Wrappers {

  datatype Option<T> = None | Some(value: T)
}
