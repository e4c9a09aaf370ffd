/** The optional value used for the components' nullable state (`File | null`, `Report | null`). */
module Wrappers {
  datatype Option<T> = None | Some(value: T)
}
