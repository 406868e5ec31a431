/** Option type used for the partial decoders and optional lookups. */
module Wrappers {
  datatype Option<+T> = None | Some(value: T)
}
