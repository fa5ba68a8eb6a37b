/** An optional value, for decodings that can fail and for lookups that have
    no answer for an unknown peripheral. */
module Opt {
  datatype Option<T> = None | Some(value: T)
}
