/** Small helper type shared by the slot engine and the ledger. */
module Wrappers {

  /** A value that may be absent, as JavaScript's `undefined` result of `Array.find`. */
  datatype Option<T> = None | Some(value: T)
}
