/** A nil-able value: Go's `error` (nil or not) and "no match yet" results. */
module Wrappers {

  datatype Option<+T> = None | Some(value: T)

}
