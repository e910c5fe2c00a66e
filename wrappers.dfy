/** Small failure-carrying datatypes shared by the model. */
module Wrappers {

  /** A value that may be absent: JavaScript's `undefined` is `None`. */
  datatype Option<+T> = None | Some(value: T)

  /** The outcome of evaluating an expression that can throw. The exception
      modelled is the `TypeError` from reading a property of `undefined` (for
      example `columnConfig[0].key` on an empty registry, or `data.map` after
      the payload went missing). Records hold scalar values only, so React's
      rejection of an object rendered as a child is outside the model. */
  datatype Outcome<+T> = Ok(value: T) | TypeError
}
