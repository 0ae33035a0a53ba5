/** Small value wrappers shared by the portal's modules. */
module Wrappers {

  /** A value that may be absent (`T | null`, `T | undefined`). */
  datatype Option<+T> = None | Some(value: T)

  /** How an awaited promise settles: with a value, or by throwing. */
  datatype Settled<+T> = Fulfilled(value: T) | Rejected
}
