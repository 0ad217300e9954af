/** Two small sum types shared by the modules below: `Option` is how a Swift
    optional (`T?`) is written here, and `Result` is how a call that may
    `throw` is written. */
module Wrappers {

  /** `None` plays the part of Swift's `nil`. */
  datatype Option<+T> = None | Some(value: T) {

    /** Swift's nil-coalescing `x ?? fallback`. */
    function ValueOr(fallback: T): T {
      if Some? then value else fallback
    }
  }

  /** What a throwing call hands back: its value, or the error it threw. */
  datatype Result<+T, +E> = Success(value: T) | Failure(error: E)
}
