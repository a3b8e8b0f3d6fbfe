/** Small failure-compatible helper types shared by every module. */
module Wrappers {

  /** Rust's `Option<T>`. */
  datatype Option<+T> = None | Some(value: T)

  /**
   * `anyhow::Result<T>`: either a value or an opaque error that only carries
   * its message (the context chain and backtrace are not modelled).
   */
  datatype AnyhowResult<+T> = Done(value: T) | Failed(message: string)
}
