/** What the models share: bytes, and how a system call can answer. */
module Kernel {

  newtype byte = x: int | 0 <= x < 256

  datatype Option<T> = None | Some(value: T)

  /** How the kernel answers a `read` or a `write`. */
  datatype Io = Fail | Count(n: nat)
}
