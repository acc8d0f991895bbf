/** Small definitions that several modules share. */
module Basics {

  datatype Option<+T> = None | Some(value: T)

  function Bit(b: bool): nat {
    if b then 1 else 0
  }

  /** How many of the stored files `read_n_files` must send: all of them when `n` is not positive. */
  function HowMany(n: int, stored: nat): nat {
    if n <= 0 || n > stored then stored else n
  }
}
