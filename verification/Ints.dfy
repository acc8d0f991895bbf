/** The 32-bit `int` in which `readn` reports how much it read. */
module Ints {

  const TWO_31 := 0x8000_0000
  const TWO_32 := 0x1_0000_0000

  /** The `int` that the low 32 bits of a number stand for. */
  function Int(n: nat): int {
    if n % TWO_32 >= TWO_31 then n % TWO_32 - TWO_32 else n % TWO_32
  }

  /**
    `readn` returns its `size_t` argument as an `int`, and its callers take 0 for
    a closed connection and -1 for a failure: for other sizes than these a
    complete read is recognised as one.
   */
  predicate Readable(size: nat) {
    Int(size) != 0 && Int(size) != -1
  }
}
