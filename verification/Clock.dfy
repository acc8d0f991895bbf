/** Clock readings and the two replacement orders of src/server/replacement.c. */
module Clock {

  /** A `struct timespec`. */
  datatype Time = Time(sec: int, nsec: int)

  /** The server's replacement policy (`policy_t`). */
  datatype Policy = LRU | FIFO

  /** `timespec_cmp`: 1, 0 or -1 as `a` is later than, equal to or earlier than `b`. */
  function Compare(a: Time, b: Time): int {
    if a.sec > b.sec then 1
    else if a.sec < b.sec then -1
    else if a.nsec > b.nsec then 1
    else if a.nsec < b.nsec then -1
    else 0
  }

  predicate Earlier(a: Time, b: Time) {
    Compare(a, b) < 0
  }

  /** What every reading of a clock satisfies. */
  predicate Proper(t: Time) {
    0 <= t.nsec < 1_000_000_000
  }

  /** The instant a reading stands for, in nanoseconds. */
  function Nanos(t: Time): int {
    t.sec * 1_000_000_000 + t.nsec
  }

  /** Readings compare as the instants they stand for. */
  lemma ComparesInstants(a: Time, b: Time)
    requires Proper(a) && Proper(b)
    ensures Earlier(a, b) <==> Nanos(a) < Nanos(b)
    ensures Compare(a, b) == 0 <==> Nanos(a) == Nanos(b)
    ensures Compare(a, b) == 0 <==> a == b
  {
    if a.sec < b.sec {
      assert a.sec + 1 <= b.sec;
    } else if b.sec < a.sec {
      assert b.sec + 1 <= a.sec;
    }
  }
}
