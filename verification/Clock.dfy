/** Clock readings are nanoseconds; database rows hold milliseconds (Go's Time.UnixMilli rounds down). */
module Clock {

  function Millis(t: int): (ms: int)
    ensures ms * 1_000_000 <= t < (ms + 1) * 1_000_000
  {
    t / 1_000_000
  }

  lemma MillisMonotone(a: int, b: int)
    requires a <= b
    ensures Millis(a) <= Millis(b)
  {
  }
}
