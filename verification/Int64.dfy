/** The integer ranges that the C++ sources rely on. */
module Int64 {
  const INT64_MAX: int := 0x7FFF_FFFF_FFFF_FFFF
  const INT64_MIN: int := -0x8000_0000_0000_0000
  const UINT64_SPAN: int := 0x1_0000_0000_0000_0000

  const NANOS_PER_MICRO: int := 1000

  /** `INT64_MAX / 1000`; the C++ quotient `INT64_MIN / 1000` truncates toward zero, so both
      bounds have the same magnitude. */
  const MAX_ALARM_US: int := INT64_MAX / NANOS_PER_MICRO
  const MIN_ALARM_US: int := -((-INT64_MIN) / NANOS_PER_MICRO)

  predicate IsInt64(x: int) {
    INT64_MIN <= x <= INT64_MAX
  }

  function Max(a: int, b: int): int {
    if a < b then b else a
  }

  /** The alarm bounds are exact: a deadline in microseconds is accepted if and only if its
      nanoseconds fit in 64 bits. */
  lemma AlarmBoundsAreExact(us: int)
    ensures MIN_ALARM_US <= us <= MAX_ALARM_US <==> IsInt64(us * NANOS_PER_MICRO)
  {
  }
}
