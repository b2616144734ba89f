/**
 * Time as the model sees it: instants and durations are integers counting
 * microseconds, the resolution of Python's `datetime` and `timedelta`.
 */
module Time {
  const MicrosPerDay: int := 86_400_000_000

  /** The duration `timedelta(days = n)`. */
  function Days(n: int): int
  {
    n * MicrosPerDay
  }

  /**
   * The `days` attribute of a `timedelta`: whole days, rounded towards minus
   * infinity (a `timedelta` keeps 0 <= seconds < 86400, so `days` is the floor).
   */
  function WholeDays(d: int): int
  {
    d / MicrosPerDay
  }

  /** Comparing floored whole days with `n` is comparing the duration with n days, inclusively. */
  lemma WholeDaysAtLeast(d: int, n: int)
    ensures WholeDays(d) >= n <==> d >= Days(n)
  {
  }
}
