/** How Node.js turns the delay passed to `setTimeout` into the delay it
    actually waits: a delay that is not a number in [1, 2^31 - 1]
    milliseconds (NaN included) becomes 1 millisecond. */
module NodeTimers {
  import opened Common

  const TimeoutMax: int := 0x7FFF_FFFF

  /** The effective delay for a numeric request of `ms` milliseconds. */
  function TimerDelay(ms: int): (d: nat)
    ensures 1 <= d <= TimeoutMax
    ensures 1 <= ms <= TimeoutMax ==> d == ms
    ensures !(1 <= ms <= TimeoutMax) ==> d == 1
  {
    if 1 <= ms <= TimeoutMax then ms else 1
  }

  /** The effective delay of `setTimeout(f, v * 1000)` for a delay setting
      `v`; `"none" * 1000` is NaN. */
  function SecondsDelay(v: DelayValue): (d: nat)
    ensures 1 <= d <= TimeoutMax
    ensures v.Seconds? && 1 <= v.n <= 3600 ==> d == v.n * 1000
  {
    match v
    case NoneLiteral => 1  // NaN delay
    case Seconds(n) => TimerDelay(n * 1000)
  }
}
