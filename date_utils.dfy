/**
 * lib/utils.ts: `daysUntil` and `isOverdue` on millisecond timestamps, with
 * the current time passed in.
 */
module DateUtils {

  const MsPerDay: int := 1000 * 60 * 60 * 24

  /** `Math.ceil(a / d)` for a positive divisor. */
  function CeilDiv(a: int, d: int): (q: int)
    requires d > 0
    ensures (q - 1) * d < a <= q * d
  {
    -((-a) / d)
  }

  /** `daysUntil(date)` at time `now`: whole days up to the date, rounded up. */
  function DaysUntil(dateMs: int, nowMs: int): (days: int)
    ensures (days - 1) * MsPerDay < dateMs - nowMs <= days * MsPerDay
  {
    CeilDiv(dateMs - nowMs, MsPerDay)
  }

  /** `isOverdue(date)` at time `now`. */
  function IsOverdue(dateMs: int, nowMs: int): (overdue: bool)
    ensures overdue <==> dateMs <= nowMs - MsPerDay
  {
    var d := DaysUntil(dateMs, nowMs);
    assert d < 0 ==> d * MsPerDay <= -MsPerDay;
    d < 0
  }

  /** Today is zero days away, and later dates are never fewer days away. */
  lemma DaysUntilMonotone(a: int, b: int, nowMs: int)
    ensures DaysUntil(nowMs, nowMs) == 0
    ensures a <= b ==> DaysUntil(a, nowMs) <= DaysUntil(b, nowMs)
  {
  }
}
