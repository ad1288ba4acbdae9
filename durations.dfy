/**
 * src/lib/utils.ts: `formatDuration`, minutes as hours and minutes.
 */
module Durations {
  import opened Text

  /** JavaScript's `a % b`: the remainder takes the sign of the dividend. */
  function JsRemainder(a: int, b: int): (r: int)
    requires b > 0
    ensures a >= 0 ==> 0 <= r < b
    ensures a < 0 ==> -b < r <= 0
  {
    if a >= 0 then a % b else -((-a) % b)
  }

  datatype DurationParts = DurationParts(hours: int, mins: int)

  /** `Math.floor(minutes / 60)` and `minutes % 60`. */
  function SplitDuration(minutes: int): (p: DurationParts)
    ensures minutes >= 0 ==> p.hours >= 0 && 0 <= p.mins < 60 && p.hours * 60 + p.mins == minutes
    ensures minutes < 0 ==> p.hours < 0 && -60 < p.mins <= 0
  {
    DurationParts(minutes / 60, JsRemainder(minutes, 60))
  }

  /**
   * `formatDuration(minutes)` for a whole number of minutes: under an hour
   * the minutes only, whole hours the hours only.
   */
  function FormatDuration(minutes: int): (r: string)
    ensures 0 <= minutes < 60 ==> r == NatToString(minutes) + " min"
    ensures minutes >= 60 && minutes % 60 == 0 ==> r == NatToString(minutes / 60) + " hr"
  {
    var p := SplitDuration(minutes);
    if p.hours == 0 then IntToString(p.mins) + " min"
    else if p.mins == 0 then IntToString(p.hours) + " hr"
    else IntToString(p.hours) + " hr " + IntToString(p.mins) + " min"
  }

  /** Otherwise both, with the minutes between 1 and 59 and the parts adding back up to the input. */
  lemma HoursAndMinutes(minutes: int)
    requires minutes >= 60 && minutes % 60 != 0
    ensures exists h: nat, m: nat ::
              1 <= h && 1 <= m <= 59 && h * 60 + m == minutes &&
              FormatDuration(minutes) == NatToString(h) + " hr " + NatToString(m) + " min"
  {
    var p := SplitDuration(minutes);
    assert p.hours >= 1 && p.mins >= 1;
    var h: nat, m: nat := p.hours, p.mins;
    assert FormatDuration(minutes) == NatToString(h) + " hr " + NatToString(m) + " min";
  }

  /**
   * A negative input is floored for the hours but truncated for the minutes:
   * -30 minutes reads as "-1 hr -30 min".
   */
  lemma NegativeInput()
    ensures FormatDuration(-30) == "-1 hr -30 min"
  {
    assert SplitDuration(-30) == DurationParts(-1, -30);
    assert NatToString(1) == "1";
    assert NatToString(30) == NatToString(3) + [DigitChar(0)];
  }
}
