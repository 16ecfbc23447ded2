/** Millisecond arithmetic shared by the countdowns and the day counter. */
module Millis {
  const DayMs := 86400000
  const HourMs := 3600000
  const MinuteMs := 60000

  /** The remainder within the hour is the same whether or not whole days were removed first. */
  lemma HourRemainder(x: nat)
    ensures (x % DayMs) % HourMs == x % HourMs
  {
    var q := x / DayMs;
    assert x == DayMs * q + x % DayMs;
    assert x % DayMs == x - HourMs * (24 * q);
  }

  /** Likewise for the remainder within the minute after removing whole hours. */
  lemma MinuteRemainder(x: nat)
    ensures (x % HourMs) % MinuteMs == x % MinuteMs
  {
    var q := x / HourMs;
    assert x == HourMs * q + x % HourMs;
    assert x % HourMs == x - MinuteMs * (60 * q);
  }
}
