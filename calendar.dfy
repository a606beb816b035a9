/**
 * Calendar days as integers. Day 0 is 1 January 1970, a Thursday; days and
 * instants are taken in UTC (the browser's local time zone is not modelled).
 */
module Calendar {

  type Day = int

  const MillisPerDay: int := 86_400_000

  /** `date.getDay()`: 0 is Sunday, 6 is Saturday. */
  function Weekday(d: Day): (w: int)
    ensures 0 <= w < 7
  {
    (d + 4) % 7
  }

  /** The instant, in milliseconds, at which day d begins (the Date a calendar hands out). */
  function Midnight(d: Day): int {
    d * MillisPerDay
  }

  /** The day that contains the instant t. */
  function DayOf(t: int): Day {
    t / MillisPerDay
  }

  /** An instant lies inside the day that contains it. */
  lemma DayOfBounds(t: int)
    ensures Midnight(DayOf(t)) <= t < Midnight(DayOf(t) + 1)
  {
  }
}
