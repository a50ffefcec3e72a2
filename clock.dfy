/** Instants in the agent's time zone. An instant is a count of minutes of wall-clock time
    in one fixed-offset zone (minute 0 is 1970-01-01 00:00, a Thursday); `aware` records
    whether the Python `datetime` it stands for carries a time zone. */
module Clock {

  const MinutesPerHour: int := 60
  const MinutesPerDay: int := 24 * MinutesPerHour

  datatype DateTime = DateTime(minutes: int, aware: bool)

  /** The calendar day of an instant, counted from the epoch (`dt.date()`). */
  function DayOf(t: int): int {
    t / MinutesPerDay
  }

  /** 00:00 of the instant's day. */
  function DayStart(t: int): (r: int)
    ensures r <= t < r + MinutesPerDay
    ensures DayOf(r) == DayOf(t)
  {
    DayOf(t) * MinutesPerDay
  }

  /** Minutes since 00:00 of the instant's day (`dt.time()`). */
  function TimeOfDay(t: int): (r: int)
    ensures 0 <= r < MinutesPerDay
    ensures t == DayStart(t) + r
  {
    t % MinutesPerDay
  }

  /** `tz.localize(dt)` in a fixed-offset zone: the wall-clock time is kept, the zone attached. */
  function Localize(dt: DateTime): (r: DateTime)
    ensures r.aware
    ensures r.minutes == dt.minutes
    ensures dt.aware ==> r == dt
  {
    if dt.aware then dt else DateTime(dt.minutes, true)
  }

  lemma DayOfShift(t: int, days: int)
    ensures DayOf(t + days * MinutesPerDay) == DayOf(t) + days
  {
  }
}
