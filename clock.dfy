/** Wall-clock arithmetic. An instant is a whole number of seconds counted
    from a local Monday midnight, so that the date, the time of day and the
    weekday of `datetime.now()` are all functions of one integer. */
module Clock {

  const SecondsPerDay: int := 86400

  /** A time of day (Python's `datetime.time`), in seconds after midnight. */
  type TimeOfDay = t: int | 0 <= t < 86400

  /** `dt_time(h, m)` */
  function HM(h: int, m: int): int { h * 3600 + m * 60 }

  /** `now.time()` */
  function TimeOf(t: int): (tod: TimeOfDay)
    ensures DayStart(t) + tod == t
  {
    t % SecondsPerDay
  }

  /** `datetime.combine(now.date(), time(0, 0))`: the midnight that starts the day of `t`. */
  function DayStart(t: int): (d: int)
    ensures d <= t < d + SecondsPerDay
    ensures d % SecondsPerDay == 0
  {
    t - t % SecondsPerDay
  }

  /** Python's `weekday()`: 0 = Monday, ..., 6 = Sunday. */
  function Weekday(t: int): (d: int)
    ensures 0 <= d < 7
  {
    (t / SecondsPerDay) % 7
  }

  /** Python's `isoweekday()`: 1 = Monday, ..., 7 = Sunday. */
  function IsoWeekday(t: int): (d: int)
    ensures 1 <= d <= 7
  {
    Weekday(t) + 1
  }

  /** `time.hour` */
  function Hour(tod: TimeOfDay): (h: int)
    ensures 0 <= h < 24
  {
    tod / 3600
  }

  /** `time.minute` */
  function Minute(tod: TimeOfDay): (m: int)
    ensures 0 <= m < 60
  {
    (tod % 3600) / 60
  }

  /** The hour and minute of a time of day give it back, up to its seconds. */
  lemma HourMinuteSplit(tod: TimeOfDay)
    ensures HM(Hour(tod), Minute(tod)) <= tod < HM(Hour(tod), Minute(tod)) + 60
  {
  }
}
