/** When the daily search is due. Instants are microseconds since the epoch in UTC; `offset` is the zone's fixed
    distance from UTC. */
module Schedule {
  import opened Prelude

  const MINUTE := 60_000_000
  const HOUR := 60 * MINUTE
  const DAY := 24 * HOUR

  /** HH:MM once split and read as numbers. */
  function ParseDailyTime(hour: int, minute: int): Option<int> {
    if 0 <= hour <= 23 && 0 <= minute <= 59 then Some(hour * HOUR + minute * MINUTE) else None
  }

  /** Every whole minute of the day can be configured, and as nothing but its own hour and minute. */
  lemma EveryMinuteParses(hour: int, minute: int, time: int)
    requires 0 <= time < DAY && time % MINUTE == 0
    ensures ParseDailyTime(hour, minute) == Some(time) <==> hour == time / HOUR && minute == time % HOUR / MINUTE
  {
    var m := time / MINUTE;
    assert time == m * MINUTE && 0 <= m < 1440;
    assert time / HOUR == m / 60 && time % HOUR == m % 60 * MINUTE;
  }

  /** `replace(hour, minute, second=0, microsecond=0)` on a local clock. */
  function AtTime(local: int, time: int): int {
    local - local % DAY + time
  }

  function UtcCron(time: int, offset: int, now: int): (int, int) {
    var run := AtTime(now + offset, time) - offset;
    (run % DAY / HOUR, run % HOUR / MINUTE)
  }

  function NextRun(time: int, offset: int, now: int): int {
    var current := now + offset;
    var candidate := AtTime(current, time);
    (if candidate <= current then candidate + DAY else candidate) - offset
  }

  /** The local clock shows the configured time, to the microsecond. */
  predicate Due(time: int, offset: int, instant: int) {
    (instant + offset) % DAY == time
  }

  /** The next run is the earliest due instant strictly after now, at most a day away. */
  lemma NextRunIsEarliest(time: int, offset: int, now: int, other: int)
    requires 0 <= time < DAY
    ensures Due(time, offset, NextRun(time, offset, now))
    ensures now < NextRun(time, offset, now) <= now + DAY
    ensures Due(time, offset, other) && other > now ==> other >= NextRun(time, offset, now)
  {
    var run := NextRun(time, offset, now);
    assert (run + offset) % DAY == time by {
      var start := (now + offset) / DAY;
      assert run + offset == start * DAY + time || run + offset == (start + 1) * DAY + time;
    }
    if Due(time, offset, other) && other < run {
      SameRemainder(other + offset, run + offset);
    }
  }

  lemma SameRemainder(a: int, b: int)
    requires a % DAY == b % DAY && a < b
    ensures a + DAY <= b
  {
    assert a == a / DAY * DAY + a % DAY && b == b / DAY * DAY + b % DAY;
  }

  /** The worker's UTC cron, computed at whatever moment the worker starts, fires at the next due instant exactly
      when the zone's offset is a whole number of minutes. */
  lemma CronFiresWhenDueIff(hour: int, minute: int, offset: int, started: int, now: int)
    requires ParseDailyTime(hour, minute).Some?
    ensures var time := ParseDailyTime(hour, minute).value;
            var (h, m) := UtcCron(time, offset, started);
            0 <= h <= 23 && 0 <= m <= 59
            && (NextRun(time, offset, now) % DAY == h * HOUR + m * MINUTE <==> offset % MINUTE == 0)
  {
    var time := ParseDailyTime(hour, minute).value;
    var a := AtTime(started + offset, time) - offset;
    var b := NextRun(time, offset, now);
    SameTimeOfDay(time, offset, a, (started + offset) / DAY);
    NextRunIsEarliest(time, offset, now, now);
    SameTimeOfDay(time, offset, b, (b + offset) / DAY);
    WholeMinutes(a, time, offset, (started + offset) / DAY);
  }

  lemma SameTimeOfDay(time: int, offset: int, instant: int, days: int)
    requires 0 <= time < DAY && instant + offset == days * DAY + time
    ensures instant % DAY == (time - offset) % DAY
  {
    var q := (time - offset) / DAY;
    assert time - offset == q * DAY + (time - offset) % DAY;
    assert instant == (days + q) * DAY + (time - offset) % DAY;
  }

  lemma HourInDay(x: int)
    ensures x % HOUR == x % DAY % HOUR
  {
    HourRemainder(x, x / DAY * 24 + x % DAY / HOUR, x % DAY % HOUR);
  }

  lemma HourRemainder(x: int, hours: int, rest: int)
    requires x == hours * HOUR + rest && 0 <= rest < HOUR
    ensures x % HOUR == rest
  {
  }

  lemma MinuteInHour(x: int)
    ensures x % MINUTE == x % HOUR % MINUTE
  {
    MinuteRemainder(x, x / HOUR * 60 + x % HOUR / MINUTE, x % HOUR % MINUTE);
  }

  lemma MinuteRemainder(x: int, minutes: int, rest: int)
    requires x == minutes * MINUTE + rest && 0 <= rest < MINUTE
    ensures x % MINUTE == rest
  {
  }

  lemma MinutesOfSum(a: int, b: int, k: int)
    requires a + b == k * MINUTE
    ensures a % MINUTE == 0 <==> b % MINUTE == 0
  {
    if a % MINUTE == 0 { assert b == (k - a / MINUTE) * MINUTE; }
    if b % MINUTE == 0 { assert a == (k - b / MINUTE) * MINUTE; }
  }

  lemma WholeMinutes(instant: int, time: int, offset: int, days: int)
    requires time % MINUTE == 0 && instant + offset == days * DAY + time
    ensures instant % DAY == instant % DAY / HOUR * HOUR + instant % HOUR / MINUTE * MINUTE <==> offset % MINUTE == 0
  {
    HourInDay(instant);
    MinuteInHour(instant);
    MinutesOfSum(instant, offset, days * 1440 + time / MINUTE);
  }
}
