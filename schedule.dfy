// When the weekly auto-reset first runs: the next Sunday 23:59:00.000000,
// strictly after the moment the bot becomes ready.
//
// Time is an integer count of microseconds (the resolution of the source's
// datetime values) on the clock of the bot's time zone, counted from a
// Monday 00:00:00; so the day number is `t / Day`, the weekday is
// `(t / Day) % 7` (Monday 0 ... Sunday 6) and the time of day is `t % Day`.
// Dafny's `/` and `%` by a positive constant round toward negative infinity,
// as Python's do, so instants before the epoch behave like later ones.

module Schedule {

  const Second: int := 1_000_000
  const Minute: int := 60 * Second
  const Hour: int := 60 * Minute
  const Day: int := 24 * Hour
  const Week: int := 7 * Day

  /** `datetime.weekday()`: Monday is 0, Sunday is 6. */
  const Sunday: int := 6

  /** The reset's time of day, 23:59:00.000000. */
  const ResetTimeOfDay: int := 23 * Hour + 59 * Minute

  function Weekday(t: int): int
  {
    (t / Day) % 7
  }

  function TimeOfDay(t: int): int
  {
    t % Day
  }

  /** An instant at which the weekly reset is meant to run. */
  ghost predicate IsResetInstant(t: int)
  {
    Weekday(t) == Sunday && TimeOfDay(t) == ResetTimeOfDay
  }

  /**
   * `before_weekly_auto_reset`: move ahead `(6 - weekday) % 7` days, set the
   * time of day to 23:59:00.000000, and add 7 days if that is not after `now`.
   */
  function NextRun(now: int): (next: int)
    ensures IsResetInstant(next)
    ensures now < next <= now + Week
  {
    var day := now / Day;
    var daysUntilSunday := (Sunday - Weekday(now)) % 7;
    var candidate := (day + daysUntilSunday) * Day + ResetTimeOfDay;
    assert daysUntilSunday == Sunday - day % 7;
    assert (day + daysUntilSunday) % 7 == Sunday by {
      assert day + daysUntilSunday == (day / 7) * 7 + Sunday;
    }
    AtTimeOfDay(day + daysUntilSunday, ResetTimeOfDay);
    AtTimeOfDay(day + daysUntilSunday + 7, ResetTimeOfDay);
    if candidate <= now then candidate + Week else candidate
  }

  /** The instant `tod` into day number `day` lies on that day at that time. */
  lemma AtTimeOfDay(day: int, tod: int)
    requires 0 <= tod < Day
    ensures (day * Day + tod) / Day == day
    ensures TimeOfDay(day * Day + tod) == tod
  {
  }

  /** Reset instants are exactly the instants a fixed offset into their week. */
  lemma ResetInstantOffset(t: int)
    ensures IsResetInstant(t) <==> t % Week == Sunday * Day + ResetTimeOfDay
  {
    var day := t / Day;
    assert t == day * Day + TimeOfDay(t);
    assert day == (day / 7) * 7 + Weekday(t);
    assert t == (day / 7) * Week + Weekday(t) * Day + TimeOfDay(t);
    if t % Week == Sunday * Day + ResetTimeOfDay {
      var w := t / Week;
      assert t == w * Week + Sunday * Day + ResetTimeOfDay;
      assert t == (w * 7 + Sunday) * Day + ResetTimeOfDay;
      assert t / Day == w * 7 + Sunday;
    }
  }

  /** Two reset instants are a whole number of weeks apart. */
  lemma ResetInstantsWeeksApart(s: int, t: int)
    requires IsResetInstant(s) && IsResetInstant(t) && s < t
    ensures s + Week <= t
  {
    ResetInstantOffset(s);
    ResetInstantOffset(t);
    var a, b := s / Week, t / Week;
    assert s == a * Week + Sunday * Day + ResetTimeOfDay;
    assert t == b * Week + Sunday * Day + ResetTimeOfDay;
    assert t - s == (b - a) * Week;
  }

  /** No reset instant lies strictly between `now` and `NextRun(now)`. */
  lemma NextRunIsEarliest(now: int, t: int)
    requires now < t < NextRun(now)
    ensures !IsResetInstant(t)
  {
    var next := NextRun(now);
    assert next - Week <= now;
    if IsResetInstant(t) {
      ResetInstantsWeeksApart(t, next);
    }
  }

  /** A `now` exactly at a reset instant is pushed a full week later. */
  lemma NextRunOnResetInstant(now: int)
    requires IsResetInstant(now)
    ensures NextRun(now) == now + Week
  {
    ResetInstantsWeeksApart(now, NextRun(now));
  }
}
