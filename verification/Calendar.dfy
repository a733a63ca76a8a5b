/** Reset instants in a fixed-offset zone (nextDailyReset and nextWeeklyReset in delegator/budget/tracker.go). */
module Calendar {
  import opened BudgetTypes

  // Instants are nanoseconds since 1970-01-01T00:00:00Z, a Thursday.
  const HOUR: int := 3_600_000_000_000
  const DAY: int := 86_400_000_000_000
  const WEEK: int := 604_800_000_000_000
  const EPOCH_WEEKDAY: int := 4

  /** The configured zone offset, reset hour and reset day (0 is Sunday). */
  datatype Zone = Zone(offset: int, hour: int, weekday: int)
  {
    predicate Valid() {
      0 <= hour <= 23 && 0 <= weekday <= 6
    }
  }

  // The local calendar day an instant falls on, and the instant of the reset hour on a given day.
  function LocalDay(z: Zone, t: int): int {
    (t + z.offset) / DAY
  }

  function ResetHourOn(z: Zone, day: int): int {
    day * DAY + z.hour * HOUR - z.offset
  }

  function Weekday(day: int): int {
    (day + EPOCH_WEEKDAY) % 7
  }

  function NextDailyReset(z: Zone, now: int): int {
    var today := ResetHourOn(z, LocalDay(z, now));
    if now < today then today else today + DAY
  }

  function NextWeeklyReset(z: Zone, now: int): int {
    var day := LocalDay(z, now);
    var ahead := z.weekday - Weekday(day);
    var daysUntil := if ahead < 0 then ahead + 7 else ahead;
    var candidate := ResetHourOn(z, day) + daysUntil * DAY;
    if now < candidate then candidate else candidate + 7 * DAY
  }

  // ---- what the instants are for ----

  // Whole days of 86,400 seconds from the reset hour of the first day.
  ghost predicate IsDailyReset(z: Zone, t: int) {
    (t + z.offset - z.hour * 3_600_000_000_000) % 86_400_000_000_000 == 0
  }

  // Whole weeks from the reset hour of the reset day of the week that starts with Sunday, 4 January 1970.
  ghost predicate IsWeeklyReset(z: Zone, t: int) {
    (t + z.offset - 259_200_000_000_000 - z.weekday * 86_400_000_000_000 - z.hour * 3_600_000_000_000)
    % 604_800_000_000_000 == 0
  }

  lemma {:induction false} ResetHourFallsOnItsDay(z: Zone, day: int)
    requires z.Valid()
    ensures IsDailyReset(z, ResetHourOn(z, day)) && LocalDay(z, ResetHourOn(z, day)) == day
  {
  }

  lemma {:induction false} DailyResetIsSomeResetHour(z: Zone, t: int)
    requires z.Valid() && IsDailyReset(z, t)
    ensures t == ResetHourOn(z, LocalDay(z, t))
  {
  }

  // The weekly resets are the daily ones that fall on the reset day.
  lemma {:induction false} WeeklyResetIsDailyOnItsDay(z: Zone, t: int)
    requires z.Valid()
    ensures IsWeeklyReset(z, t) <==> IsDailyReset(z, t) && Weekday(LocalDay(z, t)) == z.weekday
  {
    var past := t + z.offset - z.hour * HOUR;
    var days := past / DAY;
    assert past == days * DAY + past % DAY;
    assert past - (3 + z.weekday) * DAY == (days - 3 - z.weekday) * DAY + past % DAY;
    WeeksOfDays(days - 3 - z.weekday, past % DAY);
    if past % DAY == 0 {
      assert t == ResetHourOn(z, days);
      ResetHourFallsOnItsDay(z, days);
      assert (days - 3 - z.weekday) % 7 == 0 <==> (days + 4) % 7 == z.weekday;
    }
  }

  lemma {:induction false} WeeksOfDays(days: int, rest: int)
    requires 0 <= rest < DAY
    ensures (days * DAY + rest) % WEEK == 0 <==> rest == 0 && days % 7 == 0
  {
  }

  // The next daily reset is the first instant after now at which the clock shows the reset hour, at most a day ahead.
  lemma {:induction false} NextDailyIsLeast(z: Zone, now: int)
    requires z.Valid()
    ensures IsDailyReset(z, NextDailyReset(z, now))
    ensures now < NextDailyReset(z, now) <= now + DAY
    ensures forall t :: IsDailyReset(z, t) && now < t ==> NextDailyReset(z, now) <= t
  {
    var day := LocalDay(z, now);
    ResetHourFallsOnItsDay(z, day);
    ResetHourFallsOnItsDay(z, day + 1);
    forall t | IsDailyReset(z, t) && now < t
      ensures NextDailyReset(z, now) <= t
    {
      DailyResetIsSomeResetHour(z, t);
      assert LocalDay(z, t) >= day;
    }
  }

  // The next weekly reset is the reset hour of a reset day, and that of a week earlier is past.
  lemma {:induction false} NextWeeklyDay(z: Zone, now: int) returns (d: int)
    requires z.Valid()
    ensures NextWeeklyReset(z, now) == ResetHourOn(z, d) && Weekday(d) == z.weekday
    ensures ResetHourOn(z, d - 7) <= now < ResetHourOn(z, d)
  {
    var day := LocalDay(z, now);
    var ahead := z.weekday - Weekday(day);
    d := day + if ahead < 0 then ahead + 7 else ahead;
    assert Weekday(d) == z.weekday;
    assert ResetHourOn(z, d) == ResetHourOn(z, day) + (d - day) * DAY;
    if ResetHourOn(z, d) <= now {
      d := d + 7;
    }
  }

  // The next weekly reset is the first such instant that also falls on the reset day, at most a week ahead.
  lemma {:induction false} NextWeeklyIsLeast(z: Zone, now: int)
    requires z.Valid()
    ensures IsWeeklyReset(z, NextWeeklyReset(z, now))
    ensures now < NextWeeklyReset(z, now) <= now + WEEK
    ensures forall t :: IsWeeklyReset(z, t) && now < t ==> NextWeeklyReset(z, now) <= t
  {
    var d := NextWeeklyDay(z, now);
    ResetHourFallsOnItsDay(z, d);
    WeeklyResetIsDailyOnItsDay(z, ResetHourOn(z, d));
    forall t | IsWeeklyReset(z, t) && now < t
      ensures ResetHourOn(z, d) <= t
    {
      WeeklyResetIsDailyOnItsDay(z, t);
      DailyResetIsSomeResetHour(z, t);
      WeekdaysRecur(LocalDay(z, t), d);
      WeeksApart(z, LocalDay(z, t), d);
    }
  }

  lemma {:induction false} WeeksApart(z: Zone, e: int, d: int)
    requires (d - e) % 7 == 0 && ResetHourOn(z, d - 7) < ResetHourOn(z, e)
    ensures ResetHourOn(z, d) <= ResetHourOn(z, e)
  {
    assert d - 7 < e;
  }

  lemma {:induction false} WeekdaysRecur(a: int, b: int)
    ensures Weekday(a) == Weekday(b) <==> (b - a) % 7 == 0
  {
  }

  lemma {:induction false} NextResetsAreMonotone(z: Zone, t: int, u: int)
    requires z.Valid() && t <= u
    ensures NextDailyReset(z, t) <= NextDailyReset(z, u)
    ensures NextWeeklyReset(z, t) <= NextWeeklyReset(z, u)
  {
    NextDailyIsLeast(z, t);
    NextDailyIsLeast(z, u);
    NextWeeklyIsLeast(z, t);
    NextWeeklyIsLeast(z, u);
  }

  // ---- either dimension ----

  function NextReset(z: Zone, dim: Dimension, now: int): int {
    if dim == Daily then NextDailyReset(z, now) else NextWeeklyReset(z, now)
  }

  ghost predicate IsReset(z: Zone, dim: Dimension, t: int) {
    if dim == Daily then IsDailyReset(z, t) else IsWeeklyReset(z, t)
  }

  lemma {:induction false} NextResetIsLeast(z: Zone, dim: Dimension, now: int)
    requires z.Valid()
    ensures IsReset(z, dim, NextReset(z, dim, now)) && now < NextReset(z, dim, now)
    ensures forall t :: IsReset(z, dim, t) && now < t ==> NextReset(z, dim, now) <= t
  {
    NextDailyIsLeast(z, now);
    NextWeeklyIsLeast(z, now);
  }

  // Two clock readings have different next resets exactly when a boundary lies after the one and not after the other.
  lemma {:induction false} NextResetsDifferIff(z: Zone, dim: Dimension, r: int, s: int)
    requires z.Valid()
    ensures NextReset(z, dim, r) < NextReset(z, dim, s) <==> exists b :: IsReset(z, dim, b) && r < b <= s
  {
    NextResetIsLeast(z, dim, r);
    NextResetIsLeast(z, dim, s);
    if NextReset(z, dim, r) < NextReset(z, dim, s) {
      assert IsReset(z, dim, NextReset(z, dim, r));
    }
  }
}
