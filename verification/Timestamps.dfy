/** UTC timestamps as the aggregation tasks see them, with a calendar date, and
    the windows they pick from them field by field. */
module Timestamps {
  import opened Dates
  import opened Windows

  datatype Stamp = Stamp(date: Date, hour: int, minute: int, second: int, micro: int)

  type DateTime = s: Stamp |
    Valid(s.date) && 0 <= s.hour < 24 && 0 <= s.minute < 60 && 0 <= s.second < 60 && 0 <= s.micro < 1_000_000
    witness Stamp(Date(1, 1, 1), 0, 0, 0, 0)

  function ByDay(s: DateTime): Counted {
    Fields(Ordinal(s.date), s.hour, s.minute, s.second, s.micro)
  }

  function Dated(c: Counted): DateTime
    requires c.day >= 1
  {
    Stamp(DateOf(c.day), c.hour, c.minute, c.second, c.micro)
  }

  /** Microseconds on a scale on which day 1 of the calendar begins at DAY. */
  function Moment(s: DateTime): Time {
    Instant(ByDay(s))
  }

  /** The fields of a moment; there are none before year 1. */
  function Reading(t: Time): DateTime
    requires t >= DAY
  {
    DayOne(t);
    Dated(Calendar(t))
  }

  lemma DayOne(t: Time)
    requires t >= DAY
    ensures Calendar(t).day >= 1
  {
  }

  /** Adding a timedelta. */
  function Shift(s: DateTime, delta: Time): DateTime
    requires Moment(s) + delta >= DAY
  {
    Reading(Moment(s) + delta)
  }

  /** Not on the very first day, before which there are no dates. */
  predicate Datable(s: DateTime) {
    Ordinal(s.date) >= 2
  }

  /** period_start of the three tasks. */
  function PeriodStart(p: Period, now: DateTime): DateTime
    requires Datable(now)
  {
    Enough(now);
    match p
    case FiveMin =>
      var floored: DateTime := now.(minute := now.minute / 5 * 5, second := 0, micro := 0);
      Enough(floored);
      Shift(floored, -5 * MINUTE)
    case Hourly =>
      var floored: DateTime := now.(minute := 0, second := 0, micro := 0);
      Enough(floored);
      Shift(floored, -HOUR)
    case Daily =>
      var yesterday := Shift(now, -DAY);
      yesterday.(hour := 0, minute := 0, second := 0, micro := 0)
  }

  lemma Enough(s: DateTime)
    requires Datable(s)
    ensures Moment(s) - DAY >= DAY
  {
    InstantInDays(ByDay(s));
  }

  lemma CountDated(c: Counted)
    requires c.day >= 1
    ensures ByDay(Dated(c)) == c
  {
  }

  lemma CountReading(t: Time)
    requires t >= DAY
    ensures ByDay(Reading(t)) == Calendar(t)
  {
    DayOne(t);
    CountDated(Calendar(t));
  }

  /** A moment is given back by its fields. */
  lemma ReadingInverse(t: Time)
    requires t >= DAY
    ensures Moment(Reading(t)) == t
  {
    CountReading(t);
    CalendarInverse(t);
  }

  /** Every date and time is the reading of its moment. */
  lemma MomentInverse(s: DateTime)
    ensures Moment(s) >= DAY && Reading(Moment(s)) == s
  {
    DateOfOrdinal(s.date);
    InstantInDays(ByDay(s));
    InstantInverse(ByDay(s));
  }

  lemma ShiftIsCounted(s: DateTime, delta: Time)
    requires Moment(s) + delta >= DAY
    ensures ByDay(Shift(s, delta)) == Plus(ByDay(s), delta)
  {
    CountReading(Moment(s) + delta);
  }

  lemma FiveMinIsCounted(now: DateTime)
    requires Datable(now)
    ensures ByDay(PeriodStart(FiveMin, now)) == CountedStart(FiveMin, ByDay(now))
  {
    var floored: DateTime := now.(minute := now.minute / 5 * 5, second := 0, micro := 0);
    Enough(floored);
    ShiftIsCounted(floored, -5 * MINUTE);
  }

  lemma HourlyIsCounted(now: DateTime)
    requires Datable(now)
    ensures ByDay(PeriodStart(Hourly, now)) == CountedStart(Hourly, ByDay(now))
  {
    var floored: DateTime := now.(minute := 0, second := 0, micro := 0);
    Enough(floored);
    ShiftIsCounted(floored, -HOUR);
  }

  lemma DailyIsCounted(now: DateTime)
    requires Datable(now)
    ensures ByDay(PeriodStart(Daily, now)) == CountedStart(Daily, ByDay(now))
  {
    Enough(now);
    ShiftIsCounted(now, -DAY);
  }

  /** Taking the fields apart commutes with counting the day. */
  lemma StartIsCounted(p: Period, now: DateTime)
    requires Datable(now)
    ensures ByDay(PeriodStart(p, now)) == CountedStart(p, ByDay(now))
  {
    match p
    case FiveMin => FiveMinIsCounted(now);
    case Hourly => HourlyIsCounted(now);
    case Daily => DailyIsCounted(now);
  }

  /** Truncating calendar fields, across months, leap days and years, is floor
      division of the clock. */
  lemma TruncationIsFloor(p: Period, now: DateTime)
    requires Datable(now)
    ensures Moment(PeriodStart(p, now)) == WindowStart(p, Moment(now))
  {
    StartIsCounted(p, now);
    CountedFloor(p, ByDay(now));
  }

  /** The window a task picks is aligned, over, and the last one that is. */
  lemma LastClosedWindow(p: Period, now: DateTime)
    requires Datable(now)
    ensures var from, t := Moment(PeriodStart(p, now)), Moment(now);
            && from % Length(p) == 0
            && from + Length(p) <= t < from + 2 * Length(p)
  {
    StartIsCounted(p, now);
    CountedLastClosed(p, ByDay(now));
  }
}
