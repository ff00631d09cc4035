/** The windows that the periodic aggregation tasks pick, on timestamps whose day
    is a number. Timestamps with a date come down to these. */
module Windows {
  import opened Arithmetic

  /** Microseconds. */
  type Time = int

  const SECOND: Time := 1_000_000
  const MINUTE: Time := 60_000_000
  const HOUR: Time := 3_600_000_000
  const DAY: Time := 86_400_000_000

  /** A UTC timestamp with its day counted, and the fields of the time of day. */
  datatype Fields = Fields(day: int, hour: int, minute: int, second: int, micro: int)

  type Counted = f: Fields |
    0 <= f.hour < 24 && 0 <= f.minute < 60 && 0 <= f.second < 60 && 0 <= f.micro < 1_000_000
    witness Fields(0, 0, 0, 0, 0)

  function Instant(d: Counted): Time {
    d.day * DAY + d.hour * HOUR + d.minute * MINUTE + d.second * SECOND + d.micro
  }

  function Calendar(t: Time): Counted {
    Fields(t / DAY, t / HOUR % 24, t / MINUTE % 60, t / SECOND % 60, t % SECOND)
  }

  /** Adding a timedelta. */
  function Plus(d: Counted, delta: Time): Counted {
    Calendar(Instant(d) + delta)
  }

  datatype Period = FiveMin | Hourly | Daily

  function Length(p: Period): Time {
    match p
    case FiveMin => 5 * MINUTE
    case Hourly => HOUR
    case Daily => DAY
  }

  /** period_start of the three tasks, field by field. */
  function CountedStart(p: Period, now: Counted): Counted {
    match p
    case FiveMin =>
      var floored: Counted := now.(minute := now.minute / 5 * 5, second := 0, micro := 0);
      Plus(floored, -5 * MINUTE)
    case Hourly =>
      var floored: Counted := now.(minute := 0, second := 0, micro := 0);
      Plus(floored, -HOUR)
    case Daily =>
      var yesterday := Plus(now, -DAY);
      yesterday.(hour := 0, minute := 0, second := 0, micro := 0)
  }

  /** The same window by floor division of the clock. */
  function WindowStart(p: Period, now: Time): Time {
    now / Length(p) * Length(p) - Length(p)
  }

  // ----- calendar arithmetic

  lemma CalendarInverse(t: Time)
    ensures Instant(Calendar(t)) == t
  {
    var s, m, h := t / SECOND, t / MINUTE, t / HOUR;
    assert m == s / 60;
    assert h == m / 60;
    assert t / DAY == h / 24;
  }

  lemma MulGrows(k: int, unit: Time)
    requires unit > 0 && k >= 1
    ensures k * unit >= unit
  {
  }

  lemma SmallMultiple(k: int, unit: Time)
    requires unit > 0 && -unit < k * unit < unit
    ensures k == 0
  {
    Distribute(0, k, unit);
    if k >= 1 {
      MulGrows(k, unit);
    } else if k <= -1 {
      MulGrows(0 - k, unit);
    }
  }

  lemma Distribute(a: int, b: int, unit: Time)
    ensures (a - b) * unit == a * unit - b * unit
  {
  }

  lemma DivIs(t: Time, unit: Time, q: int, r: int)
    requires unit > 0 && t == q * unit + r && 0 <= r < unit
    ensures t / unit == q && t % unit == r
  {
    var q', r' := t / unit, t % unit;
    assert t == q' * unit + r';
    Distribute(q, q', unit);
    SmallMultiple(q - q', unit);
  }

  /** Seconds since day zero, without the microseconds. */
  function Seconds(d: Counted): int {
    ((d.day * 24 + d.hour) * 60 + d.minute) * 60 + d.second
  }

  lemma InstantInSeconds(d: Counted)
    ensures Instant(d) / SECOND == Seconds(d) && Instant(d) % SECOND == d.micro
  {
    DivIs(Instant(d), SECOND, Seconds(d), d.micro);
  }

  lemma InstantInMinutes(d: Counted)
    ensures Instant(d) / MINUTE == (d.day * 24 + d.hour) * 60 + d.minute
  {
    DivIs(Instant(d), MINUTE, (d.day * 24 + d.hour) * 60 + d.minute, d.second * SECOND + d.micro);
  }

  lemma InstantInHours(d: Counted)
    ensures Instant(d) / HOUR == d.day * 24 + d.hour
  {
    DivIs(Instant(d), HOUR, d.day * 24 + d.hour, d.minute * MINUTE + d.second * SECOND + d.micro);
  }

  lemma InstantInDays(d: Counted)
    ensures Instant(d) / DAY == d.day
  {
    DivIs(Instant(d), DAY, d.day, d.hour * HOUR + d.minute * MINUTE + d.second * SECOND + d.micro);
  }

  lemma InstantInFiveMinutes(d: Counted)
    ensures Instant(d) / (5 * MINUTE) == (d.day * 24 + d.hour) * 12 + d.minute / 5
  {
    DivIs(Instant(d), 5 * MINUTE, (d.day * 24 + d.hour) * 12 + d.minute / 5,
          d.minute % 5 * MINUTE + d.second * SECOND + d.micro);
  }

  lemma InstantInverse(d: Counted)
    ensures Calendar(Instant(d)) == d
  {
    InstantInSeconds(d);
    InstantInMinutes(d);
    InstantInHours(d);
    InstantInDays(d);
    DivIs(Seconds(d), 60, (d.day * 24 + d.hour) * 60 + d.minute, d.second);
    DivIs((d.day * 24 + d.hour) * 60 + d.minute, 60, d.day * 24 + d.hour, d.minute);
    DivIs(d.day * 24 + d.hour, 24, d.day, d.hour);
  }

  lemma PlusShifts(d: Counted, delta: Time)
    ensures Instant(Plus(d, delta)) == Instant(d) + delta
  {
    CalendarInverse(Instant(d) + delta);
  }

  /** Truncating calendar fields is floor division of the clock. */
  lemma CountedFloor(p: Period, now: Counted)
    ensures Instant(CountedStart(p, now)) == WindowStart(p, Instant(now))
  {
    match p
    case FiveMin => FiveMinFloor(now);
    case Hourly => HourlyFloor(now);
    case Daily => DailyFloor(now);
  }

  lemma FiveMinFloor(now: Counted)
    ensures Instant(CountedStart(FiveMin, now)) == WindowStart(FiveMin, Instant(now))
  {
    var floored: Counted := now.(minute := now.minute / 5 * 5, second := 0, micro := 0);
    PlusShifts(floored, -5 * MINUTE);
    InstantInFiveMinutes(now);
  }

  lemma HourlyFloor(now: Counted)
    ensures Instant(CountedStart(Hourly, now)) == WindowStart(Hourly, Instant(now))
  {
    var floored: Counted := now.(minute := 0, second := 0, micro := 0);
    PlusShifts(floored, -HOUR);
    InstantInHours(now);
  }

  lemma DailyFloor(now: Counted)
    ensures Instant(CountedStart(Daily, now)) == WindowStart(Daily, Instant(now))
  {
    var y: Counted := now.(day := now.day - 1);
    assert Instant(y) == Instant(now) - DAY;
    InstantInverse(y);
    InstantInDays(now);
  }

  /** The window a task picks is aligned, over, and the last one that is. */
  lemma CountedLastClosed(p: Period, now: Counted)
    ensures var from, t := Instant(CountedStart(p, now)), Instant(now);
            && from % Length(p) == 0
            && from + Length(p) <= t < from + 2 * Length(p)
  {
    CountedFloor(p, now);
    var t, q := Instant(now), Instant(now) / Length(p);
    Distribute(q, 1, Length(p));
    DivIs(WindowStart(p, t), Length(p), q - 1, 0);
    assert t == q * Length(p) + t % Length(p);
  }

  // ----- no window is skipped

  predicate Ticking(ticks: seq<Time>, length: Time) {
    forall i | 0 <= i < |ticks| - 1 :: ticks[i] <= ticks[i + 1] <= ticks[i] + length
  }

  lemma FloorStep(a: Time, b: Time, length: Time)
    requires length > 0 && a <= b <= a + length
    ensures a / length <= b / length <= a / length + 1
  {
    var q, q' := a / length, b / length;
    assert a == q * length + a % length && b == q' * length + b % length;
    Distribute(q', q, length);
    if q' - q >= 2 {
      MulMonotone(2, q' - q, length);
    } else if q' - q <= -1 {
      MulMonotone(q' - q, -1, length);
    }
  }

  /** If successive ticks are at most one period apart, every window between the
      first tick's and the last tick's is picked by some tick. */
  lemma {:induction false} NoWindowSkipped(p: Period, ticks: seq<Time>, k: int) returns (i: nat)
    requires ticks != [] && Ticking(ticks, Length(p))
    requires ticks[0] / Length(p) <= k <= ticks[|ticks| - 1] / Length(p)
    ensures i < |ticks| && WindowStart(p, ticks[i]) == k * Length(p) - Length(p)
  {
    var n := |ticks| - 1;
    if ticks[n] / Length(p) == k {
      i := n;
    } else {
      FloorStep(ticks[n - 1], ticks[n], Length(p));
      i := NoWindowSkipped(p, ticks[..n], k);
    }
  }

  /** Hours are tiled by twelve five-minute windows, days by twenty-four hours. */
  lemma WindowsTile(p: Period, q: Period, now: Time)
    requires (p.Hourly? && q.FiveMin?) || (p.Daily? && q.Hourly?)
    ensures var n := if p.Hourly? then 12 else 24; Length(p) == n * Length(q)
    ensures WindowStart(p, now) % Length(q) == 0
  {
    var n := if p.Hourly? then 12 else 24;
    var k := now / Length(p) - 1;
    Distribute(now / Length(p), 1, Length(p));
    DivIs(k * Length(p), Length(q), k * n, 0);
  }
}
