/** Wall-clock values. A C# `DateTime` is its count of 100-nanosecond ticks since 0001-01-01T00:00
    (the `Kind` flag is not modelled); a Java timestamp is milliseconds since 1970-01-01T00:00Z.
    Reading the clock is never done by the model: callers pass "now" in. */
module Clock {
  import opened Decimals

  type DateTime = int

  const TicksPerHour: int := 36_000_000_000
  const TicksPerDay: int := 864_000_000_000

  /** `new DateTime(2025, 1, 6)`, a Monday. */
  const Monday2025Jan6: DateTime := 638717184000000000
  /** `new DateTime(2024, 1, 1)`, a Monday. */
  const Monday2024Jan1: DateTime := 638396640000000000

  /** `DateTime.Date`: midnight of the same day. */
  function Date(t: DateTime): (d: DateTime)
    ensures d <= t < d + TicksPerDay
    ensures d % TicksPerDay == 0
  {
    (t / TicksPerDay) * TicksPerDay
  }

  function AddDays(t: DateTime, days: int): DateTime {
    t + days * TicksPerDay
  }

  /** `DateTime.DayOfWeek` with Sunday = 0 ... Saturday = 6; day 0 of the calendar is a Monday. */
  function DayOfWeek(t: DateTime): (d: int)
    ensures 0 <= d < 7
  {
    (t / TicksPerDay + 1) % 7
  }

  const Sunday: int := 0
  const Saturday: int := 6

  /** `TimeSpan.TotalHours` of the span `t1 - t0`. */
  function TotalHours(span: int): real {
    span as real / TicksPerHour as real
  }

  /** `TimeSpan.TotalDays`. */
  function TotalDays(span: int): real {
    span as real / TicksPerDay as real
  }

  /** `TimeSpan.Days`: whole days, truncated toward zero. */
  function SpanDays(span: int): int {
    TruncDiv(span, TicksPerDay)
  }

  /** Whole days of a span whose ticks are whole days: `(int)span.TotalDays` is exact. */
  lemma WholeDaySpan(n: int)
    ensures Truncate(TotalDays(n * TicksPerDay)) == n
  {
    assert TotalDays(n * TicksPerDay) == n as real;
  }

  /** The number of the day a time falls on. */
  function DayNumber(t: DateTime): int {
    t / TicksPerDay
  }

  lemma DayNumberAddDays(t: DateTime, k: int)
    ensures DayNumber(AddDays(t, k)) == DayNumber(t) + k
    ensures Date(AddDays(t, k)) == Date(t) + k * TicksPerDay
  {
    var q := t / TicksPerDay;
    assert t + k * TicksPerDay == (q + k) * TicksPerDay + t % TicksPerDay;
  }

  /** Adding whole days moves the day of the week by as many days. */
  lemma DayOfWeekAddDays(t: DateTime, k: int)
    ensures DayOfWeek(AddDays(t, k)) == (DayOfWeek(t) + k) % 7
  {
    DayNumberAddDays(t, k);
  }

  /** Comparing dates is comparing day numbers. */
  lemma DateOrder(a: DateTime, b: DateTime)
    ensures Date(a) <= Date(b) <==> DayNumber(a) <= DayNumber(b)
  {
  }

  lemma WholeWeeksKeepDayOfWeek(t: DateTime, weeks: int)
    ensures DayOfWeek(AddDays(t, weeks * 7)) == DayOfWeek(t)
  {
    DayOfWeekAddDays(t, weeks * 7);
  }
}
