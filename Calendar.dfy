/** Calendar arithmetic the ledger and the report rely on: proleptic Gregorian
    dates numbered the way Python's `date.toordinal` numbers them (1 January of
    year 1 is day 1, a Monday), `date.weekday` (0 = Monday), and the start of a
    report period. Time stamps are whole microseconds (the resolution of
    Python's `datetime`) on the configured zone's local clock, counted so that
    day ordinal `d` runs from `d * MicrosecondsPerDay` up to, but excluding,
    `(d + 1) * MicrosecondsPerDay`. */
module Calendar {
  import opened Wrappers

  const MicrosecondsPerDay: int := 86_400_000_000

  /** The three period keywords the bot accepts. */
  const Daily: string := "harian"
  const Weekly: string := "mingguan"
  const Monthly: string := "bulanan"

  datatype Date = Date(year: int, month: int, day: int)

  predicate IsLeap(y: int) {
    y % 4 == 0 && (y % 100 != 0 || y % 400 == 0)
  }

  function DaysInMonth(y: int, m: int): (n: int)
    requires 1 <= m <= 12
    ensures 28 <= n <= 31
  {
    if m == 2 then (if IsLeap(y) then 29 else 28)
    else if m == 4 || m == 6 || m == 9 || m == 11 then 30
    else 31
  }

  /** What a Python `date` object always satisfies (years 1 to 9999). */
  predicate ValidDate(d: Date) {
    1 <= d.year <= 9999 && 1 <= d.month <= 12 && 1 <= d.day <= DaysInMonth(d.year, d.month)
  }

  type CivilDate = d: Date | ValidDate(d) witness Date(1, 1, 1)

  function DaysBeforeYear(y: int): int
    requires y >= 1
  {
    var y1 := y - 1;
    y1 * 365 + y1 / 4 - y1 / 100 + y1 / 400
  }

  function DaysBeforeMonth(y: int, m: int): int
    requires 1 <= m <= 12
  {
    var table := [0, 31, 59, 90, 120, 151, 181, 212, 243, 273, 304, 334];
    table[m - 1] + (if m > 2 && IsLeap(y) then 1 else 0)
  }

  /** Day number of a date; consecutive days of a month get consecutive numbers. */
  function Ordinal(d: CivilDate): int {
    DaysBeforeYear(d.year) + DaysBeforeMonth(d.year, d.month) + d.day
  }

  /** Python's `date.weekday()` of the day with ordinal `o`: 0 is Monday, 6 is Sunday. */
  function Weekday(o: int): (w: int)
    ensures 0 <= w < 7
  {
    (o + 6) % 7
  }

  /** `today.replace(day=1)`: the first day of today's month. */
  function FirstOfMonth(today: CivilDate): CivilDate {
    Date(today.year, today.month, 1)
  }

  /** Ordinal of the first day of a report period ending today, or None when the
      keyword is none of the three periods. */
  function PeriodStart(period: string, today: CivilDate): Option<int> {
    if period == Daily then Some(Ordinal(today))
    else if period == Weekly then Some(Ordinal(today) - Weekday(Ordinal(today)))
    else if period == Monthly then Some(Ordinal(FirstOfMonth(today)))
    else None
  }

  predicate IsPeriod(period: string) {
    period == Daily || period == Weekly || period == Monthly
  }

  /** The first microsecond of day ordinal `o` (local midnight). */
  function StartOfDay(o: int): int {
    o * MicrosecondsPerDay
  }

  /** Day ordinal on which the local time stamp `ts` falls. */
  function DayOf(ts: int): int {
    ts / MicrosecondsPerDay
  }

  // ---- Properties ----

  /** A period keyword is accepted exactly when it is one of the three. */
  lemma PeriodStartDefinedIff(period: string, today: CivilDate)
    ensures PeriodStart(period, today).Some? <==> IsPeriod(period)
  {
  }

  /** The daily period starts today; the weekly one on the Monday of this week,
      at most six days back; the monthly one on day 1 of this month, which is
      `day - 1` days back. Every period therefore contains today. */
  lemma PeriodStartBounds(period: string, today: CivilDate)
    requires IsPeriod(period)
    ensures var s := PeriodStart(period, today).value;
      && s <= Ordinal(today)
      && (period == Daily ==> s == Ordinal(today))
      && (period == Weekly ==> Weekday(s) == 0 && Ordinal(today) - s <= 6)
      && (period == Monthly ==> s == Ordinal(today) - (today.day - 1))
  {
    if period == Weekly {
      MondayOfWeek(Ordinal(today));
    }
  }

  /** Going back `weekday` days from any day lands on a Monday of the same week. */
  lemma {:induction false} MondayOfWeek(o: int)
    ensures Weekday(o - Weekday(o)) == 0
    ensures 0 <= o - (o - Weekday(o)) <= 6
  {
    var w := Weekday(o);
    var q := (o + 6) / 7;
    assert o + 6 == 7 * q + w;
    assert o - w + 6 == 7 * q;
  }

  /** A time stamp is at or after local midnight of day `o` exactly when it
      falls on day `o` or later. */
  lemma {:induction false} AfterMidnightIff(ts: int, o: int)
    ensures ts >= StartOfDay(o) <==> DayOf(ts) >= o
  {
    var d := DayOf(ts);
    var r := ts % MicrosecondsPerDay;
    assert ts == d * MicrosecondsPerDay + r && 0 <= r < MicrosecondsPerDay;
    if d >= o {
      assert d * MicrosecondsPerDay >= o * MicrosecondsPerDay;
    } else {
      assert d + 1 <= o;
      assert (d + 1) * MicrosecondsPerDay <= o * MicrosecondsPerDay;
    }
  }

  /** Day 1 of the numbering is 1 January of year 1, a Monday. */
  lemma FirstOrdinalIsMonday()
    ensures Ordinal(Date(1, 1, 1)) == 1 && Weekday(1) == 0
  {
    assert DaysBeforeYear(1) == 0;
    assert DaysBeforeMonth(1, 1) == 0;
    assert 1 + 6 == 7 * 1 + 0;
  }

  /** 29 February 2024, a leap day, is day 738945 and a Thursday. */
  lemma LeapDayOrdinal()
    ensures Ordinal(Date(2024, 2, 29)) == 738945 && Weekday(738945) == 3
  {
    assert DaysBeforeYear(2024) == 738885;
    assert DaysBeforeMonth(2024, 2) == 31;
  }
}
