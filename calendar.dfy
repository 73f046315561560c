/** Proleptic Gregorian date-times with .NET's `DateTime` arithmetic:
    `AddDays`, `AddMonths`, `AddYears` (the day clamped to the end of the
    month), the 0001..9999 range, and the `ToString` formats the source uses. */
module Calendar {
  import opened Text
  import opened Wrappers

  const SecondsPerDay: int := 86400
  const MinYear: int := 1
  const MaxYear: int := 9999

  /** A date-time to the second: `second` counts seconds since midnight. */
  datatype DateTime = DateTime(year: int, month: int, day: int, second: int)

  /** A `DateTimeOffset`: the clock reading and its offset from UTC in minutes. */
  datatype DateTimeOffset = DateTimeOffset(clock: DateTime, offsetMinutes: int)

  predicate IsLeapYear(y: int) {
    y % 4 == 0 && (y % 100 != 0 || y % 400 == 0)
  }

  function DaysInMonth(y: int, m: int): (n: int)
    requires 1 <= m <= 12
    ensures 28 <= n <= 31
    ensures n == 29 <==> m == 2 && IsLeapYear(y)
  {
    if m == 2 then (if IsLeapYear(y) then 29 else 28)
    else if m == 4 || m == 6 || m == 9 || m == 11 then 30
    else 31
  }

  function DaysInYear(y: int): int {
    if IsLeapYear(y) then 366 else 365
  }

  predicate ValidDate(d: DateTime) {
    1 <= d.month <= 12 && 1 <= d.day <= DaysInMonth(d.year, d.month) && 0 <= d.second < SecondsPerDay
  }

  /** Representable as a .NET `DateTime`: 0001-01-01 to 9999-12-31. */
  predicate InRange(d: DateTime) {
    ValidDate(d) && MinYear <= d.year <= MaxYear
  }

  /** Chronological order on date-times (lexicographic on the fields). */
  predicate Before(a: DateTime, b: DateTime) {
    a.year < b.year
    || (a.year == b.year && a.month < b.month)
    || (a.year == b.year && a.month == b.month && a.day < b.day)
    || (a.year == b.year && a.month == b.month && a.day == b.day && a.second < b.second)
  }

  predicate AtOrBefore(a: DateTime, b: DateTime) {
    a == b || Before(a, b)
  }

  lemma BeforeTransitive(a: DateTime, b: DateTime, c: DateTime)
    requires Before(a, b) && Before(b, c)
    ensures Before(a, c)
  {
  }

  // ---- Day numbers: the reference for day arithmetic ----

  /** Days from 0001-01-01 to the first day of year `y`. */
  function DaysBeforeYear(y: int): int
    decreases if y >= 1 then y - 1 else 1 - y
  {
    if y == 1 then 0
    else if y > 1 then DaysBeforeYear(y - 1) + DaysInYear(y - 1)
    else DaysBeforeYear(y + 1) - DaysInYear(y)
  }

  /** Days of year `y` before the first day of month `m` (m = 13: the whole year). */
  function DaysBeforeMonth(y: int, m: int): int
    requires 1 <= m <= 13
  {
    var leap := if IsLeapYear(y) then 1 else 0;
    match m
    case 1 => 0
    case 2 => 31
    case 3 => 59 + leap
    case 4 => 90 + leap
    case 5 => 120 + leap
    case 6 => 151 + leap
    case 7 => 181 + leap
    case 8 => 212 + leap
    case 9 => 243 + leap
    case 10 => 273 + leap
    case 11 => 304 + leap
    case 12 => 334 + leap
    case _ => 365 + leap
  }

  /** The number of days from 0001-01-01 to `d`'s day. */
  function DayNumber(d: DateTime): int
    requires 1 <= d.month <= 12
  {
    DaysBeforeYear(d.year) + DaysBeforeMonth(d.year, d.month) + d.day - 1
  }

  lemma DaysBeforeMonthStep(y: int, m: int)
    requires 1 <= m <= 12
    ensures DaysBeforeMonth(y, m + 1) == DaysBeforeMonth(y, m) + DaysInMonth(y, m)
    ensures DaysBeforeMonth(y, 13) == DaysInYear(y)
  {
  }

  lemma DaysBeforeYearStep(y: int)
    ensures DaysBeforeYear(y + 1) == DaysBeforeYear(y) + DaysInYear(y)
  {
  }

  // ---- AddDays ----

  function NextDay(d: DateTime): DateTime
    requires ValidDate(d)
  {
    if d.day < DaysInMonth(d.year, d.month) then d.(day := d.day + 1)
    else if d.month < 12 then d.(month := d.month + 1, day := 1)
    else d.(year := d.year + 1, month := 1, day := 1)
  }

  function PreviousDay(d: DateTime): DateTime
    requires ValidDate(d)
  {
    if d.day > 1 then d.(day := d.day - 1)
    else if d.month > 1 then d.(month := d.month - 1, day := DaysInMonth(d.year, d.month - 1))
    else d.(year := d.year - 1, month := 12, day := 31)
  }

  lemma NextDayStep(d: DateTime)
    requires ValidDate(d)
    ensures ValidDate(NextDay(d)) && NextDay(d).second == d.second
    ensures DayNumber(NextDay(d)) == DayNumber(d) + 1
    ensures Before(d, NextDay(d))
  {
    if d.day == DaysInMonth(d.year, d.month) {
      DaysBeforeMonthStep(d.year, d.month);
      DaysBeforeYearStep(d.year);
    }
  }

  lemma PreviousDayStep(d: DateTime)
    requires ValidDate(d)
    ensures ValidDate(PreviousDay(d)) && PreviousDay(d).second == d.second
    ensures DayNumber(PreviousDay(d)) == DayNumber(d) - 1
    ensures Before(PreviousDay(d), d)
  {
    if d.day == 1 {
      if d.month > 1 {
        DaysBeforeMonthStep(d.year, d.month - 1);
      } else {
        DaysBeforeMonthStep(d.year - 1, 12);
        DaysBeforeYearStep(d.year - 1);
      }
    }
  }

  /** `DateTime.AddDays(n)` for a whole number of days, before the range check. */
  function AddDays(d: DateTime, n: int): DateTime
    requires ValidDate(d)
    decreases if n >= 0 then n else -n
  {
    if n == 0 then d
    else if n > 0 then (NextDayStep(d); AddDays(NextDay(d), n - 1))
    else (PreviousDayStep(d); AddDays(PreviousDay(d), n + 1))
  }

  /** Adding `n` days moves the day number by exactly `n`, keeps the time of day,
      and moves forward in time when `n` is positive. */
  lemma {:induction false} AddDaysMoves(d: DateTime, n: int)
    requires ValidDate(d)
    ensures ValidDate(AddDays(d, n)) && AddDays(d, n).second == d.second
    ensures DayNumber(AddDays(d, n)) == DayNumber(d) + n
    ensures n > 0 ==> Before(d, AddDays(d, n))
    decreases if n >= 0 then n else -n
  {
    if n > 0 {
      NextDayStep(d);
      AddDaysMoves(NextDay(d), n - 1);
      if n > 1 {
        BeforeTransitive(d, NextDay(d), AddDays(NextDay(d), n - 1));
      }
    } else if n < 0 {
      PreviousDayStep(d);
      AddDaysMoves(PreviousDay(d), n + 1);
    }
  }

  // ---- AddMonths / AddYears ----

  /** Months since year 0, month 1: the quantity AddMonths moves. */
  function MonthIndex(d: DateTime): int {
    d.year * 12 + d.month - 1
  }

  /** `DateTime.AddMonths(n)` before the range check: the month moves by `n`,
      the day is clamped to the last day of the target month. */
  function AddMonths(d: DateTime, n: int): (r: DateTime)
    requires ValidDate(d)
    ensures ValidDate(r) && r.second == d.second
    ensures MonthIndex(r) == MonthIndex(d) + n
    ensures r.day == if d.day <= DaysInMonth(r.year, r.month) then d.day else DaysInMonth(r.year, r.month)
  {
    var total := MonthIndex(d) + n;
    var y := total / 12;
    var m := total % 12 + 1;
    var dim := DaysInMonth(y, m);
    DateTime(y, m, if d.day <= dim then d.day else dim, d.second)
  }

  /** `DateTime.AddYears(n)` before the range check: 29 February becomes
      28 February in a common year. */
  function AddYears(d: DateTime, n: int): (r: DateTime)
    requires ValidDate(d)
    ensures ValidDate(r)
  {
    var y := d.year + n;
    var dim := DaysInMonth(y, d.month);
    DateTime(y, d.month, if d.day <= dim then d.day else dim, d.second)
  }

  lemma DivModUnique(x: int, q: int, r: int)
    requires 0 <= r < 12 && x == q * 12 + r
    ensures x / 12 == q && x % 12 == r
  {
  }

  /** Adding `n` years is adding `12 n` months: both clamp the day the same way. */
  lemma {:induction false} AddYearsIsTwelveMonths(d: DateTime, n: int)
    requires ValidDate(d)
    ensures AddYears(d, n) == AddMonths(d, 12 * n)
  {
    var total := MonthIndex(d) + 12 * n;
    assert total == (d.year + n) * 12 + (d.month - 1);
    DivModUnique(total, d.year + n, d.month - 1);
  }

  // ---- Offsets ----

  /** `d` moved by `s` seconds, carrying into days. */
  function AddSeconds(d: DateTime, s: int): DateTime
    requires ValidDate(d)
  {
    var total := d.second + s;
    AddDays(d.(second := total % SecondsPerDay), total / SecondsPerDay)
  }

  /** Seconds since 0001-01-01T00:00:00: the reference for `AddSeconds`. */
  function Seconds(d: DateTime): int
    requires 1 <= d.month <= 12
  {
    DayNumber(d) * SecondsPerDay + d.second
  }

  lemma {:induction false} AddSecondsMoves(d: DateTime, s: int)
    requires ValidDate(d)
    ensures ValidDate(AddSeconds(d, s))
    ensures Seconds(AddSeconds(d, s)) == Seconds(d) + s
  {
    var total := d.second + s;
    var start := d.(second := total % SecondsPerDay);
    AddDaysMoves(start, total / SecondsPerDay);
    assert total == (total / SecondsPerDay) * SecondsPerDay + total % SecondsPerDay;
  }

  /** `DateTimeOffset.UtcDateTime`: the clock reading minus the offset. */
  function UtcDateTime(o: DateTimeOffset): DateTime
    requires ValidDate(o.clock)
  {
    AddSeconds(o.clock, -o.offsetMinutes * 60)
  }

  // ---- Formatting ----

  /** `ToString("yyyy-MM-ddTHH:mm:ss")`, the format of `EmbeddingService.DateFormat`. */
  function FormatSortable(d: DateTime): String {
    PadNumber(d.year, 4) + "-" + PadNumber(d.month, 2) + "-" + PadNumber(d.day, 2)
    + "T" + PadNumber(d.second / 3600, 2) + ":" + PadNumber(d.second % 3600 / 60, 2)
    + ":" + PadNumber(d.second % 60, 2)
  }

  /** `ToString("O")` (round-trip format) of a whole-second time. */
  function FormatRoundTrip(d: DateTime): String {
    FormatSortable(d) + ".0000000"
  }
}
