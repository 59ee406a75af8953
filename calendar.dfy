/**
 * The part of Python's `datetime` that the day counter relies on: reading a
 * `YYYY-MM-DD` calendar date (ISO 8601), the proleptic Gregorian day number of a
 * date (`date.toordinal`), and the whole-day part of the difference between a
 * moment and a midnight (`timedelta.days`).
 */
module Calendar {
  import opened Wrappers
  import opened Digits

  const MIN_YEAR := 1
  const MAX_YEAR := 9999
  /** Microseconds in one day: the resolution of Python's `datetime`. */
  const MICROS_PER_DAY := 86_400_000_000

  datatype Date = Date(year: int, month: int, day: int)

  /** A moment on the wall clock, as `datetime.now()` gives it: a date and the time since its midnight. */
  datatype Instant = Instant(date: Date, micros: int)

  predicate IsLeapYear(y: int) {
    y % 4 == 0 && (y % 100 != 0 || y % 400 == 0)
  }

  function DaysInYear(y: int): nat
  {
    if IsLeapYear(y) then 366 else 365
  }

  function DaysInMonth(y: int, m: int): (n: nat)
    requires 1 <= m <= 12
    ensures 28 <= n <= 31
    ensures m == 2 ==> (n == 29 <==> IsLeapYear(y))
  {
    if m == 2 then (if IsLeapYear(y) then 29 else 28)
    else if m == 4 || m == 6 || m == 9 || m == 11 then 30
    else 31
  }

  predicate ValidDate(d: Date) {
    && MIN_YEAR <= d.year <= MAX_YEAR
    && 1 <= d.month <= 12
    && 1 <= d.day <= DaysInMonth(d.year, d.month)
  }

  predicate ValidInstant(t: Instant) {
    ValidDate(t.date) && 0 <= t.micros < MICROS_PER_DAY
  }

  /** Days in the months before month `m` of a common year (index 0 is unused). */
  const DAYS_BEFORE_MONTH: seq<nat> := [0, 0, 31, 59, 90, 120, 151, 181, 212, 243, 273, 304, 334]

  function DaysBeforeMonth(y: int, m: int): nat
    requires 1 <= m <= 12
  {
    DAYS_BEFORE_MONTH[m] + if m > 2 && IsLeapYear(y) then 1 else 0
  }

  /** Days in the years before year `y`, counted from year 1 of the proleptic Gregorian calendar. */
  function DaysBeforeYear(y: int): int {
    var p := y - 1;
    p * 365 + p / 4 - p / 100 + p / 400
  }

  /** The proleptic Gregorian ordinal: 1 January of year 1 is day 1. */
  function DayNumber(d: Date): int
    requires 1 <= d.month <= 12
  {
    DaysBeforeYear(d.year) + DaysBeforeMonth(d.year, d.month) + d.day
  }

  /** The reference calendar: the day after `d`. */
  function NextDate(d: Date): (n: Date)
    requires 1 <= d.month <= 12
    ensures 1 <= n.month <= 12
  {
    if d.day < DaysInMonth(d.year, d.month) then Date(d.year, d.month, d.day + 1)
    else if d.month < 12 then Date(d.year, d.month + 1, 1)
    else Date(d.year + 1, 1, 1)
  }

  /** `d1` comes strictly before `d2` in calendar order. */
  predicate Before(d1: Date, d2: Date) {
    || d1.year < d2.year
    || (d1.year == d2.year && d1.month < d2.month)
    || (d1.year == d2.year && d1.month == d2.month && d1.day < d2.day)
  }

  lemma DivStep(p: int)
    ensures (p + 1) / 4 - p / 4 == if (p + 1) % 4 == 0 then 1 else 0
    ensures (p + 1) / 100 - p / 100 == if (p + 1) % 100 == 0 then 1 else 0
    ensures (p + 1) / 400 - p / 400 == if (p + 1) % 400 == 0 then 1 else 0
  {
  }

  lemma CenturyOfQuadCentury(y: int)
    requires y % 400 == 0
    ensures y % 100 == 0
  {
    assert y == 100 * (4 * (y / 400));
  }

  lemma QuadOfCentury(y: int)
    requires y % 100 == 0
    ensures y % 4 == 0
  {
    assert y == 4 * (25 * (y / 100));
  }

  /** Consecutive years start `DaysInYear` apart. */
  lemma YearStep(y: int)
    ensures DaysBeforeYear(y + 1) == DaysBeforeYear(y) + DaysInYear(y)
  {
    DivStep(y - 1);
    if y % 400 == 0 {
      CenturyOfQuadCentury(y);
    }
    if y % 100 == 0 {
      QuadOfCentury(y);
    }
  }

  lemma MonthStep(y: int, m: int)
    requires 1 <= m < 12
    ensures DaysBeforeMonth(y, m + 1) == DaysBeforeMonth(y, m) + DaysInMonth(y, m)
  {
  }

  lemma LastMonth(y: int)
    ensures DaysBeforeMonth(y, 12) + DaysInMonth(y, 12) == DaysInYear(y)
  {
  }

  /** The day number counts days: the next calendar day has the next number. */
  lemma NextDayNumber(d: Date)
    requires ValidDate(d)
    ensures DayNumber(NextDate(d)) == DayNumber(d) + 1
  {
    if d.day < DaysInMonth(d.year, d.month) {
    } else if d.month < 12 {
      MonthStep(d.year, d.month);
    } else {
      LastMonth(d.year);
      YearStep(d.year);
    }
  }

  lemma DayNumberOfFirstDay()
    ensures DayNumber(Date(1, 1, 1)) == 1
  {
  }

  /** A year's days are numbered below the next year's. */
  lemma {:induction false} YearsAscend(y1: int, y2: int)
    requires y1 < y2
    ensures DaysBeforeYear(y1) + DaysInYear(y1) <= DaysBeforeYear(y2)
    decreases y2 - y1
  {
    YearStep(y1);
    if y1 + 1 < y2 {
      YearsAscend(y1 + 1, y2);
    }
  }

  lemma WithinYear(d: Date)
    requires ValidDate(d)
    ensures DaysBeforeYear(d.year) < DayNumber(d) <= DaysBeforeYear(d.year) + DaysInYear(d.year)
  {
  }

  /** Day numbers follow calendar order, in both directions. */
  lemma DayNumberOrder(d1: Date, d2: Date)
    requires ValidDate(d1) && ValidDate(d2)
    ensures Before(d1, d2) <==> DayNumber(d1) < DayNumber(d2)
  {
    WithinYear(d1);
    WithinYear(d2);
    if d1.year < d2.year {
      YearsAscend(d1.year, d2.year);
    } else if d2.year < d1.year {
      YearsAscend(d2.year, d1.year);
    }
  }

  /** Reads a date written exactly as `YYYY-MM-DD`, rejecting dates the calendar does not have. */
  function ParseIsoDate(s: string): (r: Option<Date>)
    ensures r.Some? ==> ValidDate(r.value)
  {
    if |s| == 10 && s[4] == '-' && s[7] == '-'
       && AllDigits(s[..4]) && AllDigits(s[5..7]) && AllDigits(s[8..])
    then
      var d := Date(Value(s[..4]), Value(s[5..7]), Value(s[8..]));
      if ValidDate(d) then Some(d) else None
    else None
  }

  function FormatIsoDate(d: Date): (s: string)
    requires ValidDate(d)
    ensures |s| == 10
  {
    FixedWidth(d.year, 4) + "-" + FixedWidth(d.month, 2) + "-" + FixedWidth(d.day, 2)
  }

  /** Every valid date is read back from its own `YYYY-MM-DD` form. */
  lemma ParseFormat(d: Date)
    requires ValidDate(d)
    ensures ParseIsoDate(FormatIsoDate(d)) == Some(d)
  {
    var s := FormatIsoDate(d);
    assert s[..4] == FixedWidth(d.year, 4);
    assert s[5..7] == FixedWidth(d.month, 2);
    assert s[8..] == FixedWidth(d.day, 2);
  }

  /** The parser accepts only the canonical form: what it reads is written back unchanged. */
  lemma FormatParse(s: string)
    requires ParseIsoDate(s).Some?
    ensures FormatIsoDate(ParseIsoDate(s).value) == s
  {
    var d := ParseIsoDate(s).value;
    assert d == Date(Value(s[..4]), Value(s[5..7]), Value(s[8..]));
    RewriteFields(s);
  }

  /** Writing back the fields of a `YYYY-MM-DD` string at their widths gives the string itself. */
  lemma RewriteFields(s: string)
    requires |s| == 10 && s[4] == '-' && s[7] == '-'
    requires AllDigits(s[..4]) && AllDigits(s[5..7]) && AllDigits(s[8..])
    ensures FixedWidth(Value(s[..4]), 4) + "-" + FixedWidth(Value(s[5..7]), 2) + "-" + FixedWidth(Value(s[8..]), 2) == s
  {
    FixedWidthOfValue(s[..4]);
    FixedWidthOfValue(s[5..7]);
    FixedWidthOfValue(s[8..]);
    assert s == s[..4] + "-" + s[5..7] + "-" + s[8..];
  }

  /** The plugin's default start date reads as 1 February 2025. */
  lemma ParseIsoDateExample()
    ensures ParseIsoDate("2025-02-01") == Some(Date(2025, 2, 1))
  {
    ParseFormat(Date(2025, 2, 1));
    FormatIsoDateExample();
  }

  lemma FormatIsoDateExample()
    ensures FormatIsoDate(Date(2025, 2, 1)) == "2025-02-01"
  {
    FixedWidthExamples();
    IsoLiteral();
  }

  lemma IsoLiteral()
    ensures "2025" + "-" + "02" + "-" + "01" == "2025-02-01"
  {
  }

  lemma FixedWidthExamples()
    ensures FixedWidth(2025, 4) == "2025"
    ensures FixedWidth(2, 2) == "02"
    ensures FixedWidth(1, 2) == "01"
  {
    assert FixedWidth(2025, 4) == "2025";
    assert FixedWidth(2, 2) == "02";
  }

  /** Short fields and a day the month does not have are rejected. */
  lemma ParseIsoDateRejects()
    ensures ParseIsoDate("2025-2-1") == None
    ensures ParseIsoDate("2025-02-30") == None
  {
    var s := "2025-02-30";
    assert s[5..7] == [s[5], s[6]] == "02";
    assert s[8..] == [s[8], s[9]] == "30";
    assert ['0', '2'][..1] == ['0'];
    assert ['3', '0'][..1] == ['3'];
  }

  /** The length of `now - start`, with `start` taken at midnight, in microseconds. */
  function ElapsedMicros(start: Date, now: Instant): int
    requires 1 <= start.month <= 12 && 1 <= now.date.month <= 12
  {
    (DayNumber(now.date) - DayNumber(start)) * MICROS_PER_DAY + now.micros
  }

  /** `timedelta.days`: the whole days of the difference, rounded toward minus infinity. */
  function ElapsedDays(start: Date, now: Instant): (days: int)
    requires 1 <= start.month <= 12 && 1 <= now.date.month <= 12
    ensures days * MICROS_PER_DAY <= ElapsedMicros(start, now) < (days + 1) * MICROS_PER_DAY
  {
    ElapsedMicros(start, now) / MICROS_PER_DAY
  }

  /** Since the start is a midnight, the whole days elapsed are the difference of the day numbers. */
  lemma ElapsedDaysIsDayDifference(start: Date, now: Instant)
    requires ValidDate(start) && ValidInstant(now)
    ensures ElapsedDays(start, now) == DayNumber(now.date) - DayNumber(start)
  {
    var q := DayNumber(now.date) - DayNumber(start);
    var r := ElapsedDays(start, now);
    assert (r - q) * MICROS_PER_DAY <= now.micros < (r - q + 1) * MICROS_PER_DAY;
  }
}
