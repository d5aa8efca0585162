/** Proleptic Gregorian dates as Python's `datetime.date` understands them:
    construction checks the year, month and day, and comparison is the
    lexicographic order of (year, month, day). */
module Calendar {
  import opened Results

  const MinYear: int := 1
  const MaxYear: int := 9999

  /** A (month, day) pair with no year, as the sign table stores its bounds. */
  datatype MonthDay = MonthDay(month: int, day: int)

  datatype Date = Date(year: int, month: int, day: int)

  predicate IsLeapYear(y: int) {
    y % 4 == 0 && (y % 100 != 0 || y % 400 == 0)
  }

  function DaysInMonth(y: int, m: int): (n: int)
    requires 1 <= m <= 12
    ensures 28 <= n <= 31
    ensures n == 29 <==> m == 2 && IsLeapYear(y)
  {
    if m == 2 then (if IsLeapYear(y) then 29 else 28)
    else if m == 4 || m == 6 || m == 9 || m == 11 then 30
    else 31
  }

  /** The arguments `datetime.date(y, m, d)` accepts without `ValueError`. */
  predicate IsValidDate(y: int, m: int, d: int) {
    MinYear <= y <= MaxYear && 1 <= m <= 12 && 1 <= d <= DaysInMonth(y, m)
  }

  /** A `datetime.date` object: always a valid date. */
  type CalendarDate = d: Date | IsValidDate(d.year, d.month, d.day) witness Date(2000, 1, 1)

  /** A month and day that occur in some year (February 29 included). */
  predicate IsValidMonthDay(md: MonthDay) {
    1 <= md.month <= 12 && 1 <= md.day <= DaysInMonth(2000, md.month)
  }

  function MonthDayOf(d: Date): MonthDay {
    MonthDay(d.month, d.day)
  }

  /** `datetime.date(y, md.month, md.day)`. */
  function MakeDate(y: int, md: MonthDay): (r: Result<Date>)
    ensures r.Ok? <==> IsValidDate(y, md.month, md.day)
    ensures r.Ok? ==> r.value.year == y && MonthDayOf(r.value) == md
    ensures r.Err? ==> r.error == ValueError
  {
    if IsValidDate(y, md.month, md.day) then Ok(Date(y, md.month, md.day))
    else Err(ValueError)
  }

  /** `a <= b` on `datetime.date`. */
  predicate DateLe(a: Date, b: Date) {
    a.year < b.year
    || (a.year == b.year && a.month < b.month)
    || (a.year == b.year && a.month == b.month && a.day <= b.day)
  }

  /** Lexicographic order on (month, day). */
  predicate MonthDayLe(a: MonthDay, b: MonthDay) {
    a.month < b.month || (a.month == b.month && a.day <= b.day)
  }

  /** `<=` on dates is a total order. */
  lemma DateLeTotalOrder(a: Date, b: Date, c: Date)
    ensures DateLe(a, a)
    ensures DateLe(a, b) && DateLe(b, a) ==> a == b
    ensures DateLe(a, b) && DateLe(b, c) ==> DateLe(a, c)
    ensures DateLe(a, b) || DateLe(b, a)
  {
  }

  /** Anchoring two month-days to one common year leaves their order unchanged. */
  lemma SameYearOrder(a: Date, b: Date)
    requires a.year == b.year
    ensures DateLe(a, b) <==> MonthDayLe(MonthDayOf(a), MonthDayOf(b))
  {
  }

  /** Every month has at least 28 days in every year. */
  lemma EarlyDayAlwaysValid(y: int, md: MonthDay)
    requires MinYear <= y <= MaxYear
    requires 1 <= md.month <= 12 && 1 <= md.day <= 28
    ensures IsValidDate(y, md.month, md.day)
  {
  }
}
