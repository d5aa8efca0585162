/** Sun-sign resolution over an arbitrary sign table: `ZodiacSign` and
    `HoroscopeGenerator.get_zodiac_sign`. */
module Zodiac {
  import opened Results
  import opened Calendar

  datatype Element = Fire | Earth | Air | Water

  datatype Quality = Cardinal | Fixed | Mutable

  /** One row of the sign table. The range bounds are month-day pairs
      without a year; `ruler` is the ruling body's name. */
  datatype Sign = Sign(
    name: string,
    symbol: string,
    start: MonthDay,
    end: MonthDay,
    element: Element,
    quality: Quality,
    ruler: string)

  /** The test `start <= birth <= end` once both bounds are anchored to the
      birth year, stated without any year. */
  predicate InRange(s: Sign, md: MonthDay) {
    MonthDayLe(s.start, md) && MonthDayLe(md, s.end)
  }

  /** Both bounds of `s` are real dates in year `y`. */
  predicate BoundsExistIn(s: Sign, y: int) {
    IsValidDate(y, s.start.month, s.start.day) && IsValidDate(y, s.end.month, s.end.day)
  }

  /** Index of the first sign at or after `i` whose range holds `md`. */
  function FirstInRange(table: seq<Sign>, md: MonthDay, i: nat): (r: Option<nat>)
    requires i <= |table|
    decreases |table| - i
    ensures r.Some? ==> i <= r.value < |table| && InRange(table[r.value], md)
    ensures r.Some? ==> forall j :: i <= j < r.value ==> !InRange(table[j], md)
    ensures r.None? <==> forall j :: i <= j < |table| ==> !InRange(table[j], md)
  {
    if i == |table| then None
    else if InRange(table[i], md) then Some(i)
    else FirstInRange(table, md, i + 1)
  }

  /** The sign a first-match lookup with a last-entry fallback yields for
      `md`, with no year involved. */
  function ResolveMonthDay(table: seq<Sign>, md: MonthDay): (s: Sign)
    requires |table| > 0
    ensures s in table
    ensures forall k ::
              (0 <= k < |table| && InRange(table[k], md) && forall j :: 0 <= j < k ==> !InRange(table[j], md))
              ==> s == table[k]
    ensures (forall k :: 0 <= k < |table| ==> !InRange(table[k], md)) ==> s == table[|table| - 1]
  {
    match FirstInRange(table, md, 0)
    case Some(k) => table[k]
    case None => table[|table| - 1]
  }

  /** The loop of `get_zodiac_sign` from position `i`: builds both bound dates
      in the birth year (either may raise `ValueError`), then tests
      `start <= birth <= end`, returning the index of the first hit. */
  function Scan(table: seq<Sign>, birth: CalendarDate, i: nat): (r: Result<Option<nat>>)
    requires i <= |table|
    decreases |table| - i
    ensures r.Ok? ==> r.value == FirstInRange(table, MonthDayOf(birth), i)
    ensures r.Err? <==> exists j :: i <= j < |table| && !BoundsExistIn(table[j], birth.year)
                                    && forall k :: i <= k < j ==> !InRange(table[k], MonthDayOf(birth))
    ensures r.Err? ==> r.error == ValueError
  {
    if i == |table| then Ok(None)
    else
      match MakeDate(birth.year, table[i].start)
      case Err(e) => Err(e)
      case Ok(start) =>
        match MakeDate(birth.year, table[i].end)
        case Err(e) => Err(e)
        case Ok(end) =>
          SameYearOrder(start, birth);
          SameYearOrder(birth, end);
          if DateLe(start, birth) && DateLe(birth, end) then Ok(Some(i))
          else Scan(table, birth, i + 1)
  }

  /** `get_zodiac_sign`: the first sign whose range holds the birth date,
      falling back to `self.zodiac_signs[-1]` when none does (which raises
      `IndexError` on an empty table). */
  function SunSign(table: seq<Sign>, birth: CalendarDate): (r: Result<Sign>)
    ensures r.Ok? ==> |table| > 0 && r.value == ResolveMonthDay(table, MonthDayOf(birth))
    ensures |table| > 0 && (forall j :: 0 <= j < |table| ==> BoundsExistIn(table[j], birth.year)) ==> r.Ok?
    ensures |table| == 0 ==> r == Err(IndexError)
    ensures |table| > 0 && r.Err? ==> r.error == ValueError
  {
    match Scan(table, birth, 0)
    case Err(e) => Err(e)
    case Ok(Some(k)) => Ok(table[k])
    case Ok(None) => PyIndex(table, -1)
  }

  /** When every bound exists in both birth years, two birthdays on the same
      month and day resolve to the same sign: the year only anchors. */
  lemma SunSignIgnoresYear(table: seq<Sign>, b1: CalendarDate, b2: CalendarDate)
    requires |table| > 0
    requires MonthDayOf(b1) == MonthDayOf(b2)
    requires forall j :: 0 <= j < |table| ==> BoundsExistIn(table[j], b1.year) && BoundsExistIn(table[j], b2.year)
    ensures SunSign(table, b1).Ok? && SunSign(table, b1) == SunSign(table, b2)
  {
  }

  // ---------------------------------------------------------------------
  // Wrap-aware resolution (the intended behaviour for a range such as
  // December 22 – January 19 whose start lies after its end).

  /** Range membership that treats a start after the end as wrapping the
      year end. */
  predicate InWrappingRange(s: Sign, md: MonthDay) {
    if MonthDayLe(s.start, s.end) then InRange(s, md)
    else MonthDayLe(s.start, md) || MonthDayLe(md, s.end)
  }

  function FirstInWrappingRange(table: seq<Sign>, md: MonthDay, i: nat): (r: Option<nat>)
    requires i <= |table|
    decreases |table| - i
    ensures r.Some? ==> i <= r.value < |table| && InWrappingRange(table[r.value], md)
    ensures r.Some? ==> forall j :: i <= j < r.value ==> !InWrappingRange(table[j], md)
    ensures r.None? <==> forall j :: i <= j < |table| ==> !InWrappingRange(table[j], md)
  {
    if i == |table| then None
    else if InWrappingRange(table[i], md) then Some(i)
    else FirstInWrappingRange(table, md, i + 1)
  }

  /** First-match lookup with wrap-aware ranges and the same fallback. */
  function ResolveWrapping(table: seq<Sign>, md: MonthDay): (s: Sign)
    requires |table| > 0
    ensures s in table
    ensures forall k ::
              (0 <= k < |table| && InWrappingRange(table[k], md) && forall j :: 0 <= j < k ==> !InWrappingRange(table[j], md))
              ==> s == table[k]
    ensures (forall k :: 0 <= k < |table| ==> !InWrappingRange(table[k], md)) ==> s == table[|table| - 1]
  {
    match FirstInWrappingRange(table, md, 0)
    case Some(k) => table[k]
    case None => table[|table| - 1]
  }
}
