/** The twelve-sign table of `_initialize_zodiac_signs` and what resolution
    against it does for every calendar date. */
module Signs {
  import opened Results
  import opened Calendar
  import opened Zodiac

  const Aries: Sign := Sign("Овен", "♈", MonthDay(3, 21), MonthDay(4, 19), Fire, Cardinal, "Марс")
  const Taurus: Sign := Sign("Телец", "♉", MonthDay(4, 20), MonthDay(5, 20), Earth, Fixed, "Венера")
  const Gemini: Sign := Sign("Близнецы", "♊", MonthDay(5, 21), MonthDay(6, 20), Air, Mutable, "Меркурий")
  const Cancer: Sign := Sign("Рак", "♋", MonthDay(6, 21), MonthDay(7, 22), Water, Cardinal, "Луна")
  const Leo: Sign := Sign("Лев", "♌", MonthDay(7, 23), MonthDay(8, 22), Fire, Fixed, "Солнце")
  const Virgo: Sign := Sign("Дева", "♍", MonthDay(8, 23), MonthDay(9, 22), Earth, Mutable, "Меркурий")
  const Libra: Sign := Sign("Весы", "♎", MonthDay(9, 23), MonthDay(10, 22), Air, Cardinal, "Венера")
  const Scorpio: Sign := Sign("Скорпион", "♏", MonthDay(10, 23), MonthDay(11, 21), Water, Fixed, "Плутон")
  const Sagittarius: Sign := Sign("Стрелец", "♐", MonthDay(11, 22), MonthDay(12, 21), Fire, Mutable, "Юпитер")
  const Capricorn: Sign := Sign("Козерог", "♑", MonthDay(12, 22), MonthDay(1, 19), Earth, Cardinal, "Сатурн")
  const Aquarius: Sign := Sign("Водолей", "♒", MonthDay(1, 20), MonthDay(2, 18), Air, Fixed, "Уран")
  const Pisces: Sign := Sign("Рыбы", "♓", MonthDay(2, 19), MonthDay(3, 20), Water, Mutable, "Нептун")

  /** Table order is the order in which `get_zodiac_sign` tests the ranges
      and the order of the 30-degree sectors of the chart wheel. */
  const Table: seq<Sign> := [Aries, Taurus, Gemini, Cancer, Leo, Virgo,
                             Libra, Scorpio, Sagittarius, Capricorn, Aquarius, Pisces]

  const CapricornIndex: nat := 9

  /** The table's shape: twelve signs with distinct names, elements cycling
      fire, earth, air, water and qualities cycling cardinal, fixed, mutable
      in table order, each range starting the day after the previous one
      ends. */
  lemma TableShape()
    ensures |Table| == 12
    ensures forall i, j :: 0 <= i < j < |Table| ==> Table[i].name != Table[j].name
    ensures forall i :: 0 <= i < |Table| ==> Table[i].element == [Fire, Earth, Air, Water][i % 4]
    ensures forall i :: 0 <= i < |Table| ==> Table[i].quality == [Cardinal, Fixed, Mutable][i % 3]
    ensures forall i :: 0 < i < |Table| ==> Table[i].start == MonthDay(Table[i - 1].end.month, Table[i - 1].end.day + 1)
    ensures Table[0].start == MonthDay(Table[|Table| - 1].end.month, Table[|Table| - 1].end.day + 1)
  {
  }

  /** December 22 – January 19: the dates Capricorn's range is meant to hold. */
  predicate InCapricornSeason(md: MonthDay) {
    (md.month == 12 && md.day >= 22) || (md.month == 1 && md.day <= 19)
  }

  /** Reference zodiac: the day of month `m` on which a new sign begins. */
  function CuspDay(m: int): int
    requires 1 <= m <= 12
  {
    [20, 19, 21, 20, 21, 21, 23, 23, 23, 23, 22, 22][m - 1]
  }

  /** Reference zodiac: table index of the sign that begins in month `m`
      (January: Aquarius, March: Aries, December: Capricorn). */
  function BeginsIn(m: int): nat
    requires 1 <= m <= 12
  {
    (m + 9) % 12
  }

  /** Reference zodiac: the sign of `md` is the one that began in this month
      if the cusp is reached, else the one that began the month before. */
  function ReferenceIndex(md: MonthDay): (k: nat)
    requires 1 <= md.month <= 12
    ensures k < |Table|
  {
    if md.day >= CuspDay(md.month) then BeginsIn(md.month)
    else BeginsIn(if md.month == 1 then 12 else md.month - 1)
  }

  /** No bound of the table is February 29 or a day past 28, so building the
      bound dates never raises, whatever the birth year. */
  lemma BoundsExistEveryYear(y: int)
    requires MinYear <= y <= MaxYear
    ensures forall j :: 0 <= j < |Table| ==> BoundsExistIn(Table[j], y)
  {
    forall j | 0 <= j < |Table|
      ensures BoundsExistIn(Table[j], y)
    {
      var s := Table[j];
      assert 1 <= s.start.month <= 12 && 1 <= s.start.day <= 28;
      assert 1 <= s.end.month <= 12 && 1 <= s.end.day <= 28;
      EarlyDayAlwaysValid(y, s.start);
      EarlyDayAlwaysValid(y, s.end);
    }
  }

  /** `get_zodiac_sign` on the real table never raises and its answer
      depends on the month and day only. */
  lemma SunSignTotal(birth: CalendarDate)
    ensures SunSign(Table, birth) == Ok(ResolveMonthDay(Table, MonthDayOf(birth)))
  {
    BoundsExistEveryYear(birth.year);
  }

  /** Capricorn's start (12, 22) lies after its end (1, 19), so the range test
      fails for every date. */
  lemma CapricornRangeEmpty(md: MonthDay)
    requires IsValidMonthDay(md)
    ensures !InRange(Table[CapricornIndex], md)
  {
  }

  /** A range of the table that holds `md` is the reference sign's range. */
  lemma InRangeIsReference(md: MonthDay, k: nat)
    requires IsValidMonthDay(md)
    requires k < |Table| && InRange(Table[k], md)
    ensures k == ReferenceIndex(md) && k != CapricornIndex
  {
  }

  /** The eleven ranges other than Capricorn's are pairwise disjoint. */
  lemma RangesDisjoint(md: MonthDay, j: nat, k: nat)
    requires IsValidMonthDay(md)
    requires j < |Table| && k < |Table|
    requires InRange(Table[j], md) && InRange(Table[k], md)
    ensures j == k
  {
    InRangeIsReference(md, j);
    InRangeIsReference(md, k);
  }

  /** Outside December 22 – January 19 the reference sign's range holds
      the date: the eleven ranges cover January 20 – December 21. */
  lemma RangesCover(md: MonthDay)
    requires IsValidMonthDay(md) && !InCapricornSeason(md)
    ensures ReferenceIndex(md) != CapricornIndex
    ensures InRange(Table[ReferenceIndex(md)], md)
  {
  }

  /** From January 20 to December 21 resolution returns exactly the
      reference sign. */
  lemma ResolveOutsideCapricornSeason(md: MonthDay)
    requires IsValidMonthDay(md) && !InCapricornSeason(md)
    ensures ResolveMonthDay(Table, md) == Table[ReferenceIndex(md)]
  {
    var r := ReferenceIndex(md);
    RangesCover(md);
    forall j | 0 <= j < r
      ensures !InRange(Table[j], md)
    {
      if InRange(Table[j], md) {
        RangesDisjoint(md, j, r);
      }
    }
  }

  /** From December 22 to January 19 no range holds the date, so
      resolution falls through to the last entry, Pisces. */
  lemma ResolveInCapricornSeason(md: MonthDay)
    requires IsValidMonthDay(md) && InCapricornSeason(md)
    ensures forall k :: 0 <= k < |Table| ==> !InRange(Table[k], md)
    ensures ResolveMonthDay(Table, md) == Pisces
  {
    forall k | 0 <= k < |Table|
      ensures !InRange(Table[k], md)
    {
      if InRange(Table[k], md) {
        InRangeIsReference(md, k);
      }
    }
  }

  /** Every result of `get_zodiac_sign` is a table entry, and it is never
      Capricorn. */
  lemma SunSignNeverCapricorn(birth: CalendarDate)
    ensures SunSign(Table, birth).Ok?
    ensures SunSign(Table, birth).value in Table
    ensures SunSign(Table, birth).value != Capricorn
  {
    var md := MonthDayOf(birth);
    SunSignTotal(birth);
    if InCapricornSeason(md) {
      ResolveInCapricornSeason(md);
    } else {
      ResolveOutsideCapricornSeason(md);
    }
  }

  /** December 22 – January 19 of any year resolves to Pisces. */
  lemma CapricornSeasonIsPisces(birth: CalendarDate)
    requires InCapricornSeason(MonthDayOf(birth))
    ensures SunSign(Table, birth) == Ok(Pisces)
  {
    SunSignTotal(birth);
    ResolveInCapricornSeason(MonthDayOf(birth));
  }

  /** March 21 opens Aries; March 20 still belongs to Pisces. */
  lemma AriesCusp()
    ensures SunSign(Table, Date(2000, 3, 21)) == Ok(Aries)
    ensures SunSign(Table, Date(2000, 3, 20)) == Ok(Pisces)
  {
    SunSignTotal(Date(2000, 3, 21));
    ResolveOutsideCapricornSeason(MonthDay(3, 21));
    SunSignTotal(Date(2000, 3, 20));
    ResolveOutsideCapricornSeason(MonthDay(3, 20));
  }

  lemma JulyFourthIsCancer()
    ensures SunSign(Table, Date(1990, 7, 4)) == Ok(Cancer)
  {
    SunSignTotal(Date(1990, 7, 4));
    ResolveOutsideCapricornSeason(MonthDay(7, 4));
  }

  lemma LeapDayIsPisces()
    ensures SunSign(Table, Date(2020, 2, 29)) == Ok(Pisces)
  {
    assert IsLeapYear(2020) && DaysInMonth(2020, 2) == 29;
    var leapDay: CalendarDate := Date(2020, 2, 29);
    SunSignTotal(leapDay);
    ResolveOutsideCapricornSeason(MonthDay(2, 29));
  }

  /** New Year's Eve and New Year's Day both resolve to Pisces. */
  lemma NewYearIsPisces()
    ensures SunSign(Table, Date(1999, 12, 31)) == Ok(Pisces)
    ensures SunSign(Table, Date(2000, 1, 1)) == Ok(Pisces)
  {
    CapricornSeasonIsPisces(Date(1999, 12, 31));
    CapricornSeasonIsPisces(Date(2000, 1, 1));
  }

  // ---------------------------------------------------------------------
  // The wrap-aware resolution gives every date of the year exactly one sign.

  /** Under wrap-aware membership the ranges partition the year: the
      reference sign's range, and only it, holds each date. */
  lemma WrappingRangesPartition(md: MonthDay, k: nat)
    requires IsValidMonthDay(md) && k < |Table|
    ensures InWrappingRange(Table[k], md) <==> k == ReferenceIndex(md)
  {
  }

  /** Wrap-aware resolution returns the reference sign for every date,
      Capricorn included. */
  lemma WrappingResolveIsReference(md: MonthDay)
    requires IsValidMonthDay(md)
    ensures ResolveWrapping(Table, md) == Table[ReferenceIndex(md)]
  {
    var r := ReferenceIndex(md);
    WrappingRangesPartition(md, r);
    forall j | 0 <= j < r
      ensures !InWrappingRange(Table[j], md)
    {
      WrappingRangesPartition(md, j);
    }
  }

  lemma WrappingExampleDates()
    ensures ResolveWrapping(Table, MonthDay(12, 31)) == Capricorn
    ensures ResolveWrapping(Table, MonthDay(1, 1)) == Capricorn
    ensures ResolveWrapping(Table, MonthDay(1, 20)) == Aquarius
  {
    WrappingResolveIsReference(MonthDay(12, 31));
    WrappingResolveIsReference(MonthDay(1, 1));
    WrappingResolveIsReference(MonthDay(1, 20));
  }
}
