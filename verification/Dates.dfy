/** Calendar dates as YYYYMMDD integers, ordered as their ISO texts are; months as YYYYMM. */
module Dates {

  type Date = int
  type Month = int

  function YearOf(d: Date): int { d / 10000 }
  function MonthNumber(d: Date): int { d / 100 % 100 }
  function DayOf(d: Date): int { d % 100 }

  /** The period an entry date falls in: the first seven characters of its ISO text. */
  function MonthOf(d: Date): Month { d / 100 }

  predicate IsLeap(y: int) {
    (y % 4 == 0 && y % 100 != 0) || y % 400 == 0
  }

  function DaysIn(y: int, m: int): (n: int)
    ensures 28 <= n <= 31
  {
    if m == 2 then (if IsLeap(y) then 29 else 28)
    else if m == 4 || m == 6 || m == 9 || m == 11 then 30
    else 31
  }

  predicate ValidDate(d: Date) {
    d > 10000 && 1 <= MonthNumber(d) <= 12 && 1 <= DayOf(d) <= DaysIn(YearOf(d), MonthNumber(d))
  }

  function FromParts(y: int, m: int, d: int): Date {
    y * 10000 + m * 100 + d
  }

  /** `previousDay`: step the day, borrowing from the month and then from the year. */
  function PreviousDay(date: Date): Date {
    var y, m, d := YearOf(date), MonthNumber(date), DayOf(date) - 1;
    if d >= 1 then FromParts(y, m, d)
    else if m - 1 >= 1 then FromParts(y, m - 1, DaysIn(y, m - 1))
    else FromParts(y - 1, 12, 31)
  }

  lemma PartsOf(y: int, m: int, d: int)
    requires y >= 0 && 0 <= m < 100 && 0 <= d < 100
    ensures var date := FromParts(y, m, d);
            YearOf(date) == y && MonthNumber(date) == m && DayOf(date) == d
  {
  }

  /** Dates compare as their year, month and day do, in that order of weight. */
  lemma ComparesByParts(a: Date, b: Date)
    ensures a < b <==>
      || YearOf(a) < YearOf(b)
      || (YearOf(a) == YearOf(b) && MonthNumber(a) < MonthNumber(b))
      || (YearOf(a) == YearOf(b) && MonthNumber(a) == MonthNumber(b) && DayOf(a) < DayOf(b))
  {
    assert a == FromParts(YearOf(a), MonthNumber(a), DayOf(a));
    assert b == FromParts(YearOf(b), MonthNumber(b), DayOf(b));
  }

  /** There is no valid date between a date and the one `PreviousDay` returns. */
  lemma PreviousDayIsAdjacent(from: Date, d: Date)
    requires ValidDate(from) && ValidDate(d)
    ensures d < from <==> d <= PreviousDay(from)
  {
    var y, m := YearOf(from), MonthNumber(from);
    var previous := PreviousDay(from);
    if DayOf(from) > 1 {
      PartsOf(y, m, DayOf(from) - 1);
    } else if m > 1 {
      PartsOf(y, m - 1, DaysIn(y, m - 1));
    } else {
      PartsOf(y - 1, 12, 31);
    }
    ComparesByParts(d, from);
    ComparesByParts(previous, d);
  }

  /** The last day of a calendar month. */
  predicate IsMonthEnd(d: Date) {
    ValidDate(d) && DayOf(d) == DaysIn(YearOf(d), MonthNumber(d))
  }

  // --- day numbers ----------------------------------------------------------------------------

  function DaysBeforeYear(y: int): int {
    365 * y + (y + 3) / 4 - (y + 99) / 100 + (y + 399) / 400
  }

  function DaysBeforeMonth(y: int, m: int): int {
    if m <= 1 then 0 else DaysBeforeMonth(y, m - 1) + DaysIn(y, m - 1)
  }

  /** Days since the first of January of year zero: consecutive dates have consecutive numbers. */
  function DayNumber(d: Date): int {
    DaysBeforeYear(YearOf(d)) + DaysBeforeMonth(YearOf(d), MonthNumber(d)) + DayOf(d) - 1
  }

  lemma Fours(y: int)
    ensures (y + 4) / 4 == (y + 3) / 4 + if y % 4 == 0 then 1 else 0
  {
  }

  lemma Hundreds(y: int)
    ensures (y + 100) / 100 == (y + 99) / 100 + if y % 100 == 0 then 1 else 0
    ensures y % 100 == 0 ==> y % 4 == 0
  {
  }

  lemma FourHundreds(y: int)
    ensures (y + 400) / 400 == (y + 399) / 400 + if y % 400 == 0 then 1 else 0
    ensures y % 400 == 0 ==> y % 100 == 0
  {
  }

  lemma YearLength(y: int)
    ensures DaysBeforeYear(y + 1) == DaysBeforeYear(y) + if IsLeap(y) then 366 else 365
  {
    Fours(y);
    Hundreds(y);
    FourHundreds(y);
  }

  lemma YearEndsAt(y: int)
    ensures DaysBeforeMonth(y, 12) + 31 == if IsLeap(y) then 366 else 365
  {
    assert DaysBeforeMonth(y, 2) == 31;
    assert DaysBeforeMonth(y, 3) == 31 + DaysIn(y, 2);
    assert DaysBeforeMonth(y, 5) == DaysBeforeMonth(y, 3) + 61;
    assert DaysBeforeMonth(y, 7) == DaysBeforeMonth(y, 5) + 61;
    assert DaysBeforeMonth(y, 9) == DaysBeforeMonth(y, 7) + 62;
    assert DaysBeforeMonth(y, 11) == DaysBeforeMonth(y, 9) + 61;
  }

  /** The day before has the number before. */
  lemma PreviousDayNumber(d: Date)
    requires ValidDate(d)
    ensures DayNumber(PreviousDay(d)) == DayNumber(d) - 1
  {
    var y, m := YearOf(d), MonthNumber(d);
    if DayOf(d) > 1 {
      PartsOf(y, m, DayOf(d) - 1);
    } else if m > 1 {
      PartsOf(y, m - 1, DaysIn(y, m - 1));
    } else {
      PartsOf(y - 1, 12, 31);
      YearLength(y - 1);
      YearEndsAt(y - 1);
    }
  }
}
