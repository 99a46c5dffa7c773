/**
The proleptic Gregorian calendar of section 21.4.1 of ECMA-262: day numbers from 1 January 1970,
years, months and the day `MakeDay` gives a month index outside 0 to 11.
*/
module Calendar {
  import opened Prelude

  predicate IsLeap(y: int) { y % 4 == 0 && (y % 100 != 0 || y % 400 == 0) }

  function DaysInYear(y: int): int { if IsLeap(y) then 366 else 365 }

  /** The day number of 1 January. */
  function DayFromYear(y: int): int {
    365 * (y - 1970) + (y - 1969) / 4 - (y - 1901) / 100 + (y - 1601) / 400
  }

  lemma YearLength(y: int)
    ensures DayFromYear(y + 1) == DayFromYear(y) + DaysInYear(y)
  {
    Fourth(y);
    Hundredth(y);
    FourHundredth(y);
    LeapMultiples(y);
  }

  lemma LeapMultiples(y: int)
    ensures (y % 400 == 0 ==> y % 100 == 0) && (y % 100 == 0 ==> y % 4 == 0)
  {}

  // A quotient rises by one exactly where the next number is a multiple.

  lemma Fourth(y: int)
    ensures (y - 1968) / 4 == (y - 1969) / 4 + if y % 4 == 0 then 1 else 0
  {}

  lemma Hundredth(y: int)
    ensures (y - 1900) / 100 == (y - 1901) / 100 + if y % 100 == 0 then 1 else 0
  {}

  lemma FourHundredth(y: int)
    ensures (y - 1600) / 400 == (y - 1601) / 400 + if y % 400 == 0 then 1 else 0
  {}

  /** The last year from `y` on that has begun by day `d`. */
  function YearFrom(d: int, y: int): (r: int)
    requires DayFromYear(y) <= d
    ensures DayFromYear(r) <= d < DayFromYear(r + 1)
    decreases d - DayFromYear(y)
  {
    YearLength(y);
    if DayFromYear(y + 1) <= d then YearFrom(d, y + 1) else y
  }

  /** `YearFromTime`: the largest year that has begun by day `d`. */
  function YearFromDay(d: int): (y: int)
    ensures DayFromYear(y) <= d < DayFromYear(y + 1)
  {
    var guess := 1970 + if d >= 0 then d / 366 else d / 365 - 1;
    assert DayFromYear(guess) <= d by { GuessIsLow(d); }
    YearFrom(d, guess)
  }

  lemma GuessIsLow(d: int)
    ensures DayFromYear(1970 + if d >= 0 then d / 366 else d / 365 - 1) <= d
  {
    var k := if d >= 0 then d / 366 else d / 365 - 1;
    assert DayFromYear(1970 + k) == 365 * k + (k + 1) / 4 - (k + 69) / 100 + (k + 369) / 400;
    if d >= 0 {
      assert (k + 1) / 4 - (k + 69) / 100 + (k + 369) / 400 <= k;
      assert 366 * k <= d;
    } else {
      assert (k + 1) / 4 - (k + 69) / 100 + (k + 369) / 400 <= 1;
    }
  }

  /** Days of a year before its month `m`, months counted from 0. */
  function DaysBefore(m: int, leap: bool): int
    requires 0 <= m <= 12
  {
    [0, 31, 59, 90, 120, 151, 181, 212, 243, 273, 304, 334, 365][m] + if leap && m >= 2 then 1 else 0
  }

  /** `MonthFromTime`, by the day within the year. */
  function MonthIn(day: int, leap: bool): (m: int)
    requires 0 <= day < if leap then 366 else 365
    ensures 0 <= m < 12 && DaysBefore(m, leap) <= day < DaysBefore(m + 1, leap)
  {
    if day < DaysBefore(1, leap) then 0 else if day < DaysBefore(2, leap) then 1
    else if day < DaysBefore(3, leap) then 2 else if day < DaysBefore(4, leap) then 3
    else if day < DaysBefore(5, leap) then 4 else if day < DaysBefore(6, leap) then 5
    else if day < DaysBefore(7, leap) then 6 else if day < DaysBefore(8, leap) then 7
    else if day < DaysBefore(9, leap) then 8 else if day < DaysBefore(10, leap) then 9
    else if day < DaysBefore(11, leap) then 10 else 11
  }

  function MonthFromDay(d: int): (m: int)
    ensures 0 <= m < 12
  {
    var y := YearFromDay(d);
    YearLength(y);
    MonthIn(d - DayFromYear(y), IsLeap(y))
  }

  /** `DateFromTime`: the day of the month, from 1. */
  function DateFromDay(d: int): int {
    var y := YearFromDay(d);
    d - DayFromYear(y) - DaysBefore(MonthFromDay(d), IsLeap(y)) + 1
  }

  /** `MakeDay`: a month outside 0 to 11 carries into the year, and a date outside the month into the days. */
  function MakeDay(year: int, month: int, date: int): int {
    MonthStart(12 * year + month) + date - 1
  }

  /** The day number on which month `k`, counted from January of year 0, begins. */
  function MonthStart(k: int): int { DayFromYear(k / 12) + DaysBefore(k % 12, IsLeap(k / 12)) }

  function MonthLength(k: int): int { MonthStart(k + 1) - MonthStart(k) }

  lemma MonthLengths(k: int)
    ensures 28 <= MonthLength(k) <= 31
  {
    if k % 12 == 11 {
      YearLength(k / 12);
      assert (k + 1) / 12 == k / 12 + 1 && (k + 1) % 12 == 0;
    } else {
      assert (k + 1) / 12 == k / 12 && (k + 1) % 12 == k % 12 + 1;
    }
  }

  /** The twelve lengths, and February's in a leap year. */
  lemma MonthLengthIs(year: int, month: int)
    requires 0 <= month < 12
    ensures MonthLength(12 * year + month)
         == if month == 1 && IsLeap(year) then 29 else [31, 28, 31, 30, 31, 30, 31, 31, 30, 31, 30, 31][month]
  {
    hide DayFromYear, IsLeap;
    var k := 12 * year + month;
    assert k / 12 == year && k % 12 == month;
    if month == 11 {
      YearLength(year);
      assert (k + 1) / 12 == year + 1 && (k + 1) % 12 == 0;
    } else {
      assert (k + 1) / 12 == year && (k + 1) % 12 == month + 1;
    }
  }

  /** Days are counted from the first of January 1970. */
  lemma EpochIsDayZero()
    ensures MonthStart(12 * 1970) == 0
  {}

  /** The month a day falls in. */
  function MonthOf(d: int): int { 12 * YearFromDay(d) + MonthFromDay(d) }

  lemma MonthHolds(d: int)
    ensures MonthStart(MonthOf(d)) <= d < MonthStart(MonthOf(d) + 1)
    ensures MonthOf(d) / 12 == YearFromDay(d)
    ensures DateFromDay(d) == d - MonthStart(MonthOf(d)) + 1
  {
    hide DayFromYear, IsLeap;
    var y, m := YearFromDay(d), MonthFromDay(d);
    assert MonthOf(d) / 12 == y && MonthOf(d) % 12 == m;
    if m == 11 {
      YearLength(y);
      assert (MonthOf(d) + 1) / 12 == y + 1 && (MonthOf(d) + 1) % 12 == 0;
    } else {
      assert (MonthOf(d) + 1) / 12 == y && (MonthOf(d) + 1) % 12 == m + 1;
    }
  }

  lemma {:induction false} LaterMonth(j: int, k: int)
    requires j < k
    ensures MonthStart(j + 1) <= MonthStart(k)
    decreases k - j
  {
    hide MonthStart;
    if j + 1 < k {
      MonthLengths(k - 1);
      LaterMonth(j, k - 1);
    }
  }

  /** A day lies in one month only. */
  lemma MonthUnique(d: int, k: int)
    ensures MonthStart(k) <= d < MonthStart(k + 1) <==> MonthOf(d) == k
  {
    hide MonthStart, MonthOf;
    MonthHolds(d);
    var m := MonthOf(d);
    if m < k { LaterMonth(m, k); }
    if k < m { LaterMonth(k, m); }
  }
}
