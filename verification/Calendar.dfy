/** Calendar days as ECMAScript's Date counts them: MakeDay of section 15.9.1.12
    of ECMA-262 5.1, and back. Day 0 is 1 January 1970, months count from 0. */
module Calendar {

  predicate Leap(y: int) {
    y % 4 == 0 && (y % 100 != 0 || y % 400 == 0)
  }

  function YearLength(y: int): int { if Leap(y) then 366 else 365 }

  /** Number of the first day of year y. Division rounds towards minus infinity. */
  function DayFromYear(y: int): int {
    365 * (y - 1970) + (y - 1969) / 4 - (y - 1901) / 100 + (y - 1601) / 400
  }

  const DAYS_BEFORE: seq<int> := [0, 31, 59, 90, 120, 151, 181, 212, 243, 273, 304, 334, 365]

  /** Days of the year before month m; m == 12 gives the year's length. */
  function DaysBefore(leap: bool, m: int): int
    requires 0 <= m <= 12
  {
    DAYS_BEFORE[m] + if leap && m >= 2 then 1 else 0
  }

  function DaysInMonth(y: int, m: int): int
    requires 0 <= m < 12
  {
    DaysBefore(Leap(y), m + 1) - DaysBefore(Leap(y), m)
  }

  /** Months and days outside their range carry over. */
  function MakeDay(y: int, m: int, d: int): int {
    var year := y + m / 12;
    DayFromYear(year) + DaysBefore(Leap(year), m % 12) + d - 1
  }

  /** The months of the Gregorian calendar. With the epoch below, and every month
      starting where the one before ends, they settle the number of every day. */
  lemma MonthTable(y: int, m: int)
    requires 0 <= m < 12
    ensures m != 1 ==> DaysInMonth(y, m) == [31, 28, 31, 30, 31, 30, 31, 31, 30, 31, 30, 31][m]
    ensures DaysInMonth(y, 1) == if y % 400 == 0 || (y % 4 == 0 && y % 100 != 0) then 29 else 28
  {
    MultiplesOfFourHundred(y);
  }

  /** Day 0, and the days that begin two other centuries. */
  lemma Epoch()
    ensures DayFromYear(1970) == 0 && DayFromYear(2000) == 10957 && DayFromYear(1900) == -25567
  {
  }

  /** A year starts with its first month, every month where the one before ends, and the
      days of a month follow one another. */
  lemma MonthsFollow(y: int, m: int, d: int)
    requires 0 <= m < 12
    ensures MakeDay(y, 0, 1) == DayFromYear(y)
    ensures MakeDay(y, m + 1, 1) == MakeDay(y, m, 1) + DaysInMonth(y, m)
    ensures MakeDay(y, m, d) == MakeDay(y, m, 1) + d - 1
  {
    hide DayFromYear;
    NextYear(y);
    MakeDayInYear(y, 0, 1);
    MakeDayInYear(y, m, 1);
    MakeDayInYear(y, m, d);
    if m < 11 {
      MakeDayInYear(y, m + 1, 1);
    } else {
      assert MakeDay(y, 12, 1) == DayFromYear(y + 1) by {
        assert 12 / 12 == 1 && 12 % 12 == 0;
      }
    }
  }

  lemma EveryFourYears(y: int)
    ensures (y - 1968) / 4 == (y - 1969) / 4 + if y % 4 == 0 then 1 else 0
  {
    var q, r := (y - 1969) / 4, (y - 1969) % 4;
    assert y - 1968 == 4 * q + (r + 1);
    assert y == 4 * (q + 492) + (r + 1);
    if r == 3 {
      assert y == 4 * (q + 493);
    }
  }

  lemma EveryHundredYears(y: int)
    ensures (y - 1900) / 100 == (y - 1901) / 100 + if y % 100 == 0 then 1 else 0
  {
    var q, r := (y - 1901) / 100, (y - 1901) % 100;
    assert y - 1900 == 100 * q + (r + 1);
    assert y == 100 * (q + 19) + (r + 1);
    if r == 99 {
      assert y == 100 * (q + 20);
    }
  }

  lemma EveryFourHundredYears(y: int)
    ensures (y - 1600) / 400 == (y - 1601) / 400 + if y % 400 == 0 then 1 else 0
  {
    var q, r := (y - 1601) / 400, (y - 1601) % 400;
    assert y - 1600 == 400 * q + (r + 1);
    assert y == 400 * (q + 4) + (r + 1);
    if r == 399 {
      assert y == 400 * (q + 5);
    }
  }

  lemma MultiplesOfFourHundred(y: int)
    ensures y % 400 == 0 ==> y % 100 == 0
    ensures y % 100 == 0 ==> y % 4 == 0
  {
  }

  lemma NextYear(y: int)
    ensures DayFromYear(y + 1) == DayFromYear(y) + YearLength(y)
  {
    EveryFourYears(y);
    EveryHundredYears(y);
    EveryFourHundredYears(y);
    MultiplesOfFourHundred(y);
    assert DayFromYear(y + 1) - DayFromYear(y)
           == 365 + ((y - 1968) / 4 - (y - 1969) / 4) - ((y - 1900) / 100 - (y - 1901) / 100)
              + ((y - 1600) / 400 - (y - 1601) / 400);
  }

  lemma {:induction false} YearsIncrease(a: int, b: int)
    requires a <= b
    ensures DayFromYear(a) + 365 * (b - a) <= DayFromYear(b)
    decreases b - a
  {
    if a < b {
      NextYear(b - 1);
      YearsIncrease(a, b - 1);
    }
  }

  ghost predicate InYear(day: int, y: int) {
    DayFromYear(y) <= day < DayFromYear(y + 1)
  }

  lemma YearGuess(day: int)
    ensures DayFromYear(1970 + (if day >= 0 then day / 366 else day / 365)) <= day
  {
    if day >= 0 {
      var k := day / 366;
      assert (k + 1) / 4 - (k + 69) / 100 + (k + 369) / 400 <= k;
    } else {
      var k := day / 365;
      assert (k + 1) / 4 - (k + 69) / 100 + (k + 369) / 400 <= 0;
    }
  }

  lemma {:induction false} SomeYear(from: int, day: int) returns (y: int)
    requires DayFromYear(from) <= day
    ensures InYear(day, y)
    decreases day - DayFromYear(from)
  {
    NextYear(from);
    if day < DayFromYear(from + 1) {
      y := from;
    } else {
      y := SomeYear(from + 1, day);
    }
  }

  lemma YearExists(day: int)
    ensures exists y: int :: InYear(day, y)
  {
    YearGuess(day);
    var y := SomeYear(1970 + (if day >= 0 then day / 366 else day / 365), day);
  }

  lemma YearUnique(y: int, z: int, day: int)
    requires InYear(day, y) && InYear(day, z)
    ensures y == z
  {
    if z < y {
      YearsIncrease(z + 1, y);
    } else if y < z {
      YearsIncrease(y + 1, z);
    }
  }

  /** The year a day lies in. */
  ghost function YearOf(day: int): (y: int)
    ensures InYear(day, y)
  {
    YearExists(day);
    var y: int :| InYear(day, y);
    y
  }

  ghost predicate InMonth(leap: bool, k: int, m: int) {
    0 <= m < 12 && DaysBefore(leap, m) <= k < DaysBefore(leap, m + 1)
  }

  lemma {:induction false} SomeMonth(leap: bool, k: int, upTo: int) returns (m: int)
    requires 0 <= upTo < 12 && 0 <= k < DaysBefore(leap, upTo + 1)
    ensures InMonth(leap, k, m)
    decreases upTo
  {
    if DaysBefore(leap, upTo) <= k {
      m := upTo;
    } else {
      m := SomeMonth(leap, k, upTo - 1);
    }
  }

  lemma MonthUnique(leap: bool, k: int, m: int, n: int)
    requires InMonth(leap, k, m) && InMonth(leap, k, n)
    ensures m == n
  {
    if n < m {
      MonthsIncrease(leap, n + 1, m);
    } else if m < n {
      MonthsIncrease(leap, m + 1, n);
    }
  }

  /** Position of the day in its year, from 0. */
  ghost function DayInYear(day: int): int { day - DayFromYear(YearOf(day)) }

  ghost predicate MonthHolds(day: int, m: int) {
    InMonth(Leap(YearOf(day)), DayInYear(day), m)
  }

  lemma MonthExists(day: int)
    ensures exists m: int :: MonthHolds(day, m)
  {
    NextYear(YearOf(day));
    var m := SomeMonth(Leap(YearOf(day)), DayInYear(day), 11);
    assert MonthHolds(day, m);
  }

  /** The month of the year a day lies in. */
  ghost function MonthOf(day: int): (m: int)
    ensures 0 <= m < 12 && MonthHolds(day, m)
  {
    MonthExists(day);
    var m: int :| MonthHolds(day, m);
    m
  }

  ghost function DateOf(day: int): int {
    DayInYear(day) - DaysBefore(Leap(YearOf(day)), MonthOf(day)) + 1
  }

  /** y, m, d is a date of the calendar. */
  predicate IsDate(y: int, m: int, d: int) {
    0 <= m < 12 && 1 <= d <= DaysInMonth(y, m)
  }

  lemma MonthsIncrease(leap: bool, a: int, b: int)
    requires 0 <= a <= b <= 12
    ensures DaysBefore(leap, a) <= DaysBefore(leap, b)
    ensures a < b ==> DaysBefore(leap, a) < DaysBefore(leap, b)
  {
  }

  lemma MakeDayInYear(y: int, m: int, d: int)
    requires 0 <= m < 12
    ensures MakeDay(y, m, d) == DayFromYear(y) + DaysBefore(Leap(y), m) + d - 1
  {
    assert m / 12 == 0 && m % 12 == m;
  }

  /** Every day has a date, and is the day of that date. */
  lemma DayRoundTrip(day: int)
    ensures IsDate(YearOf(day), MonthOf(day), DateOf(day))
    ensures MakeDay(YearOf(day), MonthOf(day), DateOf(day)) == day
  {
    MakeDayInYear(YearOf(day), MonthOf(day), DateOf(day));
  }

  /** And every date is the date of its day. */
  lemma DateRoundTrip(y: int, m: int, d: int)
    requires IsDate(y, m, d)
    ensures var day := MakeDay(y, m, d); YearOf(day) == y && MonthOf(day) == m && DateOf(day) == d
  {
    var day := MakeDay(y, m, d);
    MakeDayInYear(y, m, d);
    NextYear(y);
    MonthsIncrease(Leap(y), m + 1, 12);
    YearUnique(YearOf(day), y, day);
    MonthUnique(Leap(y), day - DayFromYear(y), MonthOf(day), m);
  }
}
