/** The renewal period: a copy of the start date moved on by setMonth or
    setFullYear, whatever the day of the month. Times of day are unchanged and
    daylight saving is ignored, so whole days suffice. */
module BillingPeriod {
  import opened Calendar

  /** setMonth and setFullYear: the other two fields stay. */
  ghost function WithMonth(day: int, m: int): int {
    MakeDay(YearOf(day), m, DateOf(day))
  }

  ghost function WithYear(day: int, y: int): int {
    MakeDay(y, MonthOf(day), DateOf(day))
  }

  /** The mutable Date of the runtime, reduced to its day number. */
  class JsDate {
    var day: int

    constructor (initial: int)
      ensures day == initial
    {
      day := initial;
    }

    method GetFullYear() returns (y: int)
      ensures y == YearOf(day)
    {
      YearGuess(day);
      y := 1970 + if day >= 0 then day / 366 else day / 365;
      NextYear(y);
      while day >= DayFromYear(y + 1)
        invariant DayFromYear(y) <= day && DayFromYear(y + 1) == DayFromYear(y) + YearLength(y)
        decreases day - DayFromYear(y)
      {
        y := y + 1;
        NextYear(y);
      }
      YearUnique(YearOf(day), y, day);
    }

    method GetMonth() returns (m: int)
      ensures m == MonthOf(day)
    {
      var y := GetFullYear();
      var k := day - DayFromYear(y);
      m := 11;
      NextYear(y);
      while k < DaysBefore(Leap(y), m)
        invariant 0 <= m < 12 && 0 <= k < DaysBefore(Leap(y), m + 1)
        decreases m
      {
        m := m - 1;
      }
      MonthUnique(Leap(y), k, MonthOf(day), m);
    }

    method GetDate() returns (d: int)
      ensures d == DateOf(day)
    {
      var y := GetFullYear();
      var m := GetMonth();
      d := day - DayFromYear(y) - DaysBefore(Leap(y), m) + 1;
    }

    method SetMonth(m: int)
      modifies this
      ensures day == WithMonth(old(day), m)
    {
      var y := GetFullYear();
      var d := GetDate();
      day := MakeDay(y, m, d);
    }

    method SetFullYear(y: int)
      modifies this
      ensures day == WithYear(old(day), y)
    {
      var m := GetMonth();
      var d := GetDate();
      day := MakeDay(y, m, d);
    }
  }

  ghost function MonthlyEnd(start: int): int {
    WithMonth(start, MonthOf(start) + 1)
  }

  ghost function YearlyEnd(start: int): int {
    WithYear(start, YearOf(start) + 1)
  }

  /** The period computation of renewSubscription. */
  method RenewalPeriod(now: int, yearly: bool) returns (newPeriodStart: int, newPeriodEnd: int)
    ensures newPeriodStart == now
    ensures newPeriodEnd == if yearly then YearlyEnd(now) else MonthlyEnd(now)
  {
    newPeriodStart := now;
    var end := new JsDate(now);
    var year := end.GetFullYear();
    if yearly {
      end.SetFullYear(year + 1);
    } else {
      var month := end.GetMonth();
      end.SetMonth(month + 1);
    }
    newPeriodEnd := end.day;
  }

  /** The calendar month after this one, as year and month. */
  function NextMonthYear(y: int, m: int): int
    requires 0 <= m < 12
  {
    if m == 11 then y + 1 else y
  }

  function NextMonth(m: int): int
    requires 0 <= m < 12
  {
    if m == 11 then 0 else m + 1
  }

  lemma MonthStarts(y: int, m: int, d: int)
    requires 0 <= m < 12
    ensures MakeDay(y, m + 1, d) == MakeDay(NextMonthYear(y, m), NextMonth(m), d)
    ensures MakeDay(y, m + 1, d) == MakeDay(y, m, d) + DaysInMonth(y, m)
  {
    NextYear(y);
    MakeDayInYear(y, m, d);
    if m == 11 {
      assert (m + 1) / 12 == 1 && (m + 1) % 12 == 0;
      MakeDayInYear(y + 1, 0, d);
    } else {
      MakeDayInYear(y, m + 1, d);
    }
  }

  lemma MonthLengths(y: int, m: int)
    requires 0 <= m < 12
    ensures 28 <= DaysInMonth(y, m) <= 31
  {
  }

  /** A monthly period lasts exactly as many days as the month it starts in, for
      every start date, also when the day overflows the next month. */
  lemma MonthlyPeriodLength(start: int)
    ensures MonthlyEnd(start) - start == DaysInMonth(YearOf(start), MonthOf(start))
    ensures 28 <= MonthlyEnd(start) - start <= 31
  {
    DayRoundTrip(start);
    MonthStarts(YearOf(start), MonthOf(start), DateOf(start));
    MonthLengths(YearOf(start), MonthOf(start));
  }

  /** Day d of a month too short for it is a day early in the next month. */
  lemma Overflow(y: int, m: int, d: int)
    requires 0 <= m < 12 && DaysInMonth(y, m) < d <= 31
    ensures var day := MakeDay(y, m, d);
            && YearOf(day) == NextMonthYear(y, m) && MonthOf(day) == NextMonth(m)
            && DateOf(day) == d - DaysInMonth(y, m) <= 3
  {
    hide Leap, DayFromYear;
    var rest := d - DaysInMonth(y, m);
    MonthLengths(y, m);
    MonthLengths(NextMonthYear(y, m), NextMonth(m));
    MonthStarts(y, m, rest);
    MakeDayInYear(y, m, d);
    MakeDayInYear(y, m, rest);
    DateRoundTrip(NextMonthYear(y, m), NextMonth(m), rest);
  }

  /** Where day d of month m ends up a month later. */
  lemma OneMonthOn(y: int, m: int, d: int)
    requires IsDate(y, m, d)
    ensures var y1, m1 := NextMonthYear(y, m), NextMonth(m);
            var end := MakeDay(y, m + 1, d);
            if d <= DaysInMonth(y1, m1) then YearOf(end) == y1 && MonthOf(end) == m1 && DateOf(end) == d
            else YearOf(end) == NextMonthYear(y1, m1) && MonthOf(end) == NextMonth(m1)
                 && DateOf(end) == d - DaysInMonth(y1, m1) <= 3
  {
    var y1, m1 := NextMonthYear(y, m), NextMonth(m);
    MonthStarts(y, m, d);
    MonthLengths(y, m);
    if d <= DaysInMonth(y1, m1) {
      DateRoundTrip(y1, m1, d);
    } else {
      Overflow(y1, m1, d);
    }
  }

  /** It ends on the same day of the next month exactly if that month has such a
      day; otherwise it runs over into the month after, by the days missing: at
      most three. */
  lemma MonthlyEndDate(start: int)
    ensures var d, end := DateOf(start), MonthlyEnd(start);
            var y1, m1 := NextMonthYear(YearOf(start), MonthOf(start)), NextMonth(MonthOf(start));
            && (d <= DaysInMonth(y1, m1) <==> DateOf(end) == d)
            && (d <= DaysInMonth(y1, m1) ==> YearOf(end) == y1 && MonthOf(end) == m1)
            && (d > DaysInMonth(y1, m1) ==>
                  YearOf(end) == NextMonthYear(y1, m1) && MonthOf(end) == NextMonth(m1)
                  && DateOf(end) == d - DaysInMonth(y1, m1) <= 3)
  {
    DayRoundTrip(start);
    MonthLengths(NextMonthYear(YearOf(start), MonthOf(start)), NextMonth(MonthOf(start)));
    OneMonthOn(YearOf(start), MonthOf(start), DateOf(start));
  }

  /** A 29 February falls within [from, to). */
  ghost predicate LeapDayBetween(from: int, to: int) {
    exists y: int :: LeapDayIn(y, from, to)
  }

  ghost predicate LeapDayIn(y: int, from: int, to: int) {
    Leap(y) && from <= MakeDay(y, 1, 29) < to
  }

  /** Of the two calendar years a yearly period touches, the one whose February it
      contains. */
  function FebruaryYear(y: int, m: int): int { if m <= 1 then y else y + 1 }

  lemma WithinItsYear(y: int, m: int, d: int)
    requires IsDate(y, m, d)
    ensures DayFromYear(y) <= MakeDay(y, m, d) < DayFromYear(y + 1)
  {
    MakeDayInYear(y, m, d);
    MonthsIncrease(Leap(y), m + 1, 12);
    NextYear(y);
  }

  lemma EarlierYear(y: int, m: int, d: int, y': int, m': int, d': int)
    requires IsDate(y, m, d) && IsDate(y', m', d') && y < y'
    ensures MakeDay(y, m, d) < MakeDay(y', m', d')
  {
    WithinItsYear(y, m, d);
    WithinItsYear(y', m', d');
    YearsIncrease(y + 1, y');
  }

  lemma LeapDayYear(y: int, m: int, z: int)
    requires 0 <= m < 12 && LeapDayIn(z, MakeDay(y, m, 1), MakeDay(y + 1, m, 1))
    ensures z == FebruaryYear(y, m)
  {
    hide DayFromYear;
    MonthLengths(y, m);
    MonthLengths(y + 1, m);
    if z < y {
      EarlierYear(z, 1, 29, y, m, 1);
    } else if z > y + 1 {
      EarlierYear(y + 1, m, 1, z, 1, 29);
    } else {
      MakeDayInYear(z, 1, 29);
      MakeDayInYear(z, m, 1);
      if m >= 2 {
        MonthsIncrease(Leap(z), 2, m);
      } else {
        MonthsIncrease(Leap(z), m, 1);
      }
    }
  }

  lemma LeapDayFound(y: int, m: int)
    requires 0 <= m < 12 && Leap(FebruaryYear(y, m))
    ensures LeapDayIn(FebruaryYear(y, m), MakeDay(y, m, 1), MakeDay(y + 1, m, 1))
  {
    MakeDayInYear(FebruaryYear(y, m), 1, 29);
    MakeDayInYear(y, m, 1);
    MakeDayInYear(y + 1, m, 1);
    NextYear(y);
    if m >= 2 {
      MonthsIncrease(Leap(y + 1), 2, m);
      MonthsIncrease(Leap(y), m, 12);
    }
  }

  lemma OneYearOn(y: int, m: int, d: int)
    requires 0 <= m < 12
    ensures MakeDay(y + 1, m, d) - MakeDay(y, m, d) == if Leap(FebruaryYear(y, m)) then 366 else 365
  {
    MakeDayInYear(y, m, d);
    MakeDayInYear(y + 1, m, d);
    NextYear(y);
  }

  lemma LeapDayBetweenIff(y: int, m: int)
    requires 0 <= m < 12
    ensures LeapDayBetween(MakeDay(y, m, 1), MakeDay(y + 1, m, 1)) <==> Leap(FebruaryYear(y, m))
  {
    hide MakeDay;
    var from, to := MakeDay(y, m, 1), MakeDay(y + 1, m, 1);
    if Leap(FebruaryYear(y, m)) {
      LeapDayFound(y, m);
    } else if LeapDayBetween(from, to) {
      var z: int :| LeapDayIn(z, from, to);
      LeapDayYear(y, m, z);
    }
  }

  /** A yearly period is 365 or 366 days, the latter exactly when a 29 February lies
      between the start of its first month and the same month a year later. */
  lemma YearlyPeriodLength(start: int)
    ensures var y, m := YearOf(start), MonthOf(start);
            YearlyEnd(start) - start
            == if LeapDayBetween(MakeDay(y, m, 1), MakeDay(y + 1, m, 1)) then 366 else 365
  {
    hide DayFromYear, Leap;
    var y, m := YearOf(start), MonthOf(start);
    DayRoundTrip(start);
    OneYearOn(y, m, DateOf(start));
    LeapDayBetweenIff(y, m);
  }

  lemma SameDateNextYear(y: int, m: int, d: int)
    requires IsDate(y, m, d)
    ensures var end := MakeDay(y + 1, m, d);
            && YearOf(end) == y + 1
            && if m == 1 && d == 29 then MonthOf(end) == 2 && DateOf(end) == 1
               else MonthOf(end) == m && DateOf(end) == d
  {
    if m == 1 && d == 29 {
      NoTwoLeapYears(y);
      MakeDayInYear(y + 1, 1, 29);
      MakeDayInYear(y + 1, 2, 1);
      DateRoundTrip(y + 1, 2, 1);
    } else {
      DateRoundTrip(y + 1, m, d);
    }
  }

  lemma NoTwoLeapYears(y: int)
    requires Leap(y)
    ensures !Leap(y + 1)
  {
  }

  /** It ends on the same date a year later, except that 29 February becomes 1 March. */
  lemma YearlyEndDate(start: int)
    ensures var m, d, end := MonthOf(start), DateOf(start), YearlyEnd(start);
            && YearOf(end) == YearOf(start) + 1
            && if m == 1 && d == 29 then MonthOf(end) == 2 && DateOf(end) == 1
               else MonthOf(end) == m && DateOf(end) == d
  {
    hide DayFromYear;
    DayRoundTrip(start);
    SameDateNextYear(YearOf(start), MonthOf(start), DateOf(start));
  }
}
