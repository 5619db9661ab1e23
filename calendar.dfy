/**
 * The proleptic Gregorian calendar of JavaScript's Date and Python's
 * datetime: day numbers counted from 1970-01-01 and their inverse.
 */
module Calendar {

  predicate IsLeap(y: int)
  {
    y % 4 == 0 && (y % 100 != 0 || y % 400 == 0)
  }

  function DaysInYear(y: int): int
  {
    if IsLeap(y) then 366 else 365
  }

  function DaysInMonth(y: int, m: int): int
    requires 1 <= m <= 12
  {
    if m == 2 then (if IsLeap(y) then 29 else 28)
    else if m == 4 || m == 6 || m == 9 || m == 11 then 30
    else 31
  }

  predicate ValidDate(y: int, m: int, d: int)
  {
    1 <= m <= 12 && 1 <= d <= DaysInMonth(y, m)
  }

  /** Days in the months of year y before month m (m = 13: the whole year). */
  function DaysBeforeMonth(y: int, m: int): int
    requires 1 <= m <= 13
  {
    var leap := if IsLeap(y) then 1 else 0;
    if m == 1 then 0 else if m == 2 then 31
    else [59, 90, 120, 151, 181, 212, 243, 273, 304, 334, 365][m - 3] + leap
  }

  /** Leap years in [0, y), as a signed count for negative y. */
  function LeapsBefore(y: int): int
  {
    (y + 3) / 4 - (y + 99) / 100 + (y + 399) / 400
  }

  /** The day number of January 1 of year y. */
  function YearStart(y: int): int
  {
    365 * (y - 1970) + LeapsBefore(y) - LeapsBefore(1970)
  }

  /** The day number of a date, counted from 1970-01-01. */
  function DaysFromCivil(y: int, m: int, d: int): int
    requires 1 <= m <= 12
  {
    YearStart(y) + DaysBeforeMonth(y, m) + d - 1
  }

  lemma {:induction false} Step4(y: int)
    ensures (y + 4) / 4 - (y + 3) / 4 == if y % 4 == 0 then 1 else 0
  {
    var q, r := (y + 3) / 4, (y + 3) % 4;
    assert y + 3 == 4 * q + r && 0 <= r < 4;
    if r == 3 {
      assert y + 4 == 4 * (q + 1);
      assert y == 4 * q;
    } else {
      assert y + 4 == 4 * q + (r + 1);
      assert y == 4 * (q - 1) + (r + 1);
    }
  }

  lemma {:induction false} Step100(y: int)
    ensures (y + 100) / 100 - (y + 99) / 100 == if y % 100 == 0 then 1 else 0
  {
    var q, r := (y + 99) / 100, (y + 99) % 100;
    assert y + 99 == 100 * q + r && 0 <= r < 100;
    if r == 99 {
      assert y + 100 == 100 * (q + 1);
      assert y == 100 * q;
    } else {
      assert y + 100 == 100 * q + (r + 1);
      assert y == 100 * (q - 1) + (r + 1);
    }
  }

  lemma {:induction false} Step400(y: int)
    ensures (y + 400) / 400 - (y + 399) / 400 == if y % 400 == 0 then 1 else 0
  {
    var q, r := (y + 399) / 400, (y + 399) % 400;
    assert y + 399 == 400 * q + r && 0 <= r < 400;
    if r == 399 {
      assert y + 400 == 400 * (q + 1);
      assert y == 400 * q;
    } else {
      assert y + 400 == 400 * q + (r + 1);
      assert y == 400 * (q - 1) + (r + 1);
    }
  }

  lemma {:induction false} Div100Div4(y: int)
    requires y % 100 == 0
    ensures y % 4 == 0
  {
    var k := y / 100;
    assert y == 4 * (25 * k);
  }

  lemma {:induction false} Div400Div100(y: int)
    requires y % 400 == 0
    ensures y % 100 == 0
  {
    var k := y / 400;
    assert y == 100 * (4 * k);
  }

  lemma {:induction false} LeapStep(y: int)
    ensures LeapsBefore(y + 1) - LeapsBefore(y) == if IsLeap(y) then 1 else 0
  {
    Step4(y);
    Step100(y);
    Step400(y);
    var a := (y + 4) / 4 - (y + 3) / 4;
    var b := (y + 100) / 100 - (y + 99) / 100;
    var c := (y + 400) / 400 - (y + 399) / 400;
    assert LeapsBefore(y + 1) - LeapsBefore(y) == a - b + c;
    if y % 100 == 0 { Div100Div4(y); }
    if y % 400 == 0 { Div400Div100(y); }
  }

  lemma {:induction false} YearStartStep(y: int)
    ensures YearStart(y + 1) == YearStart(y) + DaysInYear(y)
  {
    LeapStep(y);
  }

  lemma {:induction false} MonthStep(y: int, m: int)
    requires 1 <= m <= 12
    ensures DaysBeforeMonth(y, m + 1) == DaysBeforeMonth(y, m) + DaysInMonth(y, m)
    ensures DaysBeforeMonth(y, 13) == DaysInYear(y)
  {
  }

  /** Later years start later: a year starts after every earlier year has ended. */
  lemma {:induction false} YearStartMonotone(a: int, b: int)
    requires a < b
    ensures YearStart(a + 1) <= YearStart(b)
    decreases b - a
  {
    YearStartStep(a);
    if a + 1 < b {
      YearStartMonotone(a + 1, b);
      YearStartStep(a + 1);
    }
  }

  lemma {:induction false} YearStartAfterEpoch(k: nat)
    ensures YearStart(1970 + k) <= 366 * k
    decreases k
  {
    if k > 0 {
      YearStartAfterEpoch(k - 1);
      YearStartStep(1970 + k - 1);
    }
  }

  lemma {:induction false} YearStartBeforeEpoch(k: nat)
    ensures YearStart(1970 - k) <= -365 * k
    decreases k
  {
    if k > 0 {
      YearStartBeforeEpoch(k - 1);
      YearStartStep(1970 - k);
    }
  }

  /** The year that day n falls in, searching upwards from a year that starts no later than n. */
  function YearFrom(y: int, n: int): (r: int)
    requires YearStart(y) <= n
    ensures YearStart(r) <= n < YearStart(r + 1)
    decreases n - YearStart(y)
  {
    YearStartStep(y);
    if n < YearStart(y + 1) then y else YearFrom(y + 1, n)
  }

  /** A year that starts no later than day n: no year is longer than 366 days or shorter than 365. */
  function YearGuess(n: int): int
  {
    if n >= 0 then 1970 + n / 366 else 1970 + n / 365
  }

  lemma {:induction false} YearGuessBelow(n: int)
    ensures YearStart(YearGuess(n)) <= n
  {
    if n >= 0 {
      YearStartAfterEpoch(n / 366);
    } else {
      YearStartBeforeEpoch(-(n / 365));
    }
  }

  function YearOf(n: int): (y: int)
    ensures YearStart(y) <= n < YearStart(y + 1)
  {
    YearGuessBelow(n);
    YearFrom(YearGuess(n), n)
  }

  /** The month that day doy of year y (counted from 0) falls in, searching from month m. */
  function MonthFrom(y: int, m: int, doy: int): (r: int)
    requires 1 <= m <= 12 && DaysBeforeMonth(y, m) <= doy < DaysInYear(y)
    ensures 1 <= r <= 12 && DaysBeforeMonth(y, r) <= doy < DaysBeforeMonth(y, r + 1)
    decreases 12 - m
  {
    MonthStep(y, m);
    if doy < DaysBeforeMonth(y, m + 1) then m else MonthFrom(y, m + 1, doy)
  }

  datatype Date = Date(year: int, month: int, day: int)

  /** The date of day number n: a valid date whose day number is n. */
  function CivilFromDays(n: int): (r: Date)
    ensures ValidDate(r.year, r.month, r.day)
    ensures DaysFromCivil(r.year, r.month, r.day) == n
  {
    var y := YearOf(n);
    YearStartStep(y);
    MonthStep(y, 1);
    var doy := n - YearStart(y);
    var m := MonthFrom(y, 1, doy);
    MonthStep(y, m);
    Date(y, m, doy - DaysBeforeMonth(y, m) + 1)
  }

  lemma {:induction false} MonthStartMonotone(y: int, a: int, b: int)
    requires 1 <= a < b <= 12
    ensures DaysBeforeMonth(y, a + 1) <= DaysBeforeMonth(y, b)
  {
  }

  /** A valid date lies inside its own year. */
  lemma {:induction false} DateInYear(y: int, m: int, d: int)
    requires ValidDate(y, m, d)
    ensures YearStart(y) <= DaysFromCivil(y, m, d) < YearStart(y + 1)
  {
    YearStartStep(y);
    MonthStep(y, m);
    assert DaysBeforeMonth(y, m + 1) <= DaysBeforeMonth(y, 13);
  }

  /** Distinct valid dates have distinct day numbers. */
  lemma {:induction false} DaysFromCivilInjective(y1: int, m1: int, d1: int, y2: int, m2: int, d2: int)
    requires ValidDate(y1, m1, d1) && ValidDate(y2, m2, d2)
    requires DaysFromCivil(y1, m1, d1) == DaysFromCivil(y2, m2, d2)
    ensures y1 == y2 && m1 == m2 && d1 == d2
  {
    DateInYear(y1, m1, d1);
    DateInYear(y2, m2, d2);
    if y1 < y2 {
      YearStartMonotone(y1, y2);
    } else if y2 < y1 {
      YearStartMonotone(y2, y1);
    }
    MonthStep(y1, m1);
    MonthStep(y1, m2);
    if m1 < m2 {
      MonthStartMonotone(y1, m1, m2);
    } else if m2 < m1 {
      MonthStartMonotone(y1, m2, m1);
    }
  }

  /** Converting a valid date to its day number and back returns the date. */
  lemma {:induction false} CivilRoundTrip(y: int, m: int, d: int)
    requires ValidDate(y, m, d)
    ensures CivilFromDays(DaysFromCivil(y, m, d)) == Date(y, m, d)
  {
    var r := CivilFromDays(DaysFromCivil(y, m, d));
    DaysFromCivilInjective(y, m, d, r.year, r.month, r.day);
  }

  /** A day number falls in year 1 or later exactly from 01/01/0001 on. */
  lemma {:induction false} FromYearOne(n: int)
    ensures CivilFromDays(n).year >= 1 <==> n >= YearStart(1)
  {
    var r := CivilFromDays(n);
    DateInYear(r.year, r.month, r.day);
    if r.year < 1 {
      YearStartMonotone(r.year, 1);
    } else if r.year > 1 {
      YearStartMonotone(1, r.year);
      YearStartStep(1);
    }
  }

  /** The day before a date of year 1 or later is of year 1 or later, except before 01/01/0001. */
  lemma {:induction false} PreviousDayFromYearOne(y: int, m: int, d: int)
    requires ValidDate(y, m, d) && y >= 1
    ensures CivilFromDays(DaysFromCivil(y, m, d) - 1).year >= 1 <==> (y, m, d) != (1, 1, 1)
  {
    FromYearOne(DaysFromCivil(y, m, d) - 1);
    AfterFirstDay(y, m, d);
  }

  /** 01/01/0001 is the first day of year 1 or later. */
  lemma {:induction false} AfterFirstDay(y: int, m: int, d: int)
    requires ValidDate(y, m, d) && y >= 1
    ensures (y, m, d) != (1, 1, 1) <==> DaysFromCivil(y, m, d) > YearStart(1)
  {
    var n := DaysFromCivil(y, m, d);
    DateInYear(y, m, d);
    if y > 1 {
      YearOneBefore(y);
    }
    FirstDay();
    if n == DaysFromCivil(1, 1, 1) {
      DaysFromCivilInjective(y, m, d, 1, 1, 1);
    }
  }

  lemma {:induction false} FirstDay()
    ensures ValidDate(1, 1, 1) && DaysFromCivil(1, 1, 1) == YearStart(1)
  {
  }

  lemma {:induction false} YearOneBefore(y: int)
    requires y > 1
    ensures YearStart(1) + 365 <= YearStart(y)
  {
    YearStartMonotone(1, y);
    YearStartStep(1);
  }
}
