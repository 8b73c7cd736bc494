/** The Gregorian calendar, as far as adding months needs it. A time is a number of whole UTC seconds
    since 1970-01-01; days and months are counted from the first of January of the year 1. */
module Calendar {

  predicate Leap(year: int) { year % 4 == 0 && (year % 100 != 0 || year % 400 == 0) }

  /** Days of the first n years. */
  function YearStart(n: int): int { 365 * n + n / 4 - n / 100 + n / 400 }

  /** Days before month r (January is 0) of a year without leap day. */
  function DaysBefore(r: int): int {
    match r
    case 0 => 0 case 1 => 31 case 2 => 59 case 3 => 90 case 4 => 120 case 5 => 151
    case 6 => 181 case 7 => 212 case 8 => 243 case 9 => 273 case 10 => 304 case _ => 334
  }

  function MonthStart(m: int): int {
    YearStart(m / 12) + DaysBefore(m % 12) + if m % 12 >= 2 && Leap(m / 12 + 1) then 1 else 0
  }

  function MonthLength(m: int): int {
    match m % 12
    case 1 => if Leap(m / 12 + 1) then 29 else 28
    case 3 => 30 case 5 => 30 case 8 => 30 case 10 => 30
    case _ => 31
  }

  lemma YearStep(n: int)
    ensures YearStart(n + 1) == YearStart(n) + if Leap(n + 1) then 366 else 365
  {
    assert (n + 1) / 4 == n / 4 + if (n + 1) % 4 == 0 then 1 else 0;
    assert (n + 1) / 100 == n / 100 + if (n + 1) % 100 == 0 then 1 else 0;
    assert (n + 1) / 400 == n / 400 + if (n + 1) % 400 == 0 then 1 else 0;
    Hundreds(n + 1);
  }

  lemma Hundreds(year: int)
    ensures year % 400 == 0 ==> year % 100 == 0
    ensures year % 100 == 0 ==> year % 4 == 0
  {
    var c, p, q := year / 400, year / 100, year / 4;
    assert 100 * p <= year < 100 * p + 100 && 4 * q <= year < 4 * q + 4;
    if year % 400 == 0 { assert year == 400 * c && p == 4 * c; }
    if year % 100 == 0 { assert year == 100 * p && q == 25 * p; }
  }

  /** The closed form is right: the months follow each other with their lengths. */
  lemma MonthStep(m: int)
    ensures MonthStart(m + 1) == MonthStart(m) + MonthLength(m)
  {
    YearStep(m / 12);
    hide YearStart, Leap;
    if m % 12 == 11 {
      assert (m + 1) / 12 == m / 12 + 1 && (m + 1) % 12 == 0;
    } else {
      assert (m + 1) / 12 == m / 12 && (m + 1) % 12 == m % 12 + 1;
    }
  }

  lemma {:induction false} MonthsAscend(m: int, k: nat)
    ensures MonthStart(m) + 28 * k <= MonthStart(m + k)
  {
    hide MonthStart;
    if k > 0 {
      MonthsAscend(m, k - 1);
      MonthStep(m + k - 1);
    }
  }

  /** A year that begins at or before the day. */
  function YearBefore(day: int): (n: int)
    ensures YearStart(n) <= day
  {
    if day >= 0 then day / 366 else day / 365
  }

  function MonthFrom(day: int, m: int): (r: int)
    requires MonthStart(m) <= day
    ensures MonthStart(r) <= day < MonthStart(r + 1)
    decreases day - MonthStart(m)
  {
    hide MonthStart;
    MonthStep(m);
    if day < MonthStart(m + 1) then m else MonthFrom(day, m + 1)
  }

  /** The month of a day. */
  function MonthOf(day: int): (r: int)
    ensures MonthStart(r) <= day < MonthStart(r + 1)
  {
    January(YearBefore(day));
    hide MonthStart, YearStart;
    MonthFrom(day, 12 * YearBefore(day))
  }

  lemma January(n: int)
    ensures MonthStart(12 * n) == YearStart(n)
  {
    hide YearStart, Leap;
    assert 12 * n / 12 == n && 12 * n % 12 == 0;
  }

  lemma MonthUnique(day: int, m: int)
    requires MonthStart(m) <= day < MonthStart(m + 1)
    ensures MonthOf(day) == m
  {
    hide MonthStart, MonthOf;
    var r := MonthOf(day);
    if r < m {
      MonthsAscend(r + 1, m - r - 1);
    } else if m < r {
      MonthsAscend(m + 1, r - m - 1);
    }
  }

  const Epoch: int := 719162

  function DayOf(t: int): int { t / 86400 + Epoch }

  function DayOfMonth(t: int): int { DayOf(t) - MonthStart(MonthOf(DayOf(t))) }

  function Min(a: int, b: int): int { if a < b then a else b }

  /** n months later: the same day of the month, or the last one if that month is too short. */
  function AddMonths(t: int, n: int): int {
    var m := MonthOf(DayOf(t)) + n;
    (MonthStart(m) + Min(DayOfMonth(t), MonthLength(m) - 1) - Epoch) * 86400 + t % 86400
  }

  lemma AddMonthsExact(t: int, n: int)
    ensures var r := AddMonths(t, n);
            && MonthOf(DayOf(r)) == MonthOf(DayOf(t)) + n && r % 86400 == t % 86400
            && DayOfMonth(r) == Min(DayOfMonth(t), MonthLength(MonthOf(DayOf(r))) - 1)
  {
    hide MonthOf, MonthStart, MonthLength;
    var m, r := MonthOf(DayOf(t)), AddMonths(t, n);
    MonthStep(m + n);
    LengthPositive(m + n);
    MonthUnique(DayOf(r), m + n);
  }

  lemma AddMonthsAscends(t: int, a: int, b: int)
    requires a < b
    ensures AddMonths(t, a) < AddMonths(t, b)
  {
    hide MonthOf, MonthStart, MonthLength;
    var m := MonthOf(DayOf(t));
    MonthStep(m + a);
    LengthPositive(m + b);
    MonthsAscend(m + a + 1, b - a - 1);
  }

  lemma AddNoMonths(t: int)
    ensures AddMonths(t, 0) == t
  {
    hide MonthOf, MonthStart, MonthLength;
    MonthStep(MonthOf(DayOf(t)));
  }

  lemma LengthPositive(m: int)
    ensures 28 <= MonthLength(m) <= 31
  {}

  /** The first two months of 1970. */
  lemma WinterOf1970(m: int)
    requires m == 12 * 1969
    ensures MonthStart(m) == Epoch && MonthStart(m + 1) == Epoch + 31 && MonthLength(m + 1) == 28
  {
    January(1969);
    MonthStep(m);
    hide MonthStart;
    assert m % 12 == 0 && (m + 1) % 12 == 1 && (m + 1) / 12 == 1969;
    assert YearStart(1969) == Epoch;
  }

  /** A later time may be earlier a month later: 1970-01-30 18:00 and 1970-01-31 06:00 both lead to
      February 28. */
  lemma AddMonthsNotMonotone(t1: int, t2: int)
    requires t1 == 29 * 86400 + 64800 && t2 == 30 * 86400 + 21600
    ensures t1 < t2 && AddMonths(t2, 1) < AddMonths(t1, 1)
  {
    hide MonthStart, MonthOf, MonthLength;
    var m := 12 * 1969;
    WinterOf1970(m);
    assert DayOf(t1) == Epoch + 29 && DayOf(t2) == Epoch + 30;
    MonthUnique(DayOf(t1), m);
    MonthUnique(DayOf(t2), m);
  }
}
