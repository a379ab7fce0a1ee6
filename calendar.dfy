/** Weekdays, the fixed DAY_ORDER categories and the proleptic Gregorian calendar
    behind the `date` and `day` columns. */
module Calendar {

  /** The seven categories of the `day` column. */
  datatype Day = Monday | Tuesday | Wednesday | Thursday | Friday | Saturday | Sunday

  /** DAY_ORDER: the category order of the `day` column and of the box chart's axis. */
  const DAY_ORDER: seq<string> :=
    ["Monday", "Tuesday", "Wednesday", "Thursday", "Friday", "Saturday", "Sunday"]

  /** The English day name that `Series.dt.day_name()` produces. */
  function Name(d: Day): string
  {
    match d
    case Monday => "Monday"
    case Tuesday => "Tuesday"
    case Wednesday => "Wednesday"
    case Thursday => "Thursday"
    case Friday => "Friday"
    case Saturday => "Saturday"
    case Sunday => "Sunday"
  }

  /** The sort key of the ordered categorical: a day's position in DAY_ORDER. */
  function Index(d: Day): (i: nat)
    ensures i < |DAY_ORDER| && DAY_ORDER[i] == Name(d)
  {
    match d
    case Monday => 0
    case Tuesday => 1
    case Wednesday => 2
    case Thursday => 3
    case Friday => 4
    case Saturday => 5
    case Sunday => 6
  }

  /** The day at a position of DAY_ORDER. */
  function FromIndex(i: nat): (d: Day)
    requires i < 7
    ensures Index(d) == i
  {
    if i == 0 then Monday
    else if i == 1 then Tuesday
    else if i == 2 then Wednesday
    else if i == 3 then Thursday
    else if i == 4 then Friday
    else if i == 5 then Saturday
    else Sunday
  }

  /** The day after `d`, Sunday wrapping round to Monday. */
  function Succ(d: Day): Day
  {
    FromIndex((Index(d) + 1) % 7)
  }

  /** DAY_ORDER lists every weekday name exactly once, and a name determines its day. */
  lemma DayOrderIsEnumeration()
    ensures |DAY_ORDER| == 7
    ensures forall d: Day :: Name(d) in DAY_ORDER
    ensures forall i, j :: 0 <= i < j < |DAY_ORDER| ==> DAY_ORDER[i] != DAY_ORDER[j]
    ensures forall d, e: Day :: Name(d) == Name(e) ==> d == e
    ensures forall i :: 0 <= i < 7 ==> DAY_ORDER[i] == Name(FromIndex(i))
  {
    forall d: Day ensures Name(d) in DAY_ORDER {
      assert DAY_ORDER[Index(d)] == Name(d);
    }
    forall d, e: Day | Name(d) == Name(e) ensures d == e {
      assert DAY_ORDER[Index(d)] == DAY_ORDER[Index(e)];
    }
  }

  /** A calendar date-time to the second, as parsed from the `date` column. */
  datatype Timestamp = Timestamp(year: int, month: int, day: int, hour: int, minute: int, second: int)

  predicate IsLeapYear(y: int)
  {
    y % 4 == 0 && (y % 100 != 0 || y % 400 == 0)
  }

  function DaysInMonth(y: int, m: int): (n: int)
    requires 1 <= m <= 12
    ensures 28 <= n <= 31
  {
    if m == 2 then (if IsLeapYear(y) then 29 else 28)
    else if m == 4 || m == 6 || m == 9 || m == 11 then 30
    else 31
  }

  predicate ValidDate(y: int, m: int, d: int)
  {
    1 <= m <= 12 && 1 <= d <= DaysInMonth(y, m)
  }

  /** A timestamp that names a real instant: a valid date and a time of day. */
  predicate Valid(t: Timestamp)
  {
    ValidDate(t.year, t.month, t.day) &&
    0 <= t.hour < 24 && 0 <= t.minute < 60 && 0 <= t.second < 60
  }

  /** The number of days from 1970-01-01 to the given date (negative before it).
      The year is counted from March so that the leap day closes the year. */
  function DaysFromCivil(y: int, m: int, d: int): int
  {
    var y' := if m <= 2 then y - 1 else y;
    var era := y' / 400;
    var yoe := y' - era * 400;
    var mp := if m > 2 then m - 3 else m + 9;
    var doy := (153 * mp + 2) / 5 + d - 1;
    var doe := yoe * 365 + yoe / 4 - yoe / 100 + doy;
    era * 146097 + doe - 719468
  }

  /** The weekday of a timestamp, as `dt.day_name()` reports it; 1970-01-01 was a Thursday. */
  function Weekday(t: Timestamp): (d: Day)
    ensures Name(d) in DAY_ORDER
  {
    DayOrderIsEnumeration();
    FromIndex((DaysFromCivil(t.year, t.month, t.day) + 3) % 7)
  }

  /** The calendar day after a valid date. */
  function NextDate(y: int, m: int, d: int): (r: (int, int, int))
    requires ValidDate(y, m, d)
    ensures ValidDate(r.0, r.1, r.2)
  {
    if d < DaysInMonth(y, m) then (y, m, d + 1)
    else if m < 12 then (y, m + 1, 1)
    else (y + 1, 1, 1)
  }

  /** The day number of March 1 of the March-based year `y`, before the epoch shift. */
  function YearStart(y: int): int
  {
    var era := y / 400;
    var yoe := y % 400;
    era * 146097 + yoe * 365 + yoe / 4 - yoe / 100
  }

  /** The day of the March-based year on which month `m` begins. */
  function MonthStart(m: int): int
  {
    match m
    case 3 => 0    case 4 => 31   case 5 => 61    case 6 => 92
    case 7 => 122  case 8 => 153  case 9 => 184   case 10 => 214
    case 11 => 245 case 12 => 275 case 1 => 306   case _ => 337
  }

  /** The March-based year a date falls in: January and February close the year before. */
  function MarchYear(y: int, m: int): int
  {
    if m <= 2 then y - 1 else y
  }

  lemma DaysFromCivilByYearStart(y: int, m: int, d: int)
    requires 1 <= m <= 12
    ensures DaysFromCivil(y, m, d) == YearStart(MarchYear(y, m)) + MonthStart(m) + d - 1 - 719468
  {
    var y' := MarchYear(y, m);
    assert y' - y' / 400 * 400 == y' % 400;
    var mp := if m > 2 then m - 3 else m + 9;
    assert (153 * mp + 2) / 5 == MonthStart(m) by {
      if mp == 0 { } else if mp == 1 { } else if mp == 2 { } else if mp == 3 { }
      else if mp == 4 { } else if mp == 5 { } else if mp == 6 { } else if mp == 7 { }
      else if mp == 8 { } else if mp == 9 { } else if mp == 10 { } else { }
    }
  }

  lemma MulMonotone(b: nat, x: int, y: int)
    requires x <= y
    ensures b * x <= b * y
  {
    assert b * y - b * x == b * (y - x);
  }

  /** Euclidean division is determined by quotient and remainder. */
  lemma DivModBy(a: int, b: int, q: int, r: int)
    requires 0 < b && a == b * q + r && 0 <= r < b
    ensures a / b == q && a % b == r
  {
    var q' := a / b;
    if q' > q {
      MulMonotone(b, q + 1, q');
      assert false;
    } else if q' < q {
      MulMonotone(b, q' + 1, q);
      assert false;
    }
  }

  /** Adding a multiple of `b` does not change the remainder. */
  lemma ModShift(a: int, b: int, c: int, t: int)
    requires 0 < b && a == b * t + c
    ensures a % b == c % b
  {
    assert b * (t + c / b) == b * t + b * (c / b);
    DivModBy(a, b, t + c / b, c % b);
  }

  /** The quotient grows by one exactly when the next number is a multiple. */
  lemma DivStep(x: int, b: int)
    requires 0 < b
    ensures (x + 1) / b - x / b == if (x + 1) % b == 0 then 1 else 0
  {
    if x % b == b - 1 {
      DivModBy(x + 1, b, x / b + 1, 0);
    } else {
      DivModBy(x + 1, b, x / b, x % b + 1);
    }
  }

  /** A March-based year is 366 days long when the February that closes it has a leap day. */
  lemma YearStartStep(y: int)
    ensures YearStart(y + 1) - YearStart(y) == if IsLeapYear(y + 1) then 366 else 365
  {
    var era, k := y / 400, y % 400;
    if k == 399 {
      DivModBy(y + 1, 400, era + 1, 0);
      ModShift(y + 1, 4, 0, 100 * (era + 1));
      assert YearStart(y) == era * 146097 + 145731;
    } else {
      DivModBy(y + 1, 400, era, k + 1);
      ModShift(y + 1, 4, k + 1, 100 * era);
      ModShift(y + 1, 100, k + 1, 4 * era);
      DivStep(k, 4);
      DivStep(k, 100);
    }
  }

  /** Each month other than February and December ends where the next one begins. */
  lemma MonthStartNext(y: int, m: int)
    requires 1 <= m < 12 && m != 2
    ensures MonthStart(m + 1) == MonthStart(m) + DaysInMonth(y, m)
  {
  }

  lemma DaysFromCivilNextInMonth(y: int, m: int, d: int)
    requires 1 <= m <= 12
    ensures DaysFromCivil(y, m, d + 1) == DaysFromCivil(y, m, d) + 1
  {
    DaysFromCivilByYearStart(y, m, d);
    DaysFromCivilByYearStart(y, m, d + 1);
  }

  lemma DaysFromCivilNextMonth(y: int, m: int)
    requires 1 <= m < 12 && m != 2
    ensures DaysFromCivil(y, m + 1, 1) == DaysFromCivil(y, m, DaysInMonth(y, m)) + 1
  {
    DaysFromCivilByYearStart(y, m, DaysInMonth(y, m));
    DaysFromCivilByYearStart(y, m + 1, 1);
    assert MarchYear(y, m + 1) == MarchYear(y, m);
    MonthStartNext(y, m);
  }

  lemma DaysFromCivilMarchFirst(y: int)
    ensures DaysFromCivil(y, 3, 1) == DaysFromCivil(y, 2, DaysInMonth(y, 2)) + 1
  {
    DaysFromCivilByYearStart(y, 2, DaysInMonth(y, 2));
    DaysFromCivilByYearStart(y, 3, 1);
    YearStartStep(y - 1);
  }

  lemma DaysFromCivilNewYear(y: int)
    ensures DaysFromCivil(y + 1, 1, 1) == DaysFromCivil(y, 12, 31) + 1
  {
    DaysFromCivilByYearStart(y, 12, 31);
    DaysFromCivilByYearStart(y + 1, 1, 1);
  }

  /** Consecutive calendar days are consecutive day numbers. */
  lemma DaysFromCivilNext(y: int, m: int, d: int)
    requires ValidDate(y, m, d)
    ensures var n := NextDate(y, m, d); DaysFromCivil(n.0, n.1, n.2) == DaysFromCivil(y, m, d) + 1
  {
    var n := NextDate(y, m, d);
    if d < DaysInMonth(y, m) {
      assert n == (y, m, d + 1);
      DaysFromCivilNextInMonth(y, m, d);
    } else if m == 2 {
      assert n == (y, 3, 1) && d == DaysInMonth(y, 2);
      DaysFromCivilMarchFirst(y);
    } else if m == 12 {
      assert n == (y + 1, 1, 1) && d == 31;
      DaysFromCivilNewYear(y);
    } else {
      assert n == (y, m + 1, 1) && d == DaysInMonth(y, m);
      DaysFromCivilNextMonth(y, m);
    }
  }

  /** The remainder by 7 of the next number is the next remainder, wrapping at 7. */
  lemma ModSevenStep(x: int)
    ensures (x + 1) % 7 == (x % 7 + 1) % 7
  {
    ModShift(x + 1, 7, x % 7 + 1, x / 7);
  }

  /** The weekday advances by one, Sunday to Monday, from each calendar day to the next. */
  lemma WeekdayNext(t: Timestamp)
    requires Valid(t)
    ensures var n := NextDate(t.year, t.month, t.day);
            Weekday(Timestamp(n.0, n.1, n.2, t.hour, t.minute, t.second)) == Succ(Weekday(t))
  {
    var n := NextDate(t.year, t.month, t.day);
    var x := DaysFromCivil(t.year, t.month, t.day) + 3;
    DaysFromCivilNext(t.year, t.month, t.day);
    assert DaysFromCivil(n.0, n.1, n.2) + 3 == x + 1;
    ModSevenStep(x);
    assert Index(Weekday(t)) == x % 7;
  }

  /** The weekday does not depend on the time of day. */
  lemma WeekdayIgnoresTime(t: Timestamp, hour: int, minute: int, second: int)
    ensures Weekday(t.(hour := hour, minute := minute, second := second)) == Weekday(t)
  {
  }

  /** Day 0 is 1970-01-01, a Thursday. */
  lemma EpochIsThursday()
    ensures DaysFromCivil(1970, 1, 1) == 0
    ensures Weekday(Timestamp(1970, 1, 1, 0, 0, 0)) == Thursday
  {
    DaysFromCivilByYearStart(1970, 1, 1);
    assert YearStart(1969) == 719162 by {
      assert 1969 / 400 == 4 && 1969 % 400 == 369;
    }
  }

  /** 2024-01-01 and 2024-03-04 are Mondays. */
  lemma MondayExamples()
    ensures Weekday(Timestamp(2024, 1, 1, 0, 0, 0)) == Monday
    ensures Weekday(Timestamp(2024, 3, 4, 0, 0, 0)) == Monday
  {
    DaysFromCivilByYearStart(2024, 1, 1);
    DaysFromCivilByYearStart(2024, 3, 4);
    assert YearStart(2023) == 738885 by {
      assert 2023 / 400 == 5 && 2023 % 400 == 23;
    }
    assert YearStart(2024) == 739251 by {
      assert 2024 / 400 == 5 && 2024 % 400 == 24;
    }
    assert DaysFromCivil(2024, 1, 1) == 19723;
    assert DaysFromCivil(2024, 3, 4) == 19786;
  }

  /** Chronological order of timestamps: the order pandas sorts the `date` group keys in. */
  predicate Before(a: Timestamp, b: Timestamp)
  {
    if a.year != b.year then a.year < b.year
    else if a.month != b.month then a.month < b.month
    else if a.day != b.day then a.day < b.day
    else if a.hour != b.hour then a.hour < b.hour
    else if a.minute != b.minute then a.minute < b.minute
    else a.second < b.second
  }

  /** Chronological order is a strict total order. */
  lemma BeforeIsStrictTotalOrder(a: Timestamp, b: Timestamp, c: Timestamp)
    ensures !Before(a, a)
    ensures Before(a, b) && Before(b, c) ==> Before(a, c)
    ensures a != b ==> Before(a, b) || Before(b, a)
    ensures Before(a, b) ==> !Before(b, a)
  {
  }
}
