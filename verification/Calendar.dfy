/** Days of the proleptic Gregorian calendar, as Go's time package counts them. Day 0 is Monday, 1 January of
    year 1; earlier days are negative. */
module Calendar {
  function YearStart(y: int): int {
    365 * (y - 1) + (y - 1) / 4 - (y - 1) / 100 + (y - 1) / 400
  }

  predicate Leap(y: int) {
    y % 4 == 0 && (y % 100 != 0 || y % 400 == 0)
  }

  lemma DivStep(k: int, m: int)
    requires m == 4 || m == 100 || m == 400
    ensures (k + 1) / m - k / m == if (k + 1) % m == 0 then 1 else 0
  {
  }

  lemma Divisors(y: int)
    ensures y % 100 == 0 ==> y % 4 == 0
    ensures y % 400 == 0 ==> y % 100 == 0
  {
    if y % 100 == 0 { assert y == 4 * (25 * (y / 100)); }
    if y % 400 == 0 { assert y == 100 * (4 * (y / 400)); }
  }

  lemma YearLength(y: int)
    ensures YearStart(y + 1) - YearStart(y) == if Leap(y) then 366 else 365
  {
    Divisors(y);
    var a, b, c := y % 4 == 0, y % 100 == 0, y % 400 == 0;
    DivStep(y - 1, 4);
    DivStep(y - 1, 100);
    DivStep(y - 1, 400);
    assert Leap(y) == (a && (!b || c));
    assert YearStart(y + 1) - YearStart(y) == 365 + (if a then 1 else 0) - (if b then 1 else 0) + (if c then 1 else 0);
    hide YearStart, Leap;
  }

  /** The mean year is within two days of every year's start. */
  lemma MeanYear(k: int)
    ensures 146097 * k - 800 < 400 * YearStart(k + 1) < 146097 * k + 400
  {
  }

  function YearOf(day: int): (y: int)
    ensures YearStart(y) <= day < YearStart(y + 1)
  {
    var e := 400 * day / 146097;
    MeanYear(e);
    MeanYear(e + 1);
    YearLength(e);
    YearLength(e + 2);
    if day < YearStart(e + 1) then e else if day >= YearStart(e + 2) then e + 2 else e + 1
  }

  /** Days before a month in a year of 365 days. */
  function DaysBefore(m: int): int
    requires 1 <= m <= 13
  {
    [0, 31, 59, 90, 120, 151, 181, 212, 243, 273, 304, 334, 365][m - 1]
  }

  function MonthStart(y: int, m: int): int
    requires 1 <= m <= 13
  {
    YearStart(y) + DaysBefore(m) + if m > 2 && Leap(y) then 1 else 0
  }

  function MonthFrom(y: int, day: int, m: int): (r: int)
    requires 1 <= m <= 12 && MonthStart(y, m) <= day < MonthStart(y, 13)
    ensures m <= r <= 12 && MonthStart(y, r) <= day < MonthStart(y, r + 1)
    decreases 12 - m
  {
    if m == 12 || day < MonthStart(y, m + 1) then m else MonthFrom(y, day, m + 1)
  }

  datatype Date = Date(year: int, month: int, day: int)

  function DateOf(day: int): (d: Date)
    ensures 1 <= d.month <= 12 && MonthStart(d.year, d.month) <= day < MonthStart(d.year, d.month + 1)
    ensures d.day == day - MonthStart(d.year, d.month) + 1
  {
    var y := YearOf(day);
    YearLength(y);
    var m := MonthFrom(y, day, 1);
    Date(y, m, day - MonthStart(y, m) + 1)
  }

  /** `time.Date`: months beyond the year and days beyond the month carry over. */
  function DayNumber(y: int, m: int, d: int): int {
    MonthStart(y + (m - 1) / 12, (m - 1) % 12 + 1) + d - 1
  }

  lemma InYear(y: int, m: int, d: int)
    requires 1 <= m <= 12
    ensures DayNumber(y, m, d) == MonthStart(y, m) + d - 1
  {
    assert (m - 1) / 12 == 0 && (m - 1) % 12 == m - 1;
  }

  lemma DateRoundTrip(day: int)
    ensures var d := DateOf(day); DayNumber(d.year, d.month, d.day) == day
  {
    var d := DateOf(day);
    InYear(d.year, d.month, d.day);
    hide DateOf, MonthStart, DayNumber;
  }

  /** A day belongs to one year only. */
  lemma YearUnique(day: int, y: int)
    requires YearStart(y) <= day < YearStart(y + 1)
    ensures YearOf(day) == y
  {
    hide YearOf;
    var z := YearOf(day);
    if z < y { YearsAscend(z + 1, y); } else if z > y { YearsAscend(y + 1, z); }
  }

  lemma YearsAscend(a: int, b: int)
    requires a <= b
    ensures YearStart(a) <= YearStart(b)
    decreases b - a
  {
    if a < b {
      YearLength(a);
      YearsAscend(a + 1, b);
    }
  }

  lemma MonthsAscend(y: int, a: int, b: int)
    requires 1 <= a <= b <= 13
    ensures MonthStart(y, a) <= MonthStart(y, b)
  {
  }

  /** And to one month only. */
  lemma MonthUnique(day: int, y: int, m: int)
    requires 1 <= m <= 12 && MonthStart(y, m) <= day < MonthStart(y, m + 1)
    ensures DateOf(day).year == y && DateOf(day).month == m
  {
    hide YearOf, YearStart, MonthFrom;
    YearLength(y);
    MonthsAscend(y, 1, m);
    MonthsAscend(y, m + 1, 13);
    YearUnique(day, y);
    var r := DateOf(day).month;
    if r < m { MonthsAscend(y, r + 1, m); } else if r > m { MonthsAscend(y, m + 1, r); }
  }

  // ----- weeks -----

  /** `Weekday`: Sunday is 0. */
  function Weekday(day: int): int {
    (day + 1) % 7
  }

  datatype Week = Week(year: int, number: int)

  /** `ISOWeek`: the year of the week's Thursday, and how many Thursdays of that year have come. */
  function IsoWeek(day: int): Week {
    var d := 4 - Weekday(day);
    var thursday := day + if d == 4 then -3 else d;
    var y := YearOf(thursday);
    Week(y, (thursday - YearStart(y)) / 7 + 1)
  }

  /** `isoWeekStart` */
  function IsoWeekStart(year: int, week: int): int {
    var jan4 := DayNumber(year, 1, 4);
    var wd := Weekday(jan4);
    (if wd == 0 then jan4 - 6 else jan4 - (wd - 1)) + (week - 1) * 7
  }

  function Monday(day: int): int {
    day - day % 7
  }

  lemma NextWeekday(day: int)
    ensures Weekday(day) == if day % 7 == 6 then 0 else day % 7 + 1
  {
  }

  lemma FirstMonday(y: int, week: int)
    ensures IsoWeekStart(y, week) == Monday(YearStart(y) + 3) + 7 * (week - 1)
  {
    NextWeekday(YearStart(y) + 3);
    assert DayNumber(y, 1, 4) == YearStart(y) + 3;
    hide YearStart, DayNumber, Weekday;
  }

  /** The Monday before the 4th of January plus the weeks gone by, for a Monday m in the year that starts at s. */
  lemma CountMondays(s: int, m: int)
    requires m % 7 == 0
    ensures Monday(s + 3) + 7 * ((m + 3 - s) / 7) == m
  {
    var q, k, j := m / 7, (m + 3 - s) / 7, (s + 3) / 7;
    var r := m + 3 - s - 7 * k;
    assert 0 <= r < 7 && m == 7 * q;
    var e := s + 3 - 7 * j;
    assert Monday(s + 3) == 7 * j && 0 <= e < 7;
    assert 7 * (j + k - q) == 6 - r - e;
    assert -6 <= 6 - r - e <= 6;
  }

  lemma Thursday(day: int)
    ensures IsoWeek(day) == var t := Monday(day) + 3; Week(YearOf(t), (t - YearStart(YearOf(t))) / 7 + 1)
  {
    hide YearOf, YearStart;
  }

  /** Main result on weeks: for every day, the start computed from its ISO year and week is the Monday of its week. */
  lemma WeekStartsOnMonday(day: int)
    ensures IsoWeekStart(IsoWeek(day).year, IsoWeek(day).number) == Monday(day)
  {
    Thursday(day);
    var w := IsoWeek(day);
    FirstMonday(w.year, w.number);
    hide IsoWeekStart, IsoWeek, YearOf, YearStart;
    CountMondays(YearStart(w.year), Monday(day));
  }

  /** Two days have the same ISO year and week exactly when they lie in the same Monday-to-Sunday week. */
  lemma SameWeek(a: int, b: int)
    ensures IsoWeek(a) == IsoWeek(b) <==> Monday(a) == Monday(b)
  {
    WeekStartsOnMonday(a);
    WeekStartsOnMonday(b);
    Thursday(a);
    Thursday(b);
    hide IsoWeek, IsoWeekStart, Monday, YearOf, YearStart;
  }

  /** Week 1 is the week of 4 January. */
  lemma FirstWeek(y: int)
    ensures IsoWeek(DayNumber(y, 1, 4)) == Week(y, 1)
  {
    hide IsoWeek, YearOf, YearStart, DayNumber;
    var jan4 := DayNumber(y, 1, 4);
    InYear(y, 1, 4);
    Thursday(jan4);
    YearLength(y);
    YearUnique(Monday(jan4) + 3, y);
  }

  /** Week numbers run from 1 to at most 53. */
  lemma WeekNumbers(day: int)
    ensures 1 <= IsoWeek(day).number <= 53
  {
    Thursday(day);
    var t := Monday(day) + 3;
    var y := YearOf(t);
    YearLength(y);
    var n := t - YearStart(y);
    assert 0 <= n < 366;
    assert IsoWeek(day).number == n / 7 + 1;
    hide *;
    assert 0 <= n / 7 <= 52;
  }

  // ----- the calendar in figures -----

  /** A year has 366 days if it is divisible by 4 but not by 100, or by 400, and 365 otherwise. */
  lemma YearDays(y: int)
    ensures DayNumber(y + 1, 1, 1) - DayNumber(y, 1, 1) ==
            if (y % 4 == 0 && y % 100 != 0) || y % 400 == 0 then 366 else 365
  {
    YearLength(y);
    Divisors(y);
    InYear(y, 1, 1);
    InYear(y + 1, 1, 1);
    hide YearStart;
  }

  /** The first day of the month after month m of year y. */
  lemma NextMonth(y: int, m: int)
    requires 1 <= m <= 12
    ensures DayNumber(y, m + 1, 1) == MonthStart(y, m + 1)
  {
    if m < 12 {
      InYear(y, m + 1, 1);
    } else {
      assert (13 - 1) / 12 == 1 && (13 - 1) % 12 == 0;
      YearLength(y);
      hide YearStart, Leap;
    }
  }

  lemma LeapIs(y: int)
    ensures Leap(y) <==> (y % 4 == 0 && y % 100 != 0) || y % 400 == 0
  {
    Divisors(y);
  }

  lemma MonthStep(y: int, m: int)
    requires 1 <= m <= 12
    ensures MonthStart(y, m + 1) - MonthStart(y, m) ==
            if m == 2 then (if Leap(y) then 29 else 28)
            else if m == 4 || m == 6 || m == 9 || m == 11 then 30 else 31
  {
    hide YearStart, Leap;
  }

  /** The days of a month, the one after December being January. */
  lemma MonthDays(y: int, m: int)
    requires 1 <= m <= 12
    ensures DayNumber(y, m + 1, 1) - DayNumber(y, m, 1) ==
            if m == 2 then (if (y % 4 == 0 && y % 100 != 0) || y % 400 == 0 then 29 else 28)
            else if m == 4 || m == 6 || m == 9 || m == 11 then 30 else 31
  {
    hide MonthStart, DayNumber, Leap;
    LeapIs(y);
    MonthStep(y, m);
    InYear(y, m, 1);
    NextMonth(y, m);
  }

  /** 1 January 1970 was a Thursday, 719162 days after 1 January of year 1; weekdays repeat after seven days. */
  lemma Epoch(day: int)
    ensures DayNumber(1970, 1, 1) == 719_162 && Weekday(719_162) == 4
    ensures Weekday(day + 1) == if Weekday(day) == 6 then 0 else Weekday(day) + 1
    ensures Weekday(Monday(day)) == 1 && Monday(day) <= day < Monday(day) + 7
  {
  }

  /** Sunday, 3 January 2021 lies in week 53 of 2020, and Monday, 30 December 2024 in week 1 of 2025. */
  lemma KnownWeeks()
    ensures IsoWeek(DayNumber(2021, 1, 3)) == Week(2020, 53)
    ensures IsoWeek(DayNumber(2024, 12, 30)) == Week(2025, 1)
  {
    KnownDays();
    hide IsoWeek, DayNumber, YearStart, Monday, YearOf;
    InWeek(737_792, 737_786, 2020, 737_424, 737_790);
    InWeek(739_249, 739_249, 2025, 739_251, 739_616);
  }

  lemma KnownDays()
    ensures DayNumber(2021, 1, 3) == 737_792 && DayNumber(2024, 12, 30) == 739_249
    ensures YearStart(2020) == 737_424 && YearStart(2021) == 737_790
    ensures YearStart(2025) == 739_251 && YearStart(2026) == 739_616
    ensures Monday(737_792) == 737_786 && Monday(739_249) == 739_249
  {
  }

  lemma InWeek(day: int, monday: int, y: int, start: int, next: int)
    requires Monday(day) == monday && YearStart(y) == start && YearStart(y + 1) == next && start <= monday + 3 < next
    ensures IsoWeek(day) == Week(y, (monday + 3 - start) / 7 + 1)
  {
    hide IsoWeek, YearStart, Monday, YearOf;
    Thursday(day);
    YearUnique(monday + 3, y);
  }
}
