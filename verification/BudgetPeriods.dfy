/** Budget periods: the key under which spending is counted, and the time of the next reset. */
module BudgetPeriods {
  import opened Common
  import opened Calendar

  /** Nanoseconds in a day. */
  const DAY := 86_400_000_000_000

  /** Any word other than the three known ones is a lifetime budget. */
  datatype Period = Daily | Weekly | Monthly | Lifetime

  /** An instant, in nanoseconds from the start of day 0 in UTC, with the offset of the zone it is shown in. */
  datatype Time = Time(utc: int, offset: int)

  datatype Key = DayKey(date: Date) | WeekKey(week: Week) | MonthKey(year: int, month: int) | LifetimeKey

  function DayAt(t: int): int { t / DAY }

  /** `periodKeyNow`. Days and months are those of UTC; the week is that of the zone the time is shown in. */
  function PeriodKey(p: Period, now: Time): Key {
    match p
    case Daily => DayKey(DateOf(DayAt(now.utc)))
    case Weekly => WeekKey(IsoWeek(DayAt(now.utc + now.offset)))
    case Monthly => var d := DateOf(DayAt(now.utc)); MonthKey(d.year, d.month)
    case Lifetime => LifetimeKey
  }

  /** `AddDate` on a UTC time. */
  function AddDate(t: int, months: int, days: int): int {
    var d := DateOf(DayAt(t));
    DayNumber(d.year, d.month + months, d.day + days) * DAY + t % DAY
  }

  /** `nextReset`; a lifetime budget has none. */
  function NextReset(p: Period, now: Time): Option<int> {
    match p
    case Daily =>
      var d := DateOf(DayAt(AddDate(now.utc, 0, 1)));
      Some(DayNumber(d.year, d.month, d.day) * DAY)
    case Weekly =>
      var w := IsoWeek(DayAt(now.utc + now.offset));
      Some(AddDate(IsoWeekStart(w.year, w.number) * DAY, 0, 7))
    case Monthly =>
      var t := AddDate(now.utc, 1, -DateOf(DayAt(now.utc)).day + 1);
      Some(t - t % DAY)
    case Lifetime => None
  }

  // ----- what the reset times are -----

  lemma AddDays(t: int, days: int)
    ensures AddDate(t, 0, days) == t + days * DAY
  {
    var d := DateOf(DayAt(t));
    DateRoundTrip(DayAt(t));
    InYear(d.year, d.month, d.day);
    InYear(d.year, d.month, d.day + days);
    hide DateOf, DayNumber, MonthStart;
  }

  lemma DailyReset(now: Time)
    ensures NextReset(Daily, now) == Some((DayAt(now.utc) + 1) * DAY)
  {
    AddDays(now.utc, 1);
    var next := DayAt(now.utc + DAY);
    assert next == DayAt(now.utc) + 1;
    DateRoundTrip(next);
    hide DateOf, DayNumber, AddDate, DayAt;
  }

  lemma WeeklyReset(now: Time)
    ensures NextReset(Weekly, now) == Some((Monday(DayAt(now.utc + now.offset)) + 7) * DAY)
  {
    var day := DayAt(now.utc + now.offset);
    WeekStartsOnMonday(day);
    AddDays(Monday(day) * DAY, 7);
    hide DateOf, DayNumber, AddDate, DayAt, IsoWeek, IsoWeekStart, Monday;
  }

  lemma WholeDays(n: int, rest: int)
    requires 0 <= rest < DAY
    ensures var t := n * DAY + rest; t - t % DAY == n * DAY
  {
  }

  lemma FirstOfNextMonth(t: int)
    ensures var d := DateOf(DayAt(t)); AddDate(t, 1, -d.day + 1) == MonthStart(d.year, d.month + 1) * DAY + t % DAY
  {
    var d := DateOf(DayAt(t));
    NextMonth(d.year, d.month);
    assert d.day + (-d.day + 1) == 1;
    hide DateOf, DayNumber, MonthStart, DayAt;
  }

  lemma MonthlyReset(now: Time)
    ensures var d := DateOf(DayAt(now.utc)); NextReset(Monthly, now) == Some(MonthStart(d.year, d.month + 1) * DAY)
  {
    hide DateOf, DayNumber, MonthStart, DayAt, AddDate;
    var d := DateOf(DayAt(now.utc));
    FirstOfNextMonth(now.utc);
    WholeDays(MonthStart(d.year, d.month + 1), now.utc % DAY);
  }

  // ----- when two keys are equal -----

  lemma SameDay(a: Time, b: Time)
    ensures PeriodKey(Daily, a) == PeriodKey(Daily, b) <==> DayAt(a.utc) == DayAt(b.utc)
  {
    DateRoundTrip(DayAt(a.utc));
    DateRoundTrip(DayAt(b.utc));
    hide DateOf, DayNumber, DayAt;
  }

  lemma SameWeekKey(a: Time, b: Time)
    ensures PeriodKey(Weekly, a) == PeriodKey(Weekly, b) <==>
            Monday(DayAt(a.utc + a.offset)) == Monday(DayAt(b.utc + b.offset))
  {
    SameWeek(DayAt(a.utc + a.offset), DayAt(b.utc + b.offset));
    hide IsoWeek, Monday, DayAt;
  }

  lemma SameMonth(a: Time, b: Time)
    ensures var d := DateOf(DayAt(a.utc));
            PeriodKey(Monthly, a) == PeriodKey(Monthly, b) <==>
            MonthStart(d.year, d.month) <= DayAt(b.utc) < MonthStart(d.year, d.month + 1)
  {
    var d := DateOf(DayAt(a.utc));
    hide MonthStart, DayAt;
    if MonthStart(d.year, d.month) <= DayAt(b.utc) < MonthStart(d.year, d.month + 1) {
      MonthUnique(DayAt(b.utc), d.year, d.month);
    }
  }

  /** The key stays what it is until the given later time, and is another one then. */
  ghost predicate HoldsUntil(p: Period, now: Time, end: int) {
    && now.utc < end
    && (forall t :: now.utc <= t < end ==> PeriodKey(p, Time(t, now.offset)) == PeriodKey(p, now))
    && PeriodKey(p, Time(end, now.offset)) != PeriodKey(p, now)
  }

  lemma DailyHolds(now: Time)
    ensures HoldsUntil(Daily, now, (DayAt(now.utc) + 1) * DAY)
  {
    hide PeriodKey;
    var end := (DayAt(now.utc) + 1) * DAY;
    SameDay(Time(end, now.offset), now);
    forall t | now.utc <= t < end ensures PeriodKey(Daily, Time(t, now.offset)) == PeriodKey(Daily, now) {
      SameDay(Time(t, now.offset), now);
    }
  }

  lemma MonthlyHolds(now: Time)
    ensures var d := DateOf(DayAt(now.utc)); HoldsUntil(Monthly, now, MonthStart(d.year, d.month + 1) * DAY)
  {
    var d := DateOf(DayAt(now.utc));
    hide PeriodKey, MonthStart, DateOf;
    var end := MonthStart(d.year, d.month + 1) * DAY;
    SameMonth(now, Time(end, now.offset));
    forall t | now.utc <= t < end ensures PeriodKey(Monthly, Time(t, now.offset)) == PeriodKey(Monthly, now) {
      SameMonth(now, Time(t, now.offset));
    }
  }

  lemma DayBounds(t: int)
    ensures DayAt(t) * DAY <= t < (DayAt(t) + 1) * DAY
  {
  }

  lemma MondayBounds(day: int)
    ensures Monday(day) <= day < Monday(day) + 7
    ensures forall d :: Monday(day) <= d < Monday(day) + 7 ==> Monday(d) == Monday(day)
  {
  }

  /** The instants of a local week. */
  lemma WeekSpan(now: Time, t: int)
    ensures var m := Monday(DayAt(now.utc + now.offset));
            PeriodKey(Weekly, Time(t, now.offset)) == PeriodKey(Weekly, now) <==>
            m * DAY <= t + now.offset < (m + 7) * DAY
  {
    var day, other := DayAt(now.utc + now.offset), DayAt(t + now.offset);
    SameWeekKey(Time(t, now.offset), now);
    MondayBounds(day);
    MondayBounds(other);
    DayBounds(t + now.offset);
    hide PeriodKey, Monday, DayAt;
  }

  /** For weeks the reset is right only where local time is UTC: east of it the key changes early, west of it the
      reset comes before the key changes. */
  lemma WeeklyHoldsIff(now: Time)
    requires -DAY < now.offset < DAY
    ensures HoldsUntil(Weekly, now, (Monday(DayAt(now.utc + now.offset)) + 7) * DAY) <==> now.offset == 0
  {
    hide PeriodKey, Monday, DayAt;
    var m := Monday(DayAt(now.utc + now.offset));
    var end := (m + 7) * DAY;
    WeekSpan(now, now.utc);
    WeekSpan(now, end);
    WeekSpan(now, end - 1);
    forall t ensures PeriodKey(Weekly, Time(t, now.offset)) == PeriodKey(Weekly, now) <==>
                     m * DAY <= t + now.offset < (m + 7) * DAY {
      WeekSpan(now, t);
    }
  }

  /** Main result: in every period that resets, the key is constant from now up to the next reset and different
      there, exactly when the period is not weekly or the time is shown in UTC. */
  lemma KeyTurnsAtReset(p: Period, now: Time)
    requires p != Lifetime && -DAY < now.offset < DAY
    ensures NextReset(p, now).Some? && (HoldsUntil(p, now, NextReset(p, now).value) <==> p != Weekly || now.offset == 0)
  {
    hide NextReset, HoldsUntil;
    match p
    case Daily => DailyReset(now); DailyHolds(now);
    case Weekly => WeeklyReset(now); WeeklyHoldsIff(now);
    case Monthly => MonthlyReset(now); MonthlyHolds(now);
  }

  /** In one zone the instants that share a key are contiguous. */
  lemma KeysContiguous(p: Period, a: int, b: int, c: int, offset: int)
    requires a <= b <= c && PeriodKey(p, Time(a, offset)) == PeriodKey(p, Time(c, offset))
    ensures PeriodKey(p, Time(b, offset)) == PeriodKey(p, Time(a, offset))
  {
    hide DateOf, MonthStart, IsoWeek, Monday;
    match p
    case Daily =>
      SameDay(Time(a, offset), Time(c, offset));
      SameDay(Time(a, offset), Time(b, offset));
    case Weekly =>
      WeekSpan(Time(a, offset), a);
      WeekSpan(Time(a, offset), b);
      WeekSpan(Time(a, offset), c);
    case Monthly =>
      SameMonth(Time(a, offset), Time(b, offset));
      SameMonth(Time(a, offset), Time(c, offset));
      SameMonth(Time(a, offset), Time(a, offset));
    case Lifetime =>
  }
}
