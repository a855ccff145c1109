/** Civil dates as the billing engine uses them (internal/billing/engine.go): Go's normalising
    `time.Date` and `AddDate`, the billing anchor, the due date and the billing clock. All wall
    clocks of one tenant share one location, so a date is a proleptic Gregorian year, month, day. */
module Calendar {

  datatype Date = Date(year: int, month: int, day: int)

  predicate Leap(year: int) {
    year % 4 == 0 && (year % 100 != 0 || year % 400 == 0)
  }

  function DaysIn(year: int, month: int): int {
    if month == 2 then (if Leap(year) then 29 else 28)
    else if month == 4 || month == 6 || month == 9 || month == 11 then 30
    else 31
  }

  predicate IsDate(d: Date) {
    1 <= d.month <= 12 && 1 <= d.day <= DaysIn(d.year, d.month)
  }

  function DaysBeforeYear(year: int): int {
    365 * (year - 1) + (year - 1) / 4 - (year - 1) / 100 + (year - 1) / 400
  }

  function DaysBeforeMonth(year: int, month: int): int
    requires 1 <= month <= 13
    decreases month
  {
    if month == 1 then 0 else DaysBeforeMonth(year, month - 1) + DaysIn(year, month - 1)
  }

  /** Day number of a date; the day after it has the next number. */
  function Ordinal(d: Date): int
    requires 1 <= d.month <= 12
  {
    DaysBeforeYear(d.year) + DaysBeforeMonth(d.year, d.month) + d.day
  }

  predicate Before(a: Date, b: Date) {
    a.year < b.year || (a.year == b.year && (a.month < b.month || (a.month == b.month && a.day < b.day)))
  }

  // ----- The calendar is a number line -----

  lemma YearLength(year: int)
    ensures DaysBeforeYear(year + 1) == DaysBeforeYear(year) + 365 + if Leap(year) then 1 else 0
    ensures DaysBeforeMonth(year, 13) == 365 + if Leap(year) then 1 else 0
  {
    LeapDays(year);
    MonthTable(year);
  }

  lemma LeapDays(year: int)
    ensures DaysBeforeYear(year + 1) == DaysBeforeYear(year) + 365 + if Leap(year) then 1 else 0
  {
    Fourths(year);
    Hundredths(year);
    FourHundredths(year);
    CenturiesDivide(year);
  }

  lemma Fourths(year: int)
    ensures year / 4 - (year - 1) / 4 == if year % 4 == 0 then 1 else 0
  {
  }

  lemma Hundredths(year: int)
    ensures year / 100 - (year - 1) / 100 == if year % 100 == 0 then 1 else 0
  {
  }

  lemma FourHundredths(year: int)
    ensures year / 400 - (year - 1) / 400 == if year % 400 == 0 then 1 else 0
  {
  }

  lemma CenturiesDivide(year: int)
    ensures year % 400 == 0 ==> year % 100 == 0
    ensures year % 100 == 0 ==> year % 4 == 0
  {
  }

  lemma MonthTable(year: int)
    ensures DaysBeforeMonth(year, 13) == 365 + if Leap(year) then 1 else 0
  {
    assert DaysBeforeMonth(year, 3) == DaysBeforeMonth(year, 2) + DaysIn(year, 2);
    assert DaysBeforeMonth(year, 5) == DaysBeforeMonth(year, 4) + 30;
    assert DaysBeforeMonth(year, 7) == DaysBeforeMonth(year, 6) + 30;
    assert DaysBeforeMonth(year, 9) == DaysBeforeMonth(year, 8) + 31;
    assert DaysBeforeMonth(year, 11) == DaysBeforeMonth(year, 10) + 31;
  }

  lemma {:induction false} YearsGrow(a: int, b: int)
    requires a < b
    ensures DaysBeforeYear(a + 1) <= DaysBeforeYear(b)
    decreases b - a
  {
    if a + 1 < b {
      YearLength(a + 1);
      YearsGrow(a + 1, b);
    }
  }

  lemma {:induction false} MonthsGrow(year: int, a: int, b: int)
    requires 1 <= a < b <= 13
    ensures DaysBeforeMonth(year, a) + DaysIn(year, a) <= DaysBeforeMonth(year, b)
    decreases b
  {
    if a < b - 1 {
      MonthsGrow(year, a, b - 1);
    }
  }

  lemma OrdinalFollowsOrder(a: Date, b: Date)
    requires IsDate(a) && IsDate(b) && Before(a, b)
    ensures Ordinal(a) < Ordinal(b)
  {
    if a.year < b.year {
      MonthsGrow(a.year, a.month, 13);
      YearLength(a.year);
      YearsGrow(a.year, b.year);
      if b.month > 1 {
        MonthsGrow(b.year, 1, b.month);
      }
    } else if a.month < b.month {
      MonthsGrow(a.year, a.month, b.month);
    }
  }

  /** Dates and day numbers are ordered alike. */
  lemma OrdinalOrder(a: Date, b: Date)
    requires IsDate(a) && IsDate(b)
    ensures Before(a, b) <==> Ordinal(a) < Ordinal(b)
    ensures a == b <==> Ordinal(a) == Ordinal(b)
  {
    if Before(a, b) {
      OrdinalFollowsOrder(a, b);
    } else if a != b {
      OrdinalFollowsOrder(b, a);
    }
  }

  // ----- time.Date and AddDate -----

  /** `time.Date` for a month at most one past December and a day spilling over at most one month. */
  function Normal(year: int, month: int, day: int): (d: Date)
    requires 1 <= month <= 13 && 1 <= day <= 38
    ensures IsDate(d)
  {
    var y, m := if month == 13 then year + 1 else year, if month == 13 then 1 else month;
    if day <= DaysIn(y, m) then Date(y, m, day)
    else if m == 12 then Date(y + 1, 1, day - DaysIn(y, m))
    else Date(y, m + 1, day - DaysIn(y, m))
  }

  /** Overflowing days are counted on from the first of the normalised month. */
  lemma NormalCountsOn(year: int, month: int, day: int)
    requires 1 <= month <= 13 && 1 <= day <= 38
    ensures var first := Normal(year, month, 1);
            Ordinal(Normal(year, month, day)) == Ordinal(first) + day - 1
  {
    hide DaysBeforeYear, Leap;
    var first := Normal(year, month, 1);
    YearLength(first.year);
  }

  function Tomorrow(d: Date): (t: Date)
    requires IsDate(d)
    ensures IsDate(t)
  {
    Normal(d.year, d.month, d.day + 1)
  }

  // ----- Anchors and due dates -----

  function ClampDay(day: int): int {
    if day < 1 then 1 else if day > 28 then 28 else day
  }

  function NextCycleAnchor(from: Date, day: int): (d: Date)
    requires IsDate(from)
    ensures IsDate(d)
  {
    var k := ClampDay(day);
    var candidate := Normal(from.year, from.month, k);
    if Before(from, candidate) then candidate else Normal(from.year, from.month + 1, k)
  }

  function NextDueDate(from: Date, day: int): (d: Date)
    requires IsDate(from)
    ensures IsDate(d)
  {
    var k := ClampDay(day);
    if from.day <= k then Normal(from.year, from.month, k) else Normal(from.year, from.month + 1, k)
  }

  /** The due date is the first date on or after `from` that falls on the clamped day. */
  lemma NextDueDateIsLeast(from: Date, day: int)
    requires IsDate(from)
    ensures var due := NextDueDate(from, day);
            && due.day == (if day < 1 then 1 else if 28 < day then 28 else day)
            && !Before(due, from)
            && (forall d :: IsDate(d) && d.day == ClampDay(day) && !Before(d, from) ==> !Before(d, due))
            && 0 <= Ordinal(due) - Ordinal(from) <= 30
  {
    DueDateGap(from, day);
  }

  lemma DueDateGap(from: Date, day: int)
    requires IsDate(from)
    ensures 0 <= Ordinal(NextDueDate(from, day)) - Ordinal(from) <= 30
  {
    var year, month := from.year, from.month;
    NormalCountsOn(year, month, from.day);
    if from.day <= ClampDay(day) {
      NormalCountsOn(year, month, ClampDay(day));
    } else {
      NormalCountsOn(year, month, DaysIn(year, month) + 1);
      NormalCountsOn(year, month + 1, ClampDay(day));
      assert Normal(year, month, DaysIn(year, month) + 1) == Normal(year, month + 1, 1);
    }
  }

  /** The billing anchor is the first date strictly after `from` that falls on the clamped day. */
  lemma NextCycleAnchorIsLeast(from: Date, day: int)
    requires IsDate(from)
    ensures var anchor := NextCycleAnchor(from, day);
            && anchor.day == (if day < 1 then 1 else if 28 < day then 28 else day)
            && Before(from, anchor)
            && (forall d :: IsDate(d) && d.day == ClampDay(day) && Before(from, d) ==> !Before(d, anchor))
            && 1 <= Ordinal(anchor) - Ordinal(from) <= 31
  {
    AnchorGap(from, day);
  }

  lemma AnchorGap(from: Date, day: int)
    requires IsDate(from)
    ensures 1 <= Ordinal(NextCycleAnchor(from, day)) - Ordinal(from) <= 31
  {
    AnchorIsDueDateFromTomorrow(from, day);
    DueDateGap(Tomorrow(from), day);
    TomorrowIsNext(from);
  }

  lemma TomorrowIsNext(d: Date)
    requires IsDate(d)
    ensures Ordinal(Tomorrow(d)) == Ordinal(d) + 1
  {
    NormalCountsOn(d.year, d.month, d.day);
    NormalCountsOn(d.year, d.month, d.day + 1);
  }

  lemma AnchorIsDueDateFromTomorrow(from: Date, day: int)
    requires IsDate(from)
    ensures NextCycleAnchor(from, day) == NextDueDate(Tomorrow(from), day)
  {
  }

  // ----- The billing clock -----

  function NextBillDate(from: Date, cycle: string): (d: Date)
    requires IsDate(from)
    ensures IsDate(d)
  {
    if cycle == "daily" then Normal(from.year, from.month, from.day + 1)
    else if cycle == "weekly" then Normal(from.year, from.month, from.day + 7)
    else if cycle == "yearly" then Normal(from.year + 1, from.month, from.day)
    else Normal(from.year, from.month + 1, from.day)
  }

  /** The clock after `k` steps. */
  function Ticks(from: Date, cycle: string, k: nat): (d: Date)
    requires IsDate(from)
    ensures IsDate(d)
  {
    if k == 0 then from else NextBillDate(Ticks(from, cycle, k - 1), cycle)
  }

  predicate Monthly(cycle: string) {
    cycle != "daily" && cycle != "weekly" && cycle != "yearly"
  }

  /** `k` calendar months later, same day. */
  function PlusMonths(d: Date, k: nat): Date {
    var months := 12 * d.year + d.month - 1 + k;
    Date(months / 12, months % 12 + 1, d.day)
  }

  /** A yearly step keeps the date, the 29th of February apart, which becomes the 1st of March. */
  lemma YearlyTick(from: Date)
    requires IsDate(from)
    ensures NextBillDate(from, "yearly")
            == if from.month == 2 && from.day == 29 then Date(from.year + 1, 3, 1) else from.(year := from.year + 1)
  {
    assert "yearly" != "daily" && "yearly"[0] != "weekly"[0];
  }

  /** A monthly step counts the day from the first of the next month on. */
  lemma MonthlyTick(from: Date, cycle: string)
    requires IsDate(from) && Monthly(cycle)
    ensures var first := if from.month == 12 then Date(from.year + 1, 1, 1) else Date(from.year, from.month + 1, 1);
            Ordinal(NextBillDate(from, cycle)) == Ordinal(first) + from.day - 1
  {
    NormalCountsOn(from.year, from.month + 1, from.day);
  }

  /** The Gregorian calendar. */
  lemma Gregorian(year: int)
    ensures IsDate(Date(year, 2, 29)) <==> year % 4 == 0 && (year % 100 == 0 ==> year % 400 == 0)
    ensures forall m :: 1 <= m <= 12 ==>
              (IsDate(Date(year, m, 31)) <==> m in {1, 3, 5, 7, 8, 10, 12}) && (IsDate(Date(year, m, 30)) <==> m != 2)
    ensures Ordinal(Date(1, 1, 1)) == 1 && Ordinal(Date(2026, 1, 1)) - Ordinal(Date(2025, 1, 1)) == 365
  {
  }

  lemma TickAdvances(from: Date, cycle: string)
    requires IsDate(from)
    ensures Before(from, NextBillDate(from, cycle))
  {
  }

  lemma {:induction false} MonthlyTicksKeepTheDay(from: Date, cycle: string, k: nat)
    requires IsDate(from) && Monthly(cycle) && from.day <= 28
    ensures Ticks(from, cycle, k) == PlusMonths(from, k)
  {
    if k > 0 {
      MonthlyTicksKeepTheDay(from, cycle, k - 1);
      OneMoreMonth(from, k - 1);
      MonthIsOneMonth(PlusMonths(from, k - 1), cycle);
      hide PlusMonths, NextBillDate;
    }
  }

  lemma OneMoreMonth(from: Date, k: nat)
    requires IsDate(from) && from.day <= 28
    ensures IsDate(PlusMonths(from, k)) && PlusMonths(PlusMonths(from, k), 1) == PlusMonths(from, k + 1)
    ensures PlusMonths(from, 0) == from
  {
  }

  lemma MonthIsOneMonth(d: Date, cycle: string)
    requires IsDate(d) && Monthly(cycle) && d.day <= 28
    ensures NextBillDate(d, cycle) == PlusMonths(d, 1)
  {
  }

  lemma {:induction false} WeeklyAndDailyTicks(from: Date, cycle: string, k: nat)
    requires IsDate(from) && (cycle == "weekly" || cycle == "daily")
    ensures Ordinal(Ticks(from, cycle, k)) == Ordinal(from) + k * if cycle == "weekly" then 7 else 1
  {
    if k > 0 {
      WeeklyAndDailyTicks(from, cycle, k - 1);
      OneShortTick(Ticks(from, cycle, k - 1), cycle);
      hide Ordinal, NextBillDate;
    }
  }

  lemma OneShortTick(d: Date, cycle: string)
    requires IsDate(d) && (cycle == "weekly" || cycle == "daily")
    ensures Ordinal(NextBillDate(d, cycle)) == Ordinal(d) + if cycle == "weekly" then 7 else 1
  {
    var step := if cycle == "weekly" then 7 else 1;
    NormalCountsOn(d.year, d.month, d.day);
    NormalCountsOn(d.year, d.month, d.day + step);
    assert NextBillDate(d, cycle) == Normal(d.year, d.month, d.day + step);
    hide NextBillDate, Normal;
  }

  /** Monthly billing keeps its day of the month for ever exactly when that day is at most the
      28th. From a later day, `AddDate` spills over a short month and the day is lost. */
  lemma MonthlyDayIsStableIff(from: Date, cycle: string)
    requires IsDate(from) && Monthly(cycle)
    ensures (forall k: nat :: Ticks(from, cycle, k).day == from.day) <==> from.day <= 28
  {
    if from.day <= 28 {
      forall k: nat
        ensures Ticks(from, cycle, k).day == from.day
      {
        MonthlyTicksKeepTheDay(from, cycle, k);
      }
    } else {
      var k := FirstShortMonth(from, cycle);
    }
  }

  /** Steps until the next February of a common year, or an earlier loss of the day. */
  lemma FirstShortMonth(from: Date, cycle: string) returns (k: nat)
    requires IsDate(from) && Monthly(cycle) && 28 < from.day
    ensures Ticks(from, cycle, k).day != from.day
  {
    var year := if Leap(from.year + 1) then from.year + 2 else from.year + 1;
    k := 0;
    while Ticks(from, cycle, k).day == from.day
      invariant Ticks(from, cycle, k).day == from.day ==>
                  var d := Ticks(from, cycle, k); d.year < year || (d.year == year && d.month == 1)
      decreases 12 * (year - Ticks(from, cycle, k).year) + 1 - Ticks(from, cycle, k).month,
                if Ticks(from, cycle, k).day == from.day then 1 else 0
    {
      k := k + 1;
    }
  }
}
