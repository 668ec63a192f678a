/** Starts of calendar months, in microseconds of UTC. */
module Calendar {
  const MILLISECOND := 1_000
  const DAY := 86_400_000_000

  predicate Leap(year: int) {
    year % 4 == 0 && (year % 100 != 0 || year % 400 == 0)
  }

  /** Days of the year before the month numbered from zero. */
  function DaysBeforeMonth(month: int, leap: bool): int
    requires 0 <= month < 12
  {
    var common := [0, 31, 59, 90, 120, 151, 181, 212, 243, 273, 304, 334];
    common[month] + if leap && month >= 2 then 1 else 0
  }

  function DaysBeforeYear(year: int): int {
    365 * year + (year - 1) / 4 - (year - 1) / 100 + (year - 1) / 400
  }

  /** First instant of a month. The index is year * 12 + month - 1. */
  function MonthStart(index: int): int {
    var year := index / 12;
    (DaysBeforeYear(year) + DaysBeforeMonth(index % 12, Leap(year)) - DaysBeforeYear(1970)) * DAY
  }

  lemma LeapStep(year: int)
    ensures DaysBeforeYear(year + 1) == DaysBeforeYear(year) + if Leap(year) then 366 else 365
  {
    NextQuotient(year - 1);
    LeapDivides(year);
  }

  /** Quotients by 4, 100 and 400 grow by one at their multiples. */
  lemma NextQuotient(p: int)
    ensures (p + 1) / 4 == p / 4 + if (p + 1) % 4 == 0 then 1 else 0
    ensures (p + 1) / 100 == p / 100 + if (p + 1) % 100 == 0 then 1 else 0
    ensures (p + 1) / 400 == p / 400 + if (p + 1) % 400 == 0 then 1 else 0
  {
    NextQuotientBy(p, 4);
    NextQuotientBy(p, 100);
    NextQuotientBy(p, 400);
  }

  lemma NextQuotientBy(p: int, k: nat)
    requires k == 4 || k == 100 || k == 400
    ensures (p + 1) / k == p / k + if (p + 1) % k == 0 then 1 else 0
  {
  }

  lemma LeapDivides(year: int)
    ensures year % 400 == 0 ==> year % 100 == 0
    ensures year % 100 == 0 ==> year % 4 == 0
  {
  }

  lemma NextMonth(index: int)
    ensures MonthStart(index) + 28 * DAY <= MonthStart(index + 1) <= MonthStart(index) + 31 * DAY
  {
    var year, month := index / 12, index % 12;
    if month == 11 {
      assert (index + 1) / 12 == year + 1 && (index + 1) % 12 == 0;
      LeapStep(year);
    } else {
      assert (index + 1) / 12 == year && (index + 1) % 12 == month + 1;
    }
  }

  /** Days from the start of 1970 to that month. */
  function DaysTo(year: int, month: int): int
    requires 0 <= month < 12
  {
    DaysBeforeYear(year) + DaysBeforeMonth(month, Leap(year)) - DaysBeforeYear(1970)
  }

  lemma MonthDaysTo(year: int, month: int)
    requires 0 <= month < 12
    ensures MonthStart(year * 12 + month) == DaysTo(year, month) * DAY
  {
    var index := year * 12 + month;
    assert index / 12 == year && index % 12 == month;
    hide DaysBeforeYear;
    hide DaysBeforeMonth;
    hide Leap;
  }

  /** The days of a month of the calendar. */
  function DaysIn(year: int, month: int): int {
    if month == 4 || month == 6 || month == 9 || month == 11 then 30
    else if month != 2 then 31
    else if year % 4 == 0 && (year % 100 == 0 ==> year % 400 == 0) then 29 else 28
  }

  lemma DaysOfMonth(year: int, month: int)
    requires 1 <= month <= 12
    ensures (if month == 12 then DaysTo(year + 1, 0) else DaysTo(year, month)) - DaysTo(year, month - 1)
         == DaysIn(year, month)
  {
    LeapIs(year);
    if month == 12 {
      LastMonth(year);
    } else {
      MonthDays(month - 1, Leap(year));
    }
    hide DaysBeforeYear;
    hide DaysBeforeMonth;
    hide Leap;
  }

  /** Time is counted from the start of 1970, and every month has its days. */
  lemma MonthLengths(year: int, month: int)
    requires 1 <= month <= 12
    ensures MonthStart(1970 * 12) == 0
    ensures MonthStart(year * 12 + month) - MonthStart(year * 12 + month - 1) == 86_400_000_000 * DaysIn(year, month)
  {
    hide *;
    EpochStart();
    DaysOfMonth(year, month);
    MonthDaysTo(year, month - 1);
    var before := DaysTo(year, month - 1);
    if month == 12 {
      MonthDaysTo(year + 1, 0);
      assert year * 12 + 12 == (year + 1) * 12 + 0;
      DaysApart(DaysTo(year + 1, 0), before);
    } else {
      MonthDaysTo(year, month);
      DaysApart(DaysTo(year, month), before);
    }
  }

  lemma DaysApart(a: int, b: int)
    ensures a * DAY - b * DAY == 86_400_000_000 * (a - b)
  {
  }

  lemma EpochStart()
    ensures MonthStart(1970 * 12) == 0
  {
    MonthDaysTo(1970, 0);
  }

  lemma LastMonth(year: int)
    ensures DaysTo(year + 1, 0) - DaysTo(year, 11) == 31
  {
    LeapStep(year);
    hide DaysBeforeYear;
  }

  lemma LeapIs(year: int)
    ensures Leap(year) <==> year % 4 == 0 && (year % 100 == 0 ==> year % 400 == 0)
  {
  }

  lemma MonthDays(month: int, leap: bool)
    requires 0 <= month < 11
    ensures DaysBeforeMonth(month + 1, leap) - DaysBeforeMonth(month, leap)
         == if month == 3 || month == 5 || month == 8 || month == 10 then 30
            else if month != 1 then 31 else if leap then 29 else 28
  {
  }

  lemma {:induction false} MonthsIncrease(a: int, b: int)
    requires a < b
    ensures MonthStart(a) + 28 * DAY <= MonthStart(b)
    decreases b - a
  {
    NextMonth(b - 1);
    hide MonthStart;
    if a < b - 1 {
      MonthsIncrease(a, b - 1);
    }
  }

  lemma WholeMilliseconds(index: int)
    ensures MonthStart(index) % MILLISECOND == 0
  {
    var year := index / 12;
    var days := DaysBeforeYear(year) + DaysBeforeMonth(index % 12, Leap(year)) - DaysBeforeYear(1970);
    assert days * DAY == days * 86_400_000 * MILLISECOND;
  }
}
