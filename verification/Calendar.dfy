/** UTC calendar months and the instant each begins (league/campaigns.py `month_start`). A month is
    numbered 12 * year + (month - 1); time is an integer count of microseconds since 1970. */
module Calendar {
  const SECOND := 1_000_000
  const HOUR := 3_600_000_000
  const DAY := 86_400_000_000

  /** Days from 1 January of year 0 to 1 January 1970 in the proleptic Gregorian calendar. */
  const EPOCH := 719_528

  /** The first month `datetime` can hold: January of year 1. */
  const YEAR_ONE := 12

  predicate Leap(year: nat) {
    year % 4 == 0 && (year % 100 != 0 || year % 400 == 0)
  }

  function DaysIn(month: nat): (days: nat)
    ensures 28 <= days <= 31
  {
    if month % 12 == 1 then (if Leap(month / 12) then 29 else 28)
    else if month % 12 in {3, 5, 8, 10} then 30
    else 31
  }

  function MonthStart(month: nat): int {
    if month == 0 then -EPOCH * DAY else MonthStart(month - 1) + DaysIn(month - 1) * DAY
  }

  /** Months begin in their own order, so a later month never covers an earlier instant. */
  lemma {:induction false} MonthsInOrder(a: nat, b: nat)
    requires a < b
    ensures MonthStart(a) < MonthStart(b)
    decreases b - a
  {
    if a < b - 1 {
      MonthsInOrder(a, b - 1);
    }
  }

  /** Days from 1 January of year 0 to 1 January of `year`, leap years counted. */
  function DaysBeforeYear(year: nat): int {
    365 * year + (year + 3) / 4 - (year + 99) / 100 + (year + 399) / 400
  }

  lemma YearLength(year: nat)
    ensures DaysBeforeYear(year + 1) == DaysBeforeYear(year) + if Leap(year) then 366 else 365
  {
    assert (year + 4) / 4 == (year + 3) / 4 + if year % 4 == 0 then 1 else 0;
    assert (year + 100) / 100 == (year + 99) / 100 + if year % 100 == 0 then 1 else 0;
    assert (year + 400) / 400 == (year + 399) / 400 + if year % 400 == 0 then 1 else 0;
    assert year % 400 == 0 ==> year % 100 == 0;
    assert year % 100 == 0 ==> year % 4 == 0;
  }

  lemma NextMonth(month: nat)
    ensures MonthStart(month + 1) == MonthStart(month) + DaysIn(month) * DAY
  {}

  lemma DaysOf(year: nat, k: nat)
    requires k < 12
    ensures DaysIn(12 * year + k) == if k == 1 then (if Leap(year) then 29 else 28) else if k in {3, 5, 8, 10} then 30
                                     else 31
  {}

  /** Days from 1 January to the first of the month `k` after it. */
  function DaysTo(year: nat, k: nat): nat
    requires k <= 12
  {
    if k == 0 then 0 else DaysTo(year, k - 1) + DaysIn(12 * year + k - 1)
  }

  lemma {:induction false} MonthsPass(year: nat, k: nat)
    requires k <= 12
    ensures MonthStart(12 * year + k) == MonthStart(12 * year) + DaysTo(year, k) * DAY
  {
    hide MonthStart, DaysIn, Leap;
    if k > 0 {
      MonthsPass(year, k - 1);
      NextMonth(12 * year + k - 1);
      assert DaysTo(year, k) == DaysTo(year, k - 1) + DaysIn(12 * year + k - 1);
      hide DaysTo;
    }
  }

  lemma Adds(year: nat, k: nat)
    requires k < 12
    ensures DaysTo(year, k + 1)
         == DaysTo(year, k) + if k == 1 then (if Leap(year) then 29 else 28) else if k in {3, 5, 8, 10} then 30 else 31
  {
    hide Leap;
    DaysOf(year, k);
  }

  lemma YearIsItsMonths(year: nat)
    ensures DaysTo(year, 12) == if Leap(year) then 366 else 365
  {
    hide DaysIn, Leap;
    Adds(year, 0); Adds(year, 1); Adds(year, 2); Adds(year, 3); Adds(year, 4); Adds(year, 5);
    Adds(year, 6); Adds(year, 7); Adds(year, 8); Adds(year, 9); Adds(year, 10); Adds(year, 11);
    assert DaysTo(year, 0) == 0;
    hide DaysTo;
  }

  /** January begins where the Gregorian count of leap years puts it: that of 1970 at nothing. */
  lemma {:induction false} JanuaryBegins(year: nat)
    ensures MonthStart(12 * year) == (DaysBeforeYear(year) - EPOCH) * DAY
  {
    hide MonthStart, DaysIn, DaysTo, DaysBeforeYear, Leap;
    if year == 0 {
      YearZero();
    } else {
      JanuaryBegins(year - 1);
      MonthsPass(year - 1, 12);
      YearIsItsMonths(year - 1);
      YearLength(year - 1);
      assert 12 * (year - 1) + 12 == 12 * year;
    }
  }

  lemma YearZero()
    ensures MonthStart(0) == -EPOCH * DAY && DaysBeforeYear(0) == 0 && DaysBeforeYear(1970) == EPOCH
  {}

  /** Days from 1 January to the first of each month of a common year. */
  const COMMON: seq<int> := [0, 31, 59, 90, 120, 151, 181, 212, 243, 273, 304, 334]

  lemma {:induction false} DaysToIs(year: nat, k: nat)
    requires k < 12
    ensures DaysTo(year, k) == COMMON[k] + if k > 1 && Leap(year) then 1 else 0
  {
    hide DaysIn, Leap;
    if k > 0 {
      DaysToIs(year, k - 1);
      Adds(year, k - 1);
      hide DaysTo;
    }
  }

  /** Every month begins where the calendar puts it: as many days after its January as a common year's has, and one
      more after a leap year's February. */
  lemma MonthBegins(year: nat, k: nat)
    requires k < 12
    ensures MonthStart(12 * year + k) ==
            (DaysBeforeYear(year) - EPOCH + COMMON[k] + if k > 1 && Leap(year) then 1 else 0) * DAY
  {
    hide MonthStart, DaysIn, DaysTo, DaysBeforeYear, Leap;
    JanuaryBegins(year);
    MonthsPass(year, k);
    DaysToIs(year, k);
  }
}
