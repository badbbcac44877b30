/** Proleptic Gregorian calendar dates at midnight in one zone: the part of
    PHP's date library that the interval calculator relies on. It provides
    day addition, month addition with PHP's day-of-month overflow, "last day
    of previous month", and chronological comparison. DayNumber, a count of
    days from 0001-01-01, is the independent reference that day addition and
    the ordering are proved against. */
module Calendar {

  /** A calendar date; a well-formed one satisfies ValidDate. */
  datatype Date = Date(year: int, month: int, day: int)

  /** The Gregorian leap-year rule. */
  predicate IsLeapYear(y: int) {
    y % 4 == 0 && (y % 100 != 0 || y % 400 == 0)
  }

  function DaysInMonth(y: int, m: int): (n: int)
    requires 1 <= m <= 12
    ensures 28 <= n <= 31
    ensures n == 29 <==> m == 2 && IsLeapYear(y)
  {
    if m == 2 then (if IsLeapYear(y) then 29 else 28)
    else if m == 4 || m == 6 || m == 9 || m == 11 then 30
    else 31
  }

  predicate ValidDate(d: Date) {
    1 <= d.month <= 12 && 1 <= d.day <= DaysInMonth(d.year, d.month)
  }

  /** Strict chronological order, compared year first, then month, then day. */
  predicate Before(a: Date, b: Date) {
    || a.year < b.year
    || (a.year == b.year && a.month < b.month)
    || (a.year == b.year && a.month == b.month && a.day < b.day)
  }

  /** Months elapsed since January of year 0. */
  function MonthIndex(d: Date): int {
    12 * d.year + d.month - 1
  }

  function Min(a: int, b: int): int {
    if a <= b then a else b
  }

  // ---------------------------------------------------------------------
  // Day numbers: the reference for day addition and ordering
  // ---------------------------------------------------------------------

  function DaysInYear(y: int): int {
    if IsLeapYear(y) then 366 else 365
  }

  /** Days from 0001-01-01 to January 1 of year y. */
  function DaysBeforeYear(y: int): int {
    365 * (y - 1) + (y - 1) / 4 - (y - 1) / 100 + (y - 1) / 400
  }

  /** Days from January 1 of year y to the first of month m. */
  function DaysBeforeMonth(y: int, m: int): int
    requires 1 <= m <= 12
  {
    [0, 31, 59, 90, 120, 151, 181, 212, 243, 273, 304, 334][m - 1]
    + (if m > 2 && IsLeapYear(y) then 1 else 0)
  }

  /** Days from 0001-01-01 to d. */
  function DayNumber(d: Date): int
    requires 1 <= d.month <= 12
  {
    DaysBeforeYear(d.year) + DaysBeforeMonth(d.year, d.month) + d.day - 1
  }

  // Each count of multiples below y grows by one exactly at a multiple.
  lemma MultiplesOf4Step(y: int)
    ensures y / 4 == (y - 1) / 4 + (if y % 4 == 0 then 1 else 0)
  {
  }

  lemma MultiplesOf100Step(y: int)
    ensures y / 100 == (y - 1) / 100 + (if y % 100 == 0 then 1 else 0)
  {
  }

  lemma MultiplesOf400Step(y: int)
    ensures y / 400 == (y - 1) / 400 + (if y % 400 == 0 then 1 else 0)
  {
  }

  // Every multiple of 400 is a multiple of 100, and every multiple of 100
  // one of 4, so the three corrections of the leap-year rule nest.
  lemma CenturiesAreMultiplesOf4(y: int)
    ensures y % 100 == 0 ==> y % 4 == 0
  {
    if y % 100 == 0 {
      var q := y / 100;
      assert y == 4 * (25 * q);
    }
  }

  lemma QuadCenturiesAreCenturies(y: int)
    ensures y % 400 == 0 ==> y % 100 == 0
  {
    if y % 400 == 0 {
      var q := y / 400;
      assert y == 100 * (4 * q);
    }
  }

  lemma DaysBeforeNextYear(y: int)
    ensures DaysBeforeYear(y + 1) == DaysBeforeYear(y) + DaysInYear(y)
  {
    MultiplesOf4Step(y);
    MultiplesOf100Step(y);
    MultiplesOf400Step(y);
    CenturiesAreMultiplesOf4(y);
    QuadCenturiesAreCenturies(y);
  }

  lemma {:induction false} DaysBeforeYearIncreasing(y1: int, y2: int)
    requires y1 < y2
    ensures DaysBeforeYear(y1) + DaysInYear(y1) <= DaysBeforeYear(y2)
    decreases y2 - y1
  {
    DaysBeforeNextYear(y1);
    if y1 + 1 < y2 {
      DaysBeforeYearIncreasing(y1 + 1, y2);
    }
  }

  lemma MonthEnd(y: int, m: int)
    requires 1 <= m <= 12
    ensures m < 12 ==> DaysBeforeMonth(y, m) + DaysInMonth(y, m) == DaysBeforeMonth(y, m + 1)
    ensures m == 12 ==> DaysBeforeMonth(y, m) + DaysInMonth(y, m) == DaysInYear(y)
  {
  }

  lemma {:induction false} DaysBeforeMonthIncreasing(y: int, m1: int, m2: int)
    requires 1 <= m1 < m2 <= 12
    ensures DaysBeforeMonth(y, m1) + DaysInMonth(y, m1) <= DaysBeforeMonth(y, m2)
    decreases m2 - m1
  {
    MonthEnd(y, m1);
    if m1 + 1 < m2 {
      DaysBeforeMonthIncreasing(y, m1 + 1, m2);
    }
  }

  /** A valid date's day number lies inside its year and its month. */
  lemma DayNumberBounds(d: Date)
    requires ValidDate(d)
    ensures DaysBeforeYear(d.year) <= DayNumber(d) < DaysBeforeYear(d.year) + DaysInYear(d.year)
    ensures DayNumber(d) < DaysBeforeYear(d.year) + DaysBeforeMonth(d.year, d.month) + DaysInMonth(d.year, d.month)
  {
    MonthEnd(d.year, d.month);
    if d.month < 12 {
      DaysBeforeMonthIncreasing(d.year, d.month, 12);
      MonthEnd(d.year, 12);
    }
  }

  /** The lexicographic order on valid dates is the order of their day
      numbers, so it is a strict total order and distinct dates have
      distinct day numbers. */
  lemma BeforeIffDayNumber(a: Date, b: Date)
    requires ValidDate(a) && ValidDate(b)
    ensures Before(a, b) <==> DayNumber(a) < DayNumber(b)
    ensures a == b <==> DayNumber(a) == DayNumber(b)
  {
    DayNumberBounds(a);
    DayNumberBounds(b);
    if a.year < b.year {
      DaysBeforeYearIncreasing(a.year, b.year);
    } else if b.year < a.year {
      DaysBeforeYearIncreasing(b.year, a.year);
    } else if a.month < b.month {
      DaysBeforeMonthIncreasing(a.year, a.month, b.month);
    } else if b.month < a.month {
      DaysBeforeMonthIncreasing(a.year, b.month, a.month);
    }
  }

  /** Before is transitive, also through an equal middle date. */
  lemma BeforeTransitive(a: Date, b: Date, c: Date)
    requires Before(a, b) && (b == c || Before(b, c))
    ensures Before(a, c)
  {
  }

  // ---------------------------------------------------------------------
  // Day addition
  // ---------------------------------------------------------------------

  function FirstOfNextMonth(d: Date): (r: Date)
    requires 1 <= d.month <= 12
    ensures ValidDate(r) && r.day == 1
    ensures MonthIndex(r) == MonthIndex(d) + 1
  {
    if d.month == 12 then Date(d.year + 1, 1, 1) else Date(d.year, d.month + 1, 1)
  }

  lemma FirstOfNextMonthDayNumber(d: Date)
    requires ValidDate(d)
    ensures DayNumber(FirstOfNextMonth(d)) == DayNumber(d) - d.day + 1 + DaysInMonth(d.year, d.month)
  {
    MonthEnd(d.year, d.month);
    if d.month == 12 {
      DaysBeforeNextYear(d.year);
    }
  }

  /** d plus n calendar days, walking one month at a time. */
  function AddDays(d: Date, n: nat): (r: Date)
    requires ValidDate(d)
    ensures ValidDate(r)
    ensures n == 0 ==> r == d
    ensures n > 0 ==> Before(d, r)
    decreases n
  {
    var dim := DaysInMonth(d.year, d.month);
    if d.day + n <= dim then Date(d.year, d.month, d.day + n)
    else AddDays(FirstOfNextMonth(d), n - (dim - d.day + 1))
  }

  /** Day addition is plain Gregorian day counting: n days later has a day
      number exactly n greater. */
  lemma {:induction false} AddDaysCounts(d: Date, n: nat)
    requires ValidDate(d)
    ensures DayNumber(AddDays(d, n)) == DayNumber(d) + n
    decreases n
  {
    var dim := DaysInMonth(d.year, d.month);
    if d.day + n > dim {
      FirstOfNextMonthDayNumber(d);
      AddDaysCounts(FirstOfNextMonth(d), n - (dim - d.day + 1));
    }
  }

  /** n days after d is the one valid date whose day number is n greater. */
  lemma AddDaysIs(d: Date, n: nat, e: Date)
    requires ValidDate(d) && ValidDate(e)
    ensures AddDays(d, n) == e <==> DayNumber(e) == DayNumber(d) + n
  {
    AddDaysCounts(d, n);
    BeforeIffDayNumber(AddDays(d, n), e);
  }

  /** Adding more days gives a strictly later date. */
  lemma AddDaysIncreasing(d: Date, n1: nat, n2: nat)
    requires ValidDate(d) && n1 < n2
    ensures Before(AddDays(d, n1), AddDays(d, n2))
  {
    AddDaysCounts(d, n1);
    AddDaysCounts(d, n2);
    BeforeIffDayNumber(AddDays(d, n1), AddDays(d, n2));
  }

  // ---------------------------------------------------------------------
  // Month addition as PHP's date library performs it
  // ---------------------------------------------------------------------

  /** The month k months after d's, as a date on the first of that month. */
  function TargetMonth(d: Date, k: nat): (r: Date)
    requires 1 <= d.month <= 12
    ensures ValidDate(r) && r.day == 1
    ensures MonthIndex(r) == MonthIndex(d) + k
  {
    var total := d.month - 1 + k;
    Date(d.year + total / 12, total % 12 + 1, 1)
  }

  /** d plus k calendar months with the day-of-month kept as a number; when
      the target month is too short the surplus days overflow into the
      following month (January 31 plus one month is March 3 in 2019). */
  function AddMonthsOverflow(d: Date, k: nat): (r: Date)
    requires ValidDate(d)
    ensures ValidDate(r)
    ensures var t := TargetMonth(d, k);
            var dim := DaysInMonth(t.year, t.month);
            && (d.day <= dim ==> MonthIndex(r) == MonthIndex(d) + k && r.day == d.day)
            && (d.day > dim ==> MonthIndex(r) == MonthIndex(d) + k + 1 && r.day == d.day - dim)
  {
    var t := TargetMonth(d, k);
    var dim := DaysInMonth(t.year, t.month);
    if d.day <= dim then Date(t.year, t.month, d.day)
    else var next := FirstOfNextMonth(t); Date(next.year, next.month, d.day - dim)
  }

  /** Month addition is "move to the target month, then count the day-of-month
      forward from its first day": the overflow is ordinary day addition. */
  lemma AddMonthsOverflowIsDayAddition(d: Date, k: nat)
    requires ValidDate(d)
    ensures AddMonthsOverflow(d, k) == AddDays(TargetMonth(d, k), d.day - 1)
  {
    var t := TargetMonth(d, k);
    var dim := DaysInMonth(t.year, t.month);
    if d.day > dim {
      var next := FirstOfNextMonth(t);
      assert AddDays(t, d.day - 1) == AddDays(next, d.day - 1 - dim);
      assert AddDays(next, d.day - 1 - dim) == Date(next.year, next.month, d.day - dim);
    }
  }

  /** PHP's "last day of previous month". */
  function LastDayOfPreviousMonth(d: Date): (r: Date)
    requires 1 <= d.month <= 12
    ensures ValidDate(r)
    ensures MonthIndex(r) == MonthIndex(d) - 1
    ensures r.day == DaysInMonth(r.year, r.month)
  {
    if d.month == 1 then Date(d.year - 1, 12, 31)
    else Date(d.year, d.month - 1, DaysInMonth(d.year, d.month - 1))
  }

  /** Two valid dates are ordered by their month index when it differs. */
  lemma MonthIndexOrder(a: Date, b: Date)
    requires ValidDate(a) && ValidDate(b)
    requires MonthIndex(a) < MonthIndex(b)
    ensures Before(a, b)
  {
  }
}
