/** The Authorize.Net recurring-billing interval calculator: an interval of
    `length` days or months, checked against Authorize.Net's bounds when the
    calculator is built, a start date captured as a value, the date of
    occurrence n, and a forward search for the first occurrence after a
    given date. */
module IntervalCalculator {
  import opened Calendar

  // Authorize.Net's limits on interval lengths and on the number of occurrences.
  const MAX_NUM_OCCURRENCES := 9999
  const MINIMUM_DAYS := 7
  const MAXIMUM_DAYS := 365
  const MINIMUM_MONTHS := 1
  const MAXIMUM_MONTHS := 12

  datatype Error =
    | InvalidLengthUnitCombo  // construction with an invalid (length, unit)
    | OccurrenceOutOfRange    // occurrence number outside 1..MAX_NUM_OCCURRENCES
    | SearchExhausted         // no occurrence up to MAX_NUM_OCCURRENCES is after the date

  datatype Result<T> = Success(value: T) | Failure(error: Error)

  /** The unit must be exactly "days" with a length of 7 to 365, or exactly
      "months" with a length of 1 to 12. */
  predicate IsLengthAndUnitValid(length: int, unit: string)
    ensures IsLengthAndUnitValid(length, unit) ==> 1 <= length <= 365 && (unit == "days" || unit == "months")
  {
    || (unit == "days" && length >= MINIMUM_DAYS && length <= MAXIMUM_DAYS)
    || (unit == "months" && length >= MINIMUM_MONTHS && length <= MAXIMUM_MONTHS)
  }

  // ---------------------------------------------------------------------
  // Occurrence projection
  // ---------------------------------------------------------------------

  /** start plus k calendar months, corrected to the last day of the target
      month when PHP's month addition overflowed into the next month (the
      day-of-month changed). */
  function MonthProjection(start: Date, k: nat): (r: Date)
    requires ValidDate(start)
    ensures ValidDate(r)
  {
    var candidate := AddMonthsOverflow(start, k);
    if candidate.day == start.day then candidate else LastDayOfPreviousMonth(candidate)
  }

  /** The corrected month addition lands in the target month, on the start's
      day-of-month when that month has it and on its last day otherwise. */
  lemma MonthProjectionClamps(start: Date, k: nat)
    requires ValidDate(start)
    ensures var t := TargetMonth(start, k);
            MonthProjection(start, k) == Date(t.year, t.month, Min(start.day, DaysInMonth(t.year, t.month)))
    ensures MonthIndex(MonthProjection(start, k)) == MonthIndex(start) + k
  {
  }

  /** The number of units between occurrence 1 and occurrence n. */
  function ElapsedUnits(length: int, n: int): (p: nat)
    requires 1 <= length && 1 <= n
    ensures n == 1 <==> p == 0
  {
    (n - 1) * length
  }

  /** The date of occurrence n (occurrence 1 is the start date), always
      computed from the start date. */
  function OccurrenceDate(length: int, unit: string, start: Date, n: int): (r: Date)
    requires IsLengthAndUnitValid(length, unit) && ValidDate(start) && 1 <= n
    ensures ValidDate(r)
  {
    var periods := ElapsedUnits(length, n);
    if unit == "days" then AddDays(start, periods) else MonthProjection(start, periods)
  }

  lemma FirstOccurrenceIsStart(length: int, unit: string, start: Date)
    requires IsLengthAndUnitValid(length, unit) && ValidDate(start)
    ensures OccurrenceDate(length, unit, start, 1) == start
  {
    if unit == "months" {
      MonthProjectionClamps(start, 0);
    }
  }

  /** With day units, occurrence n is exactly (n - 1) * length days after the
      start, counted on the Gregorian calendar, and it is the only date that
      is. */
  lemma DayOccurrence(length: int, start: Date, n: int, d: Date)
    requires IsLengthAndUnitValid(length, "days") && ValidDate(start) && 1 <= n && ValidDate(d)
    ensures OccurrenceDate(length, "days", start, n) == d <==> DayNumber(d) == DayNumber(start) + (n - 1) * length
  {
    AddDaysCounts(start, ElapsedUnits(length, n));
    BeforeIffDayNumber(OccurrenceDate(length, "days", start, n), d);
  }

  /** With month units, occurrence n is the date in the month (n - 1) * length
      months after the start's, on the start's day-of-month when that month
      has it and on its last day otherwise. The day depends on the start date
      and the target month only, never on earlier occurrences. */
  lemma MonthOccurrence(length: int, start: Date, n: int, d: Date)
    requires IsLengthAndUnitValid(length, "months") && ValidDate(start) && 1 <= n && ValidDate(d)
    ensures OccurrenceDate(length, "months", start, n) == d
        <==> MonthIndex(d) == MonthIndex(start) + (n - 1) * length && d.day == Min(start.day, DaysInMonth(d.year, d.month))
  {
    MonthProjectionClamps(start, ElapsedUnits(length, n));
  }

  lemma ElapsedUnitsIncrease(length: int, i: int, j: int)
    requires 1 <= length && 1 <= i < j
    ensures ElapsedUnits(length, i) < ElapsedUnits(length, j)
  {
    var d := j - i;
    assert (j - 1) * length == (i - 1) * length + d * length;
    assert d * length == length + (d - 1) * length;
    assert (d - 1) * length >= 0;
  }

  /** Later occurrences have strictly later dates. */
  lemma OccurrencesIncrease(length: int, unit: string, start: Date, i: int, j: int)
    requires IsLengthAndUnitValid(length, unit) && ValidDate(start) && 1 <= i < j
    ensures Before(OccurrenceDate(length, unit, start, i), OccurrenceDate(length, unit, start, j))
  {
    var p, q := ElapsedUnits(length, i), ElapsedUnits(length, j);
    ElapsedUnitsIncrease(length, i, j);
    if unit == "days" {
      AddDaysIncreasing(start, p, q);
    } else {
      MonthProjectionClamps(start, p);
      MonthProjectionClamps(start, q);
      MonthIndexOrder(MonthProjection(start, p), MonthProjection(start, q));
    }
  }

  // ---------------------------------------------------------------------
  // Forward search
  // ---------------------------------------------------------------------

  /** The least occurrence number k >= i whose date is after afterDate, or
      MAX_NUM_OCCURRENCES + 1 when no occurrence up to the limit is. */
  function FirstIndexAfter(length: int, unit: string, start: Date, afterDate: Date, i: int): (k: int)
    requires IsLengthAndUnitValid(length, unit) && ValidDate(start)
    requires 1 <= i <= MAX_NUM_OCCURRENCES + 1
    ensures i <= k <= MAX_NUM_OCCURRENCES + 1
    ensures k <= MAX_NUM_OCCURRENCES ==> Before(afterDate, OccurrenceDate(length, unit, start, k))
    ensures forall j :: i <= j < k ==> !Before(afterDate, OccurrenceDate(length, unit, start, j))
    decreases MAX_NUM_OCCURRENCES + 1 - i
  {
    if i > MAX_NUM_OCCURRENCES then i
    else if Before(afterDate, OccurrenceDate(length, unit, start, i)) then i
    else
      var k := FirstIndexAfter(length, unit, start, afterDate, i + 1);
      // Not needed for soundness: these restate the branch condition and the
      // recursive call's ensures, which keeps the solver's search short.
      assert !Before(afterDate, OccurrenceDate(length, unit, start, i));
      assert forall j :: i + 1 <= j < k ==> !Before(afterDate, OccurrenceDate(length, unit, start, j));
      k
  }

  /** The date of the earliest occurrence, among 1..MAX_NUM_OCCURRENCES, that
      is after afterDate. */
  function FirstOccurrenceAfter(length: int, unit: string, start: Date, afterDate: Date): (r: Result<Date>)
    requires IsLengthAndUnitValid(length, unit) && ValidDate(start) && ValidDate(afterDate)
    ensures r.Success? ==> Before(afterDate, r.value)
    ensures r.Failure? ==>
              && r.error == SearchExhausted
              && !Before(afterDate, OccurrenceDate(length, unit, start, MAX_NUM_OCCURRENCES))
  {
    var k := FirstIndexAfter(length, unit, start, afterDate, 1);
    if k > MAX_NUM_OCCURRENCES then Failure(SearchExhausted)
    else Success(OccurrenceDate(length, unit, start, k))
  }

  /** The search result is an occurrence within the limit, it is after
      afterDate, and no earlier occurrence is; it fails only when no
      occurrence up to the limit is after afterDate. */
  lemma FirstOccurrenceAfterIsEarliest(length: int, unit: string, start: Date, afterDate: Date)
    requires IsLengthAndUnitValid(length, unit) && ValidDate(start) && ValidDate(afterDate)
    ensures var r := FirstOccurrenceAfter(length, unit, start, afterDate);
            && (r.Success? ==>
                  exists k :: 1 <= k <= MAX_NUM_OCCURRENCES && r.value == OccurrenceDate(length, unit, start, k)
                    && Before(afterDate, r.value)
                    && forall j :: 1 <= j < k ==> !Before(afterDate, OccurrenceDate(length, unit, start, j)))
            && (r.Failure? ==>
                  r.error == SearchExhausted
                  && forall j :: 1 <= j <= MAX_NUM_OCCURRENCES ==> !Before(afterDate, OccurrenceDate(length, unit, start, j)))
  {
    var k := FirstIndexAfter(length, unit, start, afterDate, 1);
    if k <= MAX_NUM_OCCURRENCES {
      assert OccurrenceDate(length, unit, start, k) == FirstOccurrenceAfter(length, unit, start, afterDate).value;
    }
  }

  /** No occurrence lies strictly between afterDate and the search result:
      every occurrence after afterDate is on or after the result. */
  lemma FirstOccurrenceAfterIsLeast(length: int, unit: string, start: Date, afterDate: Date, n: int)
    requires IsLengthAndUnitValid(length, unit) && ValidDate(start) && ValidDate(afterDate)
    requires 1 <= n <= MAX_NUM_OCCURRENCES
    requires Before(afterDate, OccurrenceDate(length, unit, start, n))
    ensures FirstOccurrenceAfter(length, unit, start, afterDate).Success?
    ensures !Before(OccurrenceDate(length, unit, start, n), FirstOccurrenceAfter(length, unit, start, afterDate).value)
  {
    var k := FirstIndexAfter(length, unit, start, afterDate, 1);
    assert k <= n;
    if k < n {
      OccurrencesIncrease(length, unit, start, k, n);
      var a := OccurrenceDate(length, unit, start, k);
      var b := OccurrenceDate(length, unit, start, n);
      BeforeIffDayNumber(a, b);
    }
  }

  /** The search returns occurrence m exactly when m is after afterDate and
      the occurrence before it (if any) is not. */
  lemma FirstOccurrenceAfterBracket(length: int, unit: string, start: Date, afterDate: Date, m: int)
    requires IsLengthAndUnitValid(length, unit) && ValidDate(start) && ValidDate(afterDate)
    requires 1 <= m <= MAX_NUM_OCCURRENCES
    ensures FirstOccurrenceAfter(length, unit, start, afterDate) == Success(OccurrenceDate(length, unit, start, m))
        <==> Before(afterDate, OccurrenceDate(length, unit, start, m))
             && (m > 1 ==> !Before(afterDate, OccurrenceDate(length, unit, start, m - 1)))
  {
    var k := FirstIndexAfter(length, unit, start, afterDate, 1);
    var r := FirstOccurrenceAfter(length, unit, start, afterDate);
    if r == Success(OccurrenceDate(length, unit, start, m)) {
      // distinct occurrences have distinct dates, so the index found is m
      if k < m {
        OccurrencesIncrease(length, unit, start, k, m);
      } else if m < k {
        OccurrencesIncrease(length, unit, start, m, k);
      }
      assert k == m;
    } else if Before(afterDate, OccurrenceDate(length, unit, start, m)) && m > 1
              && !Before(afterDate, OccurrenceDate(length, unit, start, m - 1)) {
      SearchStopsAtBracket(length, unit, start, afterDate, m, 1);
    }
  }

  /** Once an occurrence is after afterDate, so is every later one. */
  lemma AfterIsUpwardClosed(length: int, unit: string, start: Date, afterDate: Date, i: int, j: int)
    requires IsLengthAndUnitValid(length, unit) && ValidDate(start) && 1 <= i < j
    requires Before(afterDate, OccurrenceDate(length, unit, start, i))
    ensures Before(afterDate, OccurrenceDate(length, unit, start, j))
  {
    OccurrencesIncrease(length, unit, start, i, j);
    BeforeTransitive(afterDate, OccurrenceDate(length, unit, start, i), OccurrenceDate(length, unit, start, j));
  }

  /** If an occurrence is not after afterDate, no earlier one is. */
  lemma NotAfterBelow(length: int, unit: string, start: Date, afterDate: Date, i: int, j: int)
    requires IsLengthAndUnitValid(length, unit) && ValidDate(start) && 1 <= i <= j
    requires !Before(afterDate, OccurrenceDate(length, unit, start, j))
    ensures !Before(afterDate, OccurrenceDate(length, unit, start, i))
  {
    if i < j && Before(afterDate, OccurrenceDate(length, unit, start, i)) {
      AfterIsUpwardClosed(length, unit, start, afterDate, i, j);
    }
  }

  /** The search stops at an occurrence that is after afterDate. */
  lemma SearchHits(length: int, unit: string, start: Date, afterDate: Date, i: int)
    requires IsLengthAndUnitValid(length, unit) && ValidDate(start) && ValidDate(afterDate)
    requires 1 <= i <= MAX_NUM_OCCURRENCES
    requires Before(afterDate, OccurrenceDate(length, unit, start, i))
    ensures FirstIndexAfter(length, unit, start, afterDate, i) == i
  {
  }

  /** The search moves past an occurrence that is not after afterDate. */
  lemma SearchSkips(length: int, unit: string, start: Date, afterDate: Date, i: int)
    requires IsLengthAndUnitValid(length, unit) && ValidDate(start) && ValidDate(afterDate)
    requires 1 <= i <= MAX_NUM_OCCURRENCES
    requires !Before(afterDate, OccurrenceDate(length, unit, start, i))
    ensures FirstIndexAfter(length, unit, start, afterDate, i) == FirstIndexAfter(length, unit, start, afterDate, i + 1)
  {
  }

  /** If occurrence m is after afterDate and occurrence m - 1 is not, the
      search stops at index m from any starting index up to m. */
  lemma {:induction false} SearchStopsAtBracket(length: int, unit: string, start: Date, afterDate: Date, m: int, i: int)
    requires IsLengthAndUnitValid(length, unit) && ValidDate(start) && ValidDate(afterDate)
    requires 1 <= i <= m <= MAX_NUM_OCCURRENCES
    requires Before(afterDate, OccurrenceDate(length, unit, start, m))
    requires m > 1 ==> !Before(afterDate, OccurrenceDate(length, unit, start, m - 1))
    ensures FirstIndexAfter(length, unit, start, afterDate, i) == m
    decreases m - i
  {
    if i == m {
      SearchHits(length, unit, start, afterDate, m);
    } else {
      NotAfterBelow(length, unit, start, afterDate, i, m - 1);
      SearchSkips(length, unit, start, afterDate, i);
      SearchStopsAtBracket(length, unit, start, afterDate, m, i + 1);
    }
  }

  /** When afterDate is before the start date the search returns the start
      date, occurrence 1. */
  lemma SearchBeforeStart(length: int, unit: string, start: Date, afterDate: Date)
    requires IsLengthAndUnitValid(length, unit) && ValidDate(start) && ValidDate(afterDate)
    requires Before(afterDate, start)
    ensures FirstOccurrenceAfter(length, unit, start, afterDate) == Success(start)
  {
    FirstOccurrenceIsStart(length, unit, start);
  }

  // ---------------------------------------------------------------------
  // The calculator object
  // ---------------------------------------------------------------------

  /** A mutable PHP DateTime held by the caller. */
  class DateTime {
    var date: Date

    constructor (date: Date)
      ensures this.date == date
    {
      this.date := date;
    }
  }

  /** The start date argument: either an immutable value or a mutable
      object that the caller may change later. */
  datatype DateTimeArg = Immutable(value: Date) | Mutable(obj: DateTime)

  /** The date the argument denotes now. */
  function CurrentDate(arg: DateTimeArg): Date
    reads if arg.Mutable? then {arg.obj} else {}
  {
    match arg
    case Immutable(d) => d
    case Mutable(obj) => obj.date
  }

  class AuthorizeNetIntervalCalculator {
    // Set once, in the constructor, and never changed.
    const length: int
    const unit: string
    const startDate: Date

    predicate Valid() {
      IsLengthAndUnitValid(length, unit) && ValidDate(startDate)
    }

    /** Stores the interval unchanged and a value copy of the start date. */
    constructor (length: int, unit: string, startDate: DateTimeArg)
      requires IsLengthAndUnitValid(length, unit) && ValidDate(CurrentDate(startDate))
      ensures Valid()
      ensures this.length == length && this.unit == unit
      ensures this.startDate == CurrentDate(startDate)
    {
      this.length := length;
      this.unit := unit;
      this.startDate := CurrentDate(startDate);
    }

    /** The date of occurrence n; fails outside 1..MAX_NUM_OCCURRENCES. */
    function GetDate(n: int): (r: Result<Date>)
      requires Valid()
      ensures r.Failure? <==> n < 1 || n > MAX_NUM_OCCURRENCES
      ensures r.Failure? ==> r.error == OccurrenceOutOfRange
      ensures r.Success? ==> r.value == OccurrenceDate(length, unit, startDate, n)
    {
      if n < 1 || n > MAX_NUM_OCCURRENCES then Failure(OccurrenceOutOfRange)
      else Success(OccurrenceDate(length, unit, startDate, n))
    }

    /** Scans occurrences 1, 2, ... up to MAX_NUM_OCCURRENCES for the first
        whose date is after afterDate. */
    method GetDateAfter(afterDate: Date) returns (r: Result<Date>)
      requires Valid() && ValidDate(afterDate)
      ensures r == FirstOccurrenceAfter(length, unit, startDate, afterDate)
      ensures r.Success? ==> Before(afterDate, r.value)
    {
      var i := 1;
      while i <= MAX_NUM_OCCURRENCES
        invariant 1 <= i <= MAX_NUM_OCCURRENCES + 1
        invariant FirstIndexAfter(length, unit, startDate, afterDate, 1) == FirstIndexAfter(length, unit, startDate, afterDate, i)
        decreases MAX_NUM_OCCURRENCES + 1 - i
      {
        var date := OccurrenceDate(length, unit, startDate, i);
        if Before(afterDate, date) {
          return Success(date);
        }
        i := i + 1;
      }
      return Failure(SearchExhausted);
    }
  }

  /** Models the PHP constructor: it fails, producing no calculator, exactly
      when the (length, unit) combination is invalid. */
  method Create(length: int, unit: string, startDate: DateTimeArg) returns (r: Result<AuthorizeNetIntervalCalculator>)
    requires ValidDate(CurrentDate(startDate))
    ensures r.Failure? <==> !IsLengthAndUnitValid(length, unit)
    ensures r.Failure? ==> r.error == InvalidLengthUnitCombo
    ensures r.Success? ==> fresh(r.value) && r.value.Valid()
    ensures r.Success? ==> r.value.length == length && r.value.unit == unit && r.value.startDate == CurrentDate(startDate)
  {
    if !IsLengthAndUnitValid(length, unit) {
      return Failure(InvalidLengthUnitCombo);
    }
    var calculator := new AuthorizeNetIntervalCalculator(length, unit, startDate);
    return Success(calculator);
  }

  /** The start date is a snapshot: when the caller changes its mutable
      DateTime after construction, the calculator still has the old date. */
  method StartDateIsSnapshot(length: int, unit: string, obj: DateTime, later: Date)
    returns (calculator: AuthorizeNetIntervalCalculator)
    requires IsLengthAndUnitValid(length, unit) && ValidDate(obj.date)
    modifies obj
    ensures obj.date == later
    ensures calculator.Valid() && calculator.startDate == old(obj.date)
  {
    calculator := new AuthorizeNetIntervalCalculator(length, unit, Mutable(obj));
    obj.date := later;
  }
}
