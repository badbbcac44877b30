/** The rows of the repository's test data tables, stated about the model:
    which (length, unit) pairs construction accepts, the dates of given
    occurrences, and the results of the forward search. The validation rows
    are gathered in one lemma; they decide construction through the
    equivalence in the contract of Create (it fails exactly when the pair is
    invalid). Every date row and every search row is its own
    lemma, proved from the general characterisations of day addition, of
    the corrected month addition and of the search. */
module CalculatorExamples {
  import opened Calendar
  import opened IntervalCalculator

  /** Boundaries, interior values, out-of-range lengths and unit strings
      that are not exactly "days" or "months". */
  lemma ValidationTable()
    ensures IsLengthAndUnitValid(7, "days") && IsLengthAndUnitValid(101, "days") && IsLengthAndUnitValid(365, "days")
    ensures !IsLengthAndUnitValid(6, "days") && !IsLengthAndUnitValid(0, "days") && !IsLengthAndUnitValid(-11, "days")
    ensures !IsLengthAndUnitValid(366, "days") && !IsLengthAndUnitValid(843254, "days")
    ensures IsLengthAndUnitValid(1, "months") && IsLengthAndUnitValid(4, "months") && IsLengthAndUnitValid(7, "months")
    ensures IsLengthAndUnitValid(11, "months") && IsLengthAndUnitValid(12, "months")
    ensures !IsLengthAndUnitValid(0, "months") && !IsLengthAndUnitValid(13, "months") && !IsLengthAndUnitValid(83, "months")
    ensures !IsLengthAndUnitValid(7, "snergleflirts") && !IsLengthAndUnitValid(12, "day") && !IsLengthAndUnitValid(12, "month")
  {
  }

  // Occurrence dates (getDate). Rows with day units are proved through day
  // numbers; rows with month units through the characterisation of month
  // occurrences by target month and clamped day.

  // Every 7 days from 2019-01-02, occurrence 2: one week on
  lemma GetDateWeekly()
    ensures OccurrenceDate(7, "days", Date(2019, 1, 2), 2) == Date(2019, 1, 9)
  {
    AddDaysCounts(Date(2019, 1, 2), 7);
    BeforeIffDayNumber(AddDays(Date(2019, 1, 2), 7), Date(2019, 1, 9));
  }

  // Every 14 days from 2019-12-31, occurrence 2: across a year end
  lemma GetDateFortnightlyAcrossYearEnd()
    ensures OccurrenceDate(14, "days", Date(2019, 12, 31), 2) == Date(2020, 1, 14)
  {
    AddDaysCounts(Date(2019, 12, 31), 14);
    BeforeIffDayNumber(AddDays(Date(2019, 12, 31), 14), Date(2020, 1, 14));
  }

  // Every 30 days from 2019-02-01, occurrence 2: across a 28-day February
  lemma GetDateThirtyDaysAcrossFebruary()
    ensures OccurrenceDate(30, "days", Date(2019, 2, 1), 2) == Date(2019, 3, 3)
  {
    AddDaysCounts(Date(2019, 2, 1), 30);
    BeforeIffDayNumber(AddDays(Date(2019, 2, 1), 30), Date(2019, 3, 3));
  }

  // Every 365 days from 2019-01-02, occurrence 2: 365 days over a year without February 29
  lemma GetDateYearOfDays()
    ensures OccurrenceDate(365, "days", Date(2019, 1, 2), 2) == Date(2020, 1, 2)
  {
    AddDaysCounts(Date(2019, 1, 2), 365);
    BeforeIffDayNumber(AddDays(Date(2019, 1, 2), 365), Date(2020, 1, 2));
  }

  // Every month from 2019-01-02, occurrence 2: the day-of-month is kept
  lemma GetDateMonthlyKeepsDay()
    ensures OccurrenceDate(1, "months", Date(2019, 1, 2), 2) == Date(2019, 2, 2)
  {
    MonthOccurrence(1, Date(2019, 1, 2), 2, Date(2019, 2, 2));
  }

  // Every month from 2019-01-31, occurrence 2: day 31 clamps to the end of a common-year February
  lemma GetDateMonthlyClampsFebruary28()
    ensures OccurrenceDate(1, "months", Date(2019, 1, 31), 2) == Date(2019, 2, 28)
  {
    MonthOccurrence(1, Date(2019, 1, 31), 2, Date(2019, 2, 28));
  }

  // Every month from 2019-01-31, occurrence 14: computed from the start, so February 2020 gives the 29th
  lemma GetDateMonthlyOccurrence14()
    ensures OccurrenceDate(1, "months", Date(2019, 1, 31), 14) == Date(2020, 2, 29)
  {
    MonthOccurrence(1, Date(2019, 1, 31), 14, Date(2020, 2, 29));
  }

  // Every month from 2019-01-31, occurrence 38: February of the common year 2022 gives the 28th
  lemma GetDateMonthlyOccurrence38()
    ensures OccurrenceDate(1, "months", Date(2019, 1, 31), 38) == Date(2022, 2, 28)
  {
    MonthOccurrence(1, Date(2019, 1, 31), 38, Date(2022, 2, 28));
  }

  // Every month from 2019-01-31, occurrence 62: February of the leap year 2024 gives the 29th
  lemma GetDateMonthlyOccurrence62()
    ensures OccurrenceDate(1, "months", Date(2019, 1, 31), 62) == Date(2024, 2, 29)
  {
    MonthOccurrence(1, Date(2019, 1, 31), 62, Date(2024, 2, 29));
  }

  // Every month from 2020-01-31, occurrence 2: day 31 clamps to the end of a leap-year February
  lemma GetDateMonthlyClampsFebruary29()
    ensures OccurrenceDate(1, "months", Date(2020, 1, 31), 2) == Date(2020, 2, 29)
  {
    MonthOccurrence(1, Date(2020, 1, 31), 2, Date(2020, 2, 29));
  }

  // Every month from 2019-03-31, occurrence 2: day 31 clamps to April 30
  lemma GetDateMonthlyClampsApril()
    ensures OccurrenceDate(1, "months", Date(2019, 3, 31), 2) == Date(2019, 4, 30)
  {
    MonthOccurrence(1, Date(2019, 3, 31), 2, Date(2019, 4, 30));
  }

  // Every 3 months from 2019-03-31, occurrence 2: day 31 clamps to June 30
  lemma GetDateQuarterlyClampsJune()
    ensures OccurrenceDate(3, "months", Date(2019, 3, 31), 2) == Date(2019, 6, 30)
  {
    MonthOccurrence(3, Date(2019, 3, 31), 2, Date(2019, 6, 30));
  }

  // Every 3 months from 2019-03-31, occurrence 3: day 31 clamps to September 30
  lemma GetDateQuarterlyClampsSeptember()
    ensures OccurrenceDate(3, "months", Date(2019, 3, 31), 3) == Date(2019, 9, 30)
  {
    MonthOccurrence(3, Date(2019, 3, 31), 3, Date(2019, 9, 30));
  }

  // Every 7 months from 2019-03-31, occurrence 2: October has day 31, which is kept
  lemma GetDateSevenMonthsKeepsDay31()
    ensures OccurrenceDate(7, "months", Date(2019, 3, 31), 2) == Date(2019, 10, 31)
  {
    MonthOccurrence(7, Date(2019, 3, 31), 2, Date(2019, 10, 31));
  }

  // Every month from 2019-04-30, occurrence 2: day 30 is kept, not moved to May 31
  lemma GetDateMonthlyKeepsDay30()
    ensures OccurrenceDate(1, "months", Date(2019, 4, 30), 2) == Date(2019, 5, 30)
  {
    MonthOccurrence(1, Date(2019, 4, 30), 2, Date(2019, 5, 30));
  }

  // First occurrence after a date (getDateAfter). Each row is proved in two
  // steps: the dates of the occurrences on either side of afterDate, then
  // the search bracketed by them.

  // Every 7 days from 2019-01-02, after 1980-01-02: a date before the start gives the start
  lemma GetDateAfterWeeklyBeforeStart()
    ensures FirstOccurrenceAfter(7, "days", Date(2019, 1, 2), Date(1980, 1, 2)) == Success(Date(2019, 1, 2))
  {
    FirstOccurrenceIsStart(7, "days", Date(2019, 1, 2));
    assert Before(Date(1980, 1, 2), Date(2019, 1, 2));
    FirstOccurrenceAfterBracket(7, "days", Date(2019, 1, 2), Date(1980, 1, 2), 1);
  }

  // Occurrence 3 of every 7 days from 2019-01-02
  lemma WeeklyOccurrence3()
    ensures OccurrenceDate(7, "days", Date(2019, 1, 2), 3) == Date(2019, 1, 16)
  {
    AddDaysCounts(Date(2019, 1, 2), 14);
    BeforeIffDayNumber(AddDays(Date(2019, 1, 2), 14), Date(2019, 1, 16));
  }

  // Every 7 days from 2019-01-02, after 2019-01-10: the next weekly date, not a later one
  lemma GetDateAfterWeeklySecondWeek()
    ensures FirstOccurrenceAfter(7, "days", Date(2019, 1, 2), Date(2019, 1, 10)) == Success(Date(2019, 1, 16))
  {
    WeeklyOccurrence3();
    GetDateWeekly();
    assert Before(Date(2019, 1, 10), Date(2019, 1, 16)) && !Before(Date(2019, 1, 10), Date(2019, 1, 9));
    FirstOccurrenceAfterBracket(7, "days", Date(2019, 1, 2), Date(2019, 1, 10), 3);
  }

  // Occurrence 4 of every 7 days from 2019-01-02
  lemma WeeklyOccurrence4()
    ensures OccurrenceDate(7, "days", Date(2019, 1, 2), 4) == Date(2019, 1, 23)
  {
    AddDaysCounts(Date(2019, 1, 2), 21);
    BeforeIffDayNumber(AddDays(Date(2019, 1, 2), 21), Date(2019, 1, 23));
  }

  // Every 7 days from 2019-01-02, after 2019-01-20: the next weekly date
  lemma GetDateAfterWeeklyThirdWeek()
    ensures FirstOccurrenceAfter(7, "days", Date(2019, 1, 2), Date(2019, 1, 20)) == Success(Date(2019, 1, 23))
  {
    WeeklyOccurrence4();
    WeeklyOccurrence3();
    assert Before(Date(2019, 1, 20), Date(2019, 1, 23)) && !Before(Date(2019, 1, 20), Date(2019, 1, 16));
    FirstOccurrenceAfterBracket(7, "days", Date(2019, 1, 2), Date(2019, 1, 20), 4);
  }

  // Every 14 days from 2019-12-31, after 2020-01-02: across a year end
  lemma GetDateAfterFortnightlyAcrossYearEnd()
    ensures FirstOccurrenceAfter(14, "days", Date(2019, 12, 31), Date(2020, 1, 2)) == Success(Date(2020, 1, 14))
  {
    GetDateFortnightlyAcrossYearEnd();
    FirstOccurrenceIsStart(14, "days", Date(2019, 12, 31));
    assert Before(Date(2020, 1, 2), Date(2020, 1, 14)) && !Before(Date(2020, 1, 2), Date(2019, 12, 31));
    FirstOccurrenceAfterBracket(14, "days", Date(2019, 12, 31), Date(2020, 1, 2), 2);
  }

  // Every 30 days from 2019-02-01, after 2019-02-08: across a 28-day February
  lemma GetDateAfterThirtyDays()
    ensures FirstOccurrenceAfter(30, "days", Date(2019, 2, 1), Date(2019, 2, 8)) == Success(Date(2019, 3, 3))
  {
    GetDateThirtyDaysAcrossFebruary();
    FirstOccurrenceIsStart(30, "days", Date(2019, 2, 1));
    assert Before(Date(2019, 2, 8), Date(2019, 3, 3)) && !Before(Date(2019, 2, 8), Date(2019, 2, 1));
    FirstOccurrenceAfterBracket(30, "days", Date(2019, 2, 1), Date(2019, 2, 8), 2);
  }

  // Occurrence 4 of every 365 days from 2019-01-02
  lemma YearOfDaysOccurrence4()
    ensures OccurrenceDate(365, "days", Date(2019, 1, 2), 4) == Date(2022, 1, 1)
  {
    AddDaysCounts(Date(2019, 1, 2), 1095);
    BeforeIffDayNumber(AddDays(Date(2019, 1, 2), 1095), Date(2022, 1, 1));
  }

  // Occurrence 3 of every 365 days from 2019-01-02
  lemma YearOfDaysOccurrence3()
    ensures OccurrenceDate(365, "days", Date(2019, 1, 2), 3) == Date(2021, 1, 1)
  {
    AddDaysCounts(Date(2019, 1, 2), 730);
    BeforeIffDayNumber(AddDays(Date(2019, 1, 2), 730), Date(2021, 1, 1));
  }

  // Every 365 days from 2019-01-02, after 2021-01-02: 365-day steps drift a day across the leap year 2020
  lemma GetDateAfterYearOfDays()
    ensures FirstOccurrenceAfter(365, "days", Date(2019, 1, 2), Date(2021, 1, 2)) == Success(Date(2022, 1, 1))
  {
    YearOfDaysOccurrence4();
    YearOfDaysOccurrence3();
    assert Before(Date(2021, 1, 2), Date(2022, 1, 1)) && !Before(Date(2021, 1, 2), Date(2021, 1, 1));
    FirstOccurrenceAfterBracket(365, "days", Date(2019, 1, 2), Date(2021, 1, 2), 4);
  }

  // Every month from 2019-01-02, after 1980-02-02: a date before the start gives the start
  lemma GetDateAfterMonthlyBeforeStart()
    ensures FirstOccurrenceAfter(1, "months", Date(2019, 1, 2), Date(1980, 2, 2)) == Success(Date(2019, 1, 2))
  {
    FirstOccurrenceIsStart(1, "months", Date(2019, 1, 2));
    assert Before(Date(1980, 2, 2), Date(2019, 1, 2));
    FirstOccurrenceAfterBracket(1, "months", Date(2019, 1, 2), Date(1980, 2, 2), 1);
  }

  // Occurrence 3 of every month from 2019-01-02
  lemma MonthlyFromDay2Occurrence3()
    ensures OccurrenceDate(1, "months", Date(2019, 1, 2), 3) == Date(2019, 3, 2)
  {
    MonthOccurrence(1, Date(2019, 1, 2), 3, Date(2019, 3, 2));
  }

  // Every month from 2019-01-02, after 2019-02-05: the day-of-month is kept
  lemma GetDateAfterMonthlyKeepsDay()
    ensures FirstOccurrenceAfter(1, "months", Date(2019, 1, 2), Date(2019, 2, 5)) == Success(Date(2019, 3, 2))
  {
    MonthlyFromDay2Occurrence3();
    GetDateMonthlyKeepsDay();
    assert Before(Date(2019, 2, 5), Date(2019, 3, 2)) && !Before(Date(2019, 2, 5), Date(2019, 2, 2));
    FirstOccurrenceAfterBracket(1, "months", Date(2019, 1, 2), Date(2019, 2, 5), 3);
  }

  // Every month from 2020-01-31, after 2020-02-01: the correction applies inside the search
  lemma GetDateAfterMonthlyLeapFebruary()
    ensures FirstOccurrenceAfter(1, "months", Date(2020, 1, 31), Date(2020, 2, 1)) == Success(Date(2020, 2, 29))
  {
    GetDateMonthlyClampsFebruary29();
    FirstOccurrenceIsStart(1, "months", Date(2020, 1, 31));
    assert Before(Date(2020, 2, 1), Date(2020, 2, 29)) && !Before(Date(2020, 2, 1), Date(2020, 1, 31));
    FirstOccurrenceAfterBracket(1, "months", Date(2020, 1, 31), Date(2020, 2, 1), 2);
  }

  // Occurrence 6 of every month from 2019-01-31
  lemma MonthlyFromDay31Occurrence6()
    ensures OccurrenceDate(1, "months", Date(2019, 1, 31), 6) == Date(2019, 6, 30)
  {
    MonthOccurrence(1, Date(2019, 1, 31), 6, Date(2019, 6, 30));
  }

  // Occurrence 5 of every month from 2019-01-31
  lemma MonthlyFromDay31Occurrence5()
    ensures OccurrenceDate(1, "months", Date(2019, 1, 31), 5) == Date(2019, 5, 31)
  {
    MonthOccurrence(1, Date(2019, 1, 31), 5, Date(2019, 5, 31));
  }

  // Every month from 2019-01-31, after 2019-06-01: earlier clamps do not persist; June clamps to the 30th
  lemma GetDateAfterMonthlyClampsJune()
    ensures FirstOccurrenceAfter(1, "months", Date(2019, 1, 31), Date(2019, 6, 1)) == Success(Date(2019, 6, 30))
  {
    MonthlyFromDay31Occurrence6();
    MonthlyFromDay31Occurrence5();
    assert Before(Date(2019, 6, 1), Date(2019, 6, 30)) && !Before(Date(2019, 6, 1), Date(2019, 5, 31));
    FirstOccurrenceAfterBracket(1, "months", Date(2019, 1, 31), Date(2019, 6, 1), 6);
  }

  // Occurrence 6 of every 3 months from 2019-03-31
  lemma QuarterlyFromDay31Occurrence6()
    ensures OccurrenceDate(3, "months", Date(2019, 3, 31), 6) == Date(2020, 6, 30)
  {
    MonthOccurrence(3, Date(2019, 3, 31), 6, Date(2020, 6, 30));
  }

  // Occurrence 5 of every 3 months from 2019-03-31
  lemma QuarterlyFromDay31Occurrence5()
    ensures OccurrenceDate(3, "months", Date(2019, 3, 31), 5) == Date(2020, 3, 31)
  {
    MonthOccurrence(3, Date(2019, 3, 31), 5, Date(2020, 3, 31));
  }

  // Every 3 months from 2019-03-31, after 2020-04-01: the quarterly schedule clamps in June
  lemma GetDateAfterQuarterlyClampsJune()
    ensures FirstOccurrenceAfter(3, "months", Date(2019, 3, 31), Date(2020, 4, 1)) == Success(Date(2020, 6, 30))
  {
    QuarterlyFromDay31Occurrence6();
    QuarterlyFromDay31Occurrence5();
    assert Before(Date(2020, 4, 1), Date(2020, 6, 30)) && !Before(Date(2020, 4, 1), Date(2020, 3, 31));
    FirstOccurrenceAfterBracket(3, "months", Date(2019, 3, 31), Date(2020, 4, 1), 6);
  }

  // Occurrence 4 of every 7 months from 2019-03-31
  lemma SevenMonthsFromDay31Occurrence4()
    ensures OccurrenceDate(7, "months", Date(2019, 3, 31), 4) == Date(2020, 12, 31)
  {
    MonthOccurrence(7, Date(2019, 3, 31), 4, Date(2020, 12, 31));
  }

  // Occurrence 3 of every 7 months from 2019-03-31
  lemma SevenMonthsFromDay31Occurrence3()
    ensures OccurrenceDate(7, "months", Date(2019, 3, 31), 3) == Date(2020, 5, 31)
  {
    MonthOccurrence(7, Date(2019, 3, 31), 3, Date(2020, 5, 31));
  }

  // Every 7 months from 2019-03-31, after 2020-09-01: December regains day 31
  lemma GetDateAfterSevenMonthsDay31()
    ensures FirstOccurrenceAfter(7, "months", Date(2019, 3, 31), Date(2020, 9, 1)) == Success(Date(2020, 12, 31))
  {
    SevenMonthsFromDay31Occurrence4();
    SevenMonthsFromDay31Occurrence3();
    assert Before(Date(2020, 9, 1), Date(2020, 12, 31)) && !Before(Date(2020, 9, 1), Date(2020, 5, 31));
    FirstOccurrenceAfterBracket(7, "months", Date(2019, 3, 31), Date(2020, 9, 1), 4);
  }

  // Occurrence 5 of every 7 months from 2019-03-31
  lemma SevenMonthsFromDay31Occurrence5()
    ensures OccurrenceDate(7, "months", Date(2019, 3, 31), 5) == Date(2021, 7, 31)
  {
    MonthOccurrence(7, Date(2019, 3, 31), 5, Date(2021, 7, 31));
  }

  // Every 7 months from 2019-03-31, after 2021-01-01: July regains day 31
  lemma GetDateAfterSevenMonthsNextYear()
    ensures FirstOccurrenceAfter(7, "months", Date(2019, 3, 31), Date(2021, 1, 1)) == Success(Date(2021, 7, 31))
  {
    SevenMonthsFromDay31Occurrence5();
    SevenMonthsFromDay31Occurrence4();
    assert Before(Date(2021, 1, 1), Date(2021, 7, 31)) && !Before(Date(2021, 1, 1), Date(2020, 12, 31));
    FirstOccurrenceAfterBracket(7, "months", Date(2019, 3, 31), Date(2021, 1, 1), 5);
  }
}
