# Authorize.Net interval calculator, modelled in Dafny

A model of the recurring-billing interval calculator of
`salcode/authorizenet-interval-calculator`. The calculator describes a
subscription by a start date and an interval of `length` days or months,
within Authorize.Net's bounds. It answers two questions: the date of billing
occurrence `n` (`getDate`), and the first occurrence strictly after a given
date (`getDateAfter`).

The project has three files:

- `calendar.dfy` (module `Calendar`) is the part of PHP's date library the
  calculator relies on, for proleptic Gregorian dates at midnight in one zone.
  It has the leap-year rule, month lengths, day addition, PHP's month
  addition (the day-of-month overflows into the following month), PHP's
  "last day of previous month", and chronological order. `DayNumber`, a
  count of days from 0001-01-01, is the independent reference: day addition
  and the order are proved against it.
- `interval_calculator.dfy` (module `IntervalCalculator`) holds the rest:
  - the bound constants and the `(length, unit)` validation;
  - the corrected month projection (the day-of-month is clamped to the end of
    a short target month, and never snapped otherwise);
  - the occurrence schedule and the forward search;
  - the `AuthorizeNetIntervalCalculator` class, whose `length`, `unit` and
    `startDate` are fixed by the constructor;
  - `Create`, the construct-or-fail entry point.
- `calculator_examples.dfy` (module `CalculatorExamples`) proves every row of
  the repository's three data tables (validation, `getDate`, `getDateAfter`)
  about the model. The 19 validation rows share one lemma, `ValidationTable`.
  The tests expect the constructor to throw for the rejected rows; these
  rows reach construction through the if-and-only-if in `Create`'s
  contract, which fails exactly when the pair is invalid. Each `getDate` row
  and each `getDateAfter` row is its own lemma.

The unit is kept as a string, as in the code. Only the exact strings `"days"`
and `"months"` are accepted, so `"day"` and `"month"` are rejected. A design
with a two-value unit type would not capture that. A failed construction is
the error value `InvalidLengthUnitCombo` in place of PHP's
`InvalidArgumentException`.

## Model

| member | source | states |
|---|---|---|
| IntervalCalculator.IsLengthAndUnitValid | src/AuthorizeNetIntervalCalculator.php:94-102 | true exactly for unit "days" with length 7..365 or unit "months" with length 1..12; a valid pair has length 1..365 and one of the two units |
| IntervalCalculator.Create | src/AuthorizeNetIntervalCalculator.php:75-83 | construction fails, with `InvalidLengthUnitCombo` and no calculator, exactly when the pair is invalid; otherwise it yields a fresh, valid calculator holding the arguments unchanged and the start date's current value |
| IntervalCalculator.AuthorizeNetIntervalCalculator.constructor | src/AuthorizeNetIntervalCalculator.php:80-82 | stores length and unit unchanged and the value the start-date argument has at construction; the object is valid, and stays valid because its fields are constants |
| IntervalCalculator.StartDateIsSnapshot | src/AuthorizeNetIntervalCalculator.php:113-119 | when the caller changes its mutable DateTime after construction, the calculator still holds the date from before the change |
| IntervalCalculator.AuthorizeNetIntervalCalculator.GetDate | src/AuthorizeNetIntervalCalculator.php:26-27 | occurrence n fails with `OccurrenceOutOfRange` exactly when n is outside 1..MAX_NUM_OCCURRENCES (9999); otherwise it is the schedule's date for n |
| IntervalCalculator.AuthorizeNetIntervalCalculator.GetDateAfter | tests/GetDateAfterTest.php:35-46 | the loop over occurrences 1..9999 returns exactly the search's specified result; a returned date is strictly after afterDate |
| IntervalCalculator.FirstOccurrenceAfter | tests/GetDateAfterTest.php:35-46 | a date found by the search is strictly after afterDate; the search fails only with `SearchExhausted`, and only when occurrence 9999 is not after afterDate |
| IntervalCalculator.FirstIndexAfter | tests/GetDateAfterTest.php:35-46 | the index found is the least one from i on whose occurrence is after afterDate, or 9999 + 1 when none up to 9999 is |
| IntervalCalculator.FirstOccurrenceAfterIsEarliest | tests/GetDateAfterTest.php:60-69 | a successful search returns some occurrence k within the limit that is after afterDate, with no earlier occurrence after it; failure is `SearchExhausted` and only when no occurrence up to 9999 is after afterDate |
| IntervalCalculator.FirstOccurrenceAfterIsLeast | tests/GetDateAfterTest.php:60-69 | if any occurrence within the limit is after afterDate, the search succeeds, and its result is on or before that occurrence |
| IntervalCalculator.FirstOccurrenceAfterBracket | tests/GetDateAfterTest.php:80-85 | the search returns occurrence m if and only if occurrence m is after afterDate and occurrence m - 1 (when m > 1) is not |
| IntervalCalculator.SearchStopsAtBracket | tests/GetDateAfterTest.php:35-46 | scanning from any index i up to m, the search stops exactly at m when occurrence m is after afterDate and occurrence m - 1 is not |
| IntervalCalculator.AfterIsUpwardClosed | tests/GetDateAfterTest.php:60-69 | once an occurrence is after afterDate, every later occurrence is too |
| IntervalCalculator.SearchBeforeStart | tests/GetDateAfterTest.php:86-90 | when afterDate precedes the start date, the search returns the start date |
| IntervalCalculator.FirstOccurrenceIsStart | tests/GetDateAfterTest.php:55-59 | occurrence 1 is the start date, for both units |
| IntervalCalculator.DayOccurrence | tests/GetDateTest.php:55-69 | with day units, a date is occurrence n if and only if its day number is (n - 1) * length above the start's |
| IntervalCalculator.MonthOccurrence | tests/GetDateTest.php:70-113 | with month units, a date is occurrence n if and only if it lies (n - 1) * length months after the start month, on the start's day-of-month clamped to that month's length |
| IntervalCalculator.MonthProjection | tests/GetDateTest.php:70-113 | the corrected month addition of k months always yields a valid calendar date |
| IntervalCalculator.OccurrenceDate | tests/GetDateTest.php:34-113 | occurrence n, computed from the start date in days or months according to the unit, is always a valid calendar date |
| IntervalCalculator.MonthProjectionClamps | tests/GetDateTest.php:74-101 | the corrected month addition lands in the target month, on min(start day, days in the target month) |
| IntervalCalculator.OccurrencesIncrease | tests/GetDateAfterTest.php:60-69 | a later occurrence number has a strictly later date, for both units |
| Calendar.DaysInMonth | tests/GetDateTest.php:78-93 | a month has 28 to 31 days, and 29 exactly for February of a leap year |
| Calendar.AddDays | tests/GetDateTest.php:55-69 | n days after a valid date is a valid date: the same date when n = 0, and a strictly later one when n > 0 |
| Calendar.AddDaysCounts | tests/GetDateTest.php:55-69 | n days after a date has a day number exactly n greater |
| Calendar.AddDaysIs | tests/GetDateTest.php:55-69 | n days after d is e if and only if e's day number is d's plus n |
| Calendar.AddDaysIncreasing | tests/GetDateTest.php:55-69 | adding more days gives a strictly later date |
| Calendar.BeforeIffDayNumber | tests/GetDateAfterTest.php:60-69 | for valid dates, year-month-day order agrees with day-number order, and equal dates are exactly those with equal day numbers |
| Calendar.AddMonthsOverflow | tests/GetDateTest.php:74-77 | PHP's month addition: the same day of the target month when that month has it, otherwise (day - month length) in the month after |
| Calendar.AddMonthsOverflowIsDayAddition | tests/GetDateTest.php:74-77 | that overflow is ordinary day addition counted from the first of the target month |
| Calendar.LastDayOfPreviousMonth | tests/GetDateTest.php:94-101 | the result is the last day of the month before the given date's month |
| CalculatorExamples.ValidationTable | tests/ValidationTest.php:53-71 | all 19 validation rows: the accepted pairs are valid, the rejected ones are not |
| CalculatorExamples.GetDateWeekly | tests/GetDateTest.php:55-56 | 7 days from 2019-01-02, occurrence 2 is 2019-01-09 |
| CalculatorExamples.GetDateFortnightlyAcrossYearEnd | tests/GetDateTest.php:59-60 | 14 days from 2019-12-31, occurrence 2 is 2020-01-14 |
| CalculatorExamples.GetDateThirtyDaysAcrossFebruary | tests/GetDateTest.php:63-64 | 30 days from 2019-02-01, occurrence 2 is 2019-03-03 |
| CalculatorExamples.GetDateYearOfDays | tests/GetDateTest.php:67-68 | 365 days from 2019-01-02, occurrence 2 is 2020-01-02 |
| CalculatorExamples.GetDateMonthlyKeepsDay | tests/GetDateTest.php:71-72 | monthly from 2019-01-02, occurrence 2 is 2019-02-02 |
| CalculatorExamples.GetDateMonthlyClampsFebruary28 | tests/GetDateTest.php:75-76 | monthly from 2019-01-31, occurrence 2 is 2019-02-28 |
| CalculatorExamples.GetDateMonthlyOccurrence14 | tests/GetDateTest.php:79-80 | monthly from 2019-01-31, occurrence 14 is 2020-02-29 |
| CalculatorExamples.GetDateMonthlyOccurrence38 | tests/GetDateTest.php:83-84 | monthly from 2019-01-31, occurrence 38 is 2022-02-28 |
| CalculatorExamples.GetDateMonthlyOccurrence62 | tests/GetDateTest.php:87-88 | monthly from 2019-01-31, occurrence 62 is 2024-02-29 |
| CalculatorExamples.GetDateMonthlyClampsFebruary29 | tests/GetDateTest.php:91-92 | monthly from 2020-01-31, occurrence 2 is 2020-02-29 |
| CalculatorExamples.GetDateMonthlyClampsApril | tests/GetDateTest.php:95-96 | monthly from 2019-03-31, occurrence 2 is 2019-04-30 |
| CalculatorExamples.GetDateQuarterlyClampsJune | tests/GetDateTest.php:99-100 | every 3 months from 2019-03-31, occurrence 2 is 2019-06-30 |
| CalculatorExamples.GetDateQuarterlyClampsSeptember | tests/GetDateTest.php:103-104 | every 3 months from 2019-03-31, occurrence 3 is 2019-09-30 |
| CalculatorExamples.GetDateSevenMonthsKeepsDay31 | tests/GetDateTest.php:107-108 | every 7 months from 2019-03-31, occurrence 2 is 2019-10-31 |
| CalculatorExamples.GetDateMonthlyKeepsDay30 | tests/GetDateTest.php:111-112 | monthly from 2019-04-30, occurrence 2 is 2019-05-30 |
| CalculatorExamples.GetDateAfterWeeklyBeforeStart | tests/GetDateAfterTest.php:56-58 | 7 days from 2019-01-02, after 1980-01-02: 2019-01-02 |
| CalculatorExamples.GetDateAfterWeeklySecondWeek | tests/GetDateAfterTest.php:61-63 | 7 days from 2019-01-02, after 2019-01-10: 2019-01-16 |
| CalculatorExamples.GetDateAfterWeeklyThirdWeek | tests/GetDateAfterTest.php:66-68 | 7 days from 2019-01-02, after 2019-01-20: 2019-01-23 |
| CalculatorExamples.GetDateAfterFortnightlyAcrossYearEnd | tests/GetDateAfterTest.php:71-73 | 14 days from 2019-12-31, after 2020-01-02: 2020-01-14 |
| CalculatorExamples.GetDateAfterThirtyDays | tests/GetDateAfterTest.php:76-78 | 30 days from 2019-02-01, after 2019-02-08: 2019-03-03 |
| CalculatorExamples.GetDateAfterYearOfDays | tests/GetDateAfterTest.php:81-84 | 365 days from 2019-01-02, after 2021-01-02: 2022-01-01 |
| CalculatorExamples.GetDateAfterMonthlyBeforeStart | tests/GetDateAfterTest.php:87-89 | monthly from 2019-01-02, after 1980-02-02: 2019-01-02 |
| CalculatorExamples.GetDateAfterMonthlyKeepsDay | tests/GetDateAfterTest.php:92-94 | monthly from 2019-01-02, after 2019-02-05: 2019-03-02 |
| CalculatorExamples.GetDateAfterMonthlyLeapFebruary | tests/GetDateAfterTest.php:97-99 | monthly from 2020-01-31, after 2020-02-01: 2020-02-29 |
| CalculatorExamples.GetDateAfterMonthlyClampsJune | tests/GetDateAfterTest.php:102-104 | monthly from 2019-01-31, after 2019-06-01: 2019-06-30 |
| CalculatorExamples.GetDateAfterQuarterlyClampsJune | tests/GetDateAfterTest.php:107-109 | every 3 months from 2019-03-31, after 2020-04-01: 2020-06-30 |
| CalculatorExamples.GetDateAfterSevenMonthsDay31 | tests/GetDateAfterTest.php:112-114 | every 7 months from 2019-03-31, after 2020-09-01: 2020-12-31 |
| CalculatorExamples.GetDateAfterSevenMonthsNextYear | tests/GetDateAfterTest.php:117-119 | every 7 months from 2019-03-31, after 2021-01-01: 2021-07-31 |

## Left out

- IntervalCalculator.AuthorizeNetIntervalCalculator.GetDate: the method body is not in src/AuthorizeNetIntervalCalculator.php. Its dates come from the table in tests/GetDateTest.php. The range check on n, and the `OccurrenceOutOfRange` error, are this model's reading of the MAX_NUM_OCCURRENCES limit at line 27, not behaviour the source shows.
- IntervalCalculator.AuthorizeNetIntervalCalculator.GetDateAfter: the method body is not in the source either. The scan over occurrences 1..9999 matches the table in tests/GetDateAfterTest.php. The `SearchExhausted` failure beyond the limit is this model's choice.
- IntervalCalculator.MonthProjection: its own contract states only that the result is a valid date. Where it lands (target month, clamped day) is stated by the separate lemma MonthProjectionClamps, so that the proofs which unfold the function do not carry that characterisation.
- IntervalCalculator.OccurrenceDate: its own contract states only that the result is a valid date. Its value is characterised by the lemmas FirstOccurrenceIsStart, DayOccurrence and MonthOccurrence.
- Time of day and time zones are not modelled. Every date is a (year, month, day) at midnight, which is what the `getDate` and `getDateAfter` tables use; their 'MST' suffixes and the string parsing are not modelled. The validation table's start date is the current date and time (tests/ValidationTest.php:51); it plays no part in validation, since IsLengthAndUnitValid does not read it. The date searched after must be a valid calendar date, as every PHP DateTimeInterface value is.
- PHP's DateTimeInterface machinery is not modelled, including `createFromMutable`. The model keeps only its outcome: the start date is stored as a value copy. A mutable argument is a `DateTime` object; an immutable one is a plain `Date`.
- PHP's supported date range and its 64-bit integers are not modelled. Years and lengths are unbounded integers, and the calendar is proleptic Gregorian for every year.
- Exception classes and their messages are not modelled. Failures are `Error` values inside a `Result`.
- src/AuthorizeNetIntervalCalculatorInterface.php is not part of this model. It declares no operations.
- tests/AuthorizeNetIntervalCalculatorTest.php is not part of this model. It calls the constructor with no arguments, which the three-argument signature at src/AuthorizeNetIntervalCalculator.php:75 does not allow.
