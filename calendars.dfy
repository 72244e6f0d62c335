/**
 * The calendars of the emission files' time axes (section 4.4.1, "Calendar", of the
 * CF Metadata Conventions) and the mid-month time points the scripts write.
 *
 * A time point is a number of days since January 1st of an epoch year.  Month k
 * (k = 0, 1, 2, ...) is the k-th month counted from January of the epoch year; its
 * time point is the number of days before it plus half its own length.
 */
module Calendars {

  /** `360_day` (twelve 30-day months) or `gregorian` (real month lengths). */
  datatype Calendar = Day360 | Gregorian

  /** The Gregorian leap rule: divisible by 4, and not by 100 unless by 400. */
  predicate IsLeapYear(year: int)
  {
    year % 4 == 0 && (year % 100 != 0 || year % 400 == 0)
  }

  /** Number of days in month `month` (1 = January) of `year`. */
  function MonthLength(cal: Calendar, year: int, month: int): (n: nat)
    requires 1 <= month <= 12
    ensures cal == Day360 ==> n == 30
    ensures cal == Gregorian ==> 28 <= n <= 31
    ensures cal == Gregorian && month == 2 ==> (n == 29 <==> IsLeapYear(year))
  {
    match cal
    case Day360 => 30
    case Gregorian =>
      if month == 2 then (if IsLeapYear(year) then 29 else 28)
      else if month == 4 || month == 6 || month == 9 || month == 11 then 30
      else 31
  }

  /** Calendar year of month k counted from January of `epoch`. */
  function YearOf(epoch: int, k: nat): int
  {
    epoch + k / 12
  }

  /** Month of the year (1 = January) of month k counted from any January. */
  function MonthOf(k: nat): (m: int)
    ensures 1 <= m <= 12
  {
    k % 12 + 1
  }

  /** Length of month k counted from January of `epoch`. */
  function LengthOfMonth(cal: Calendar, epoch: int, k: nat): nat
  {
    MonthLength(cal, YearOf(epoch, k), MonthOf(k))
  }

  /**
   * Days from January 1st of `epoch` to the first day of month k: the lengths of the
   * k months before it, summed one by one.  This is the reference definition.
   */
  function DaysBefore(cal: Calendar, epoch: int, k: nat): nat
  {
    if k == 0 then 0 else DaysBefore(cal, epoch, k - 1) + LengthOfMonth(cal, epoch, k - 1)
  }

  /** The mid-month time point of month k: days before it plus half its length. */
  function MidMonth(cal: Calendar, epoch: int, k: nat): real
  {
    DaysBefore(cal, epoch, k) as real + LengthOfMonth(cal, epoch, k) as real / 2.0
  }

  /** The time axis of n consecutive months starting with January of `epoch`. */
  function MidMonths(cal: Calendar, epoch: int, n: nat): (s: seq<real>)
    ensures |s| == n
    ensures forall k :: 0 <= k < n ==> s[k] == MidMonth(cal, epoch, k)
  {
    seq(n, k requires 0 <= k < n => MidMonth(cal, epoch, k))
  }

  // ---------------------------------------------------------------------------
  // 360_day calendar: the closed form 30k + 15

  lemma {:induction false} DaysBefore360(epoch: int, k: nat)
    ensures DaysBefore(Day360, epoch, k) == 30 * k
  {
    if k > 0 {
      DaysBefore360(epoch, k - 1);
    }
  }

  /** In the 360_day calendar month k is centred on day 30k + 15, whatever the epoch. */
  lemma MidMonth360(epoch: int, k: nat)
    ensures MidMonth(Day360, epoch, k) == (30 * k + 15) as real
  {
    DaysBefore360(epoch, k);
  }

  /** Consecutive 360_day time points are exactly 30 days apart. */
  lemma Spacing360(epoch: int, k: nat)
    ensures MidMonth(Day360, epoch, k + 1) - MidMonth(Day360, epoch, k) == 30.0
  {
    MidMonth360(epoch, k);
    MidMonth360(epoch, k + 1);
  }

  // ---------------------------------------------------------------------------
  // Gregorian calendar: a closed form by whole years and months within the year

  /** Number of leap years among 1, 2, ..., n (for any integer n, counting through zero). */
  function LeapYearsThrough(n: int): int
  {
    n / 4 - n / 100 + n / 400
  }

  /** Days from January 1st of `epoch` to January 1st of `year`. */
  function DaysBeforeYear(epoch: int, year: int): int
  {
    365 * (year - epoch) + LeapYearsThrough(year - 1) - LeapYearsThrough(epoch - 1)
  }

  /** Days from January 1st of `year` to the first day of `month` (Gregorian). */
  function DaysBeforeMonthInYear(year: int, month: int): int
    requires 1 <= month <= 12
  {
    var common :=
      if month == 1 then 0 else if month == 2 then 31 else if month == 3 then 59
      else if month == 4 then 90 else if month == 5 then 120 else if month == 6 then 151
      else if month == 7 then 181 else if month == 8 then 212 else if month == 9 then 243
      else if month == 10 then 273 else if month == 11 then 304 else 334;
    if month > 2 && IsLeapYear(year) then common + 1 else common
  }

  /** The Gregorian mid-month time point of `month` of `year`, days since `epoch`. */
  function GregorianMid(epoch: int, year: int, month: int): real
    requires 1 <= month <= 12
  {
    (DaysBeforeYear(epoch, year) + DaysBeforeMonthInYear(year, month)) as real
      + MonthLength(Gregorian, year, month) as real / 2.0
  }

  /** Counting back one year lowers the count of multiples of 4 exactly when `year` is one. */
  lemma PreviousQuarter(year: int)
    ensures (year - 1) / 4 == if year % 4 == 0 then year / 4 - 1 else year / 4
  {
  }

  /** Counting back one year lowers the count of multiples of 100 exactly when `year` is one. */
  lemma PreviousCentury(year: int)
    ensures (year - 1) / 100 == if year % 100 == 0 then year / 100 - 1 else year / 100
  {
  }

  /** Counting back one year lowers the count of multiples of 400 exactly when `year` is one. */
  lemma PreviousQuadricentury(year: int)
    ensures (year - 1) / 400 == if year % 400 == 0 then year / 400 - 1 else year / 400
  {
  }

  /** Every multiple of 100 is a multiple of 4, and every multiple of 400 one of 100. */
  lemma CenturiesAreQuarters(year: int)
    ensures year % 100 == 0 ==> year % 4 == 0
    ensures year % 400 == 0 ==> year % 100 == 0
  {
    if year % 100 == 0 {
      assert year == 4 * (25 * (year / 100));
    }
    if year % 400 == 0 {
      assert year == 100 * (4 * (year / 400));
    }
  }

  /** One more leap year is counted through `year` than through the year before it exactly when `year` is a leap year. */
  lemma LeapYearsStep(year: int)
    ensures LeapYearsThrough(year) - LeapYearsThrough(year - 1) == if IsLeapYear(year) then 1 else 0
  {
    PreviousQuarter(year);
    PreviousCentury(year);
    PreviousQuadricentury(year);
    CenturiesAreQuarters(year);
  }

  /** Crossing from December of one year into January of the next adds the whole year's length. */
  lemma NewYearStep(epoch: int, year: int)
    ensures DaysBeforeYear(epoch, year) + DaysBeforeMonthInYear(year, 12) + MonthLength(Gregorian, year, 12)
         == DaysBeforeYear(epoch, year + 1) + DaysBeforeMonthInYear(year + 1, 1)
  {
    LeapYearsStep(year);
  }

  /** Within one year, the start of the next month is the start of this one plus its length. */
  lemma MonthStep(year: int, month: int)
    requires 1 <= month < 12
    ensures DaysBeforeMonthInYear(year, month) + MonthLength(Gregorian, year, month)
         == DaysBeforeMonthInYear(year, month + 1)
  {
  }

  /** Counting months on by one either moves to the next month of the same year or from December to January. */
  lemma NextMonth(epoch: int, k: nat)
    ensures MonthOf(k) == 12 ==> YearOf(epoch, k + 1) == YearOf(epoch, k) + 1 && MonthOf(k + 1) == 1
    ensures MonthOf(k) < 12 ==> YearOf(epoch, k + 1) == YearOf(epoch, k) && MonthOf(k + 1) == MonthOf(k) + 1
  {
    assert k == 12 * (k / 12) + k % 12;
    if k % 12 == 11 {
      assert k + 1 == 12 * (k / 12 + 1) + 0;
    } else {
      assert k + 1 == 12 * (k / 12) + (k % 12 + 1);
    }
  }

  /** Days before month k by the closed form: whole years, then whole months of the year. */
  function ClosedDaysBefore(epoch: int, k: nat): int
  {
    DaysBeforeYear(epoch, YearOf(epoch, k)) + DaysBeforeMonthInYear(YearOf(epoch, k), MonthOf(k))
  }

  /** The closed form advances by the length of the month it passes. */
  lemma ClosedStep(epoch: int, k: nat)
    ensures ClosedDaysBefore(epoch, k) + LengthOfMonth(Gregorian, epoch, k) == ClosedDaysBefore(epoch, k + 1)
  {
    NextMonth(epoch, k);
    if MonthOf(k) == 12 {
      NewYearStep(epoch, YearOf(epoch, k));
    } else {
      MonthStep(YearOf(epoch, k), MonthOf(k));
    }
  }

  /** The summed month lengths agree with the closed form, month by month. */
  lemma {:induction false} DaysBeforeGregorian(epoch: int, k: nat)
    ensures DaysBefore(Gregorian, epoch, k) == ClosedDaysBefore(epoch, k)
  {
    if k > 0 {
      var j := k - 1;
      DaysBeforeGregorian(epoch, j);
      ClosedStep(epoch, j);
      assert DaysBefore(Gregorian, epoch, j + 1) == DaysBefore(Gregorian, epoch, j) + LengthOfMonth(Gregorian, epoch, j);
    }
  }

  /** Gregorian month k is centred on the closed-form mid-month of its year and month. */
  lemma MidMonthGregorian(epoch: int, k: nat)
    ensures MidMonth(Gregorian, epoch, k) == GregorianMid(epoch, YearOf(epoch, k), MonthOf(k))
  {
    DaysBeforeGregorian(epoch, k);
  }

  // ---------------------------------------------------------------------------
  // Properties of a monthly axis

  /** Every axis starts in the middle of a 31-day January, or of a 30-day 360_day month. */
  lemma MidJanuary(cal: Calendar, epoch: int)
    ensures MidMonth(cal, epoch, 0) == if cal == Day360 then 15.0 else 15.5
  {
  }

  /** Consecutive mid-month points lie half of each of the two months' lengths apart. */
  lemma MidMonthStep(cal: Calendar, epoch: int, k: nat)
    ensures MidMonth(cal, epoch, k + 1) - MidMonth(cal, epoch, k)
         == (LengthOfMonth(cal, epoch, k) + LengthOfMonth(cal, epoch, k + 1)) as real / 2.0
  {
  }

  /** Gregorian mid-month points lie 29.5 to 31 days apart: February is always next to two 31-day months. */
  lemma GregorianGap(epoch: int, k: nat)
    ensures 29.5 <= MidMonth(Gregorian, epoch, k + 1) - MidMonth(Gregorian, epoch, k) <= 31.0
  {
    MidMonthStep(Gregorian, epoch, k);
    NextMonth(epoch, k);
  }

  /** A February point lies 14.5 days into a leap-year February and 14 days into any other. */
  lemma GregorianFebruary(epoch: int, k: nat)
    requires MonthOf(k) == 2
    ensures MidMonth(Gregorian, epoch, k) - DaysBefore(Gregorian, epoch, k) as real
         == if IsLeapYear(YearOf(epoch, k)) then 14.5 else 14.0
  {
  }

  /** Mid-month points strictly increase with the month. */
  lemma {:induction false} MidMonthIncreasing(cal: Calendar, epoch: int, i: nat, j: nat)
    requires i < j
    ensures MidMonth(cal, epoch, i) < MidMonth(cal, epoch, j)
  {
    MidMonthStep(cal, epoch, j - 1);
    if i < j - 1 {
      MidMonthIncreasing(cal, epoch, i, j - 1);
    }
  }
}
