/**
 * Hard-coded time tables, written one calendar year (twelve months) per row, and the
 * facts that connect such a table with the calendar generators of module Calendars.
 *
 * The scripts write their time points as one long literal array.  The model keeps
 * the same numbers in the same order but breaks the array into rows of twelve, so
 * that each year can be checked on its own: a row of the 360_day calendar holds
 * 30k + 15 for twelve consecutive k, and a Gregorian row holds the twelve mid-month
 * offsets of one year, given the days before that year and whether it is a leap year.
 */
module Tables {
  import opened Calendars
  import opened Coords

  /** The rows of a table read one after another. */
  function Concat(rows: seq<seq<real>>): seq<real>
  {
    if |rows| == 0 then [] else rows[0] + Concat(rows[1..])
  }

  /** Blocks of rows (a decade each, say) read one after another. */
  function Blocks(blocks: seq<seq<seq<real>>>): seq<seq<real>>
  {
    if |blocks| == 0 then [] else blocks[0] + Blocks(blocks[1..])
  }

  /** Every row holds exactly twelve months. */
  predicate FullRows(rows: seq<seq<real>>)
  {
    forall i :: 0 <= i < |rows| ==> |rows[i]| == 12
  }

  lemma {:induction false} ConcatLength(rows: seq<seq<real>>)
    requires FullRows(rows)
    ensures |Concat(rows)| == 12 * |rows|
  {
    if |rows| > 0 {
      assert FullRows(rows[1..]);
      ConcatLength(rows[1..]);
    }
  }

  /** Month m of row r of the table is entry 12r + m of the flat array. */
  lemma {:induction false} ConcatIndex(rows: seq<seq<real>>, r: nat, m: nat)
    requires FullRows(rows)
    requires r < |rows| && m < 12
    ensures 12 * r + m < |Concat(rows)| && Concat(rows)[12 * r + m] == rows[r][m]
  {
    ConcatLength(rows);
    if r > 0 {
      assert FullRows(rows[1..]);
      ConcatIndex(rows[1..], r - 1, m);
    }
  }

  /** Entry k of the flat array is month k % 12 of row k / 12. */
  lemma ConcatEntry(rows: seq<seq<real>>, k: nat)
    requires FullRows(rows)
    requires k < |Concat(rows)|
    ensures k / 12 < |rows|
    ensures Concat(rows)[k] == rows[k / 12][k % 12]
  {
    ConcatLength(rows);
    assert k == 12 * (k / 12) + k % 12;
    ConcatIndex(rows, k / 12, k % 12);
  }

  /** The entries of `axis` are the mid-month points of consecutive months from January of `epoch`. */
  predicate IsMonthlyAxis(axis: seq<real>, cal: Calendar, epoch: int)
  {
    forall k :: 0 <= k < |axis| ==> axis[k] == MidMonth(cal, epoch, k)
  }

  lemma MonthlyAxisIsGenerated(axis: seq<real>, cal: Calendar, epoch: int)
    requires IsMonthlyAxis(axis, cal, epoch)
    ensures axis == MidMonths(cal, epoch, |axis|)
  {
  }

  /** A monthly axis strictly increases, as the points of a time dimension must. */
  lemma MonthlyAxisIncreases(axis: seq<real>, cal: Calendar, epoch: int)
    requires IsMonthlyAxis(axis, cal, epoch)
    ensures forall i, j :: 0 <= i < j < |axis| ==> axis[i] < axis[j]
    ensures StrictlyMonotonic(axis)
  {
    forall i, j | 0 <= i < j < |axis| ensures axis[i] < axis[j] {
      MidMonthIncreasing(cal, epoch, i, j);
    }
  }

  /** A monthly axis extended by the points of the months that follow it is still a monthly axis. */
  lemma ExtendAxis(axis: seq<real>, tail: seq<real>, cal: Calendar, epoch: int)
    requires IsMonthlyAxis(axis, cal, epoch)
    requires forall i :: 0 <= i < |tail| ==> tail[i] == MidMonth(cal, epoch, |axis| + i)
    ensures IsMonthlyAxis(axis + tail, cal, epoch)
  {
  }

  // ---------------------------------------------------------------------------
  // 360_day tables

  /** A row whose entries are 30k + 15 for the consecutive months k0, k0 + 1, ... */
  predicate Day360Row(row: seq<real>, k0: nat)
  {
    forall m :: 0 <= m < |row| ==> row[m] == (30 * (k0 + m) + 15) as real
  }

  /** Full rows, row y being year r0 + y counted from the epoch, in the 360_day calendar. */
  predicate Day360RowsFrom(rows: seq<seq<real>>, r0: nat)
  {
    forall y :: 0 <= y < |rows| ==> |rows[y]| == 12 && Day360Row(rows[y], 12 * (r0 + y))
  }

  /** Two blocks of 360_day years, the second following the first, make one block. */
  lemma AppendDay360Rows(a: seq<seq<real>>, b: seq<seq<real>>, r0: nat)
    requires Day360RowsFrom(a, r0) && Day360RowsFrom(b, r0 + |a|)
    ensures Day360RowsFrom(a + b, r0)
  {
    forall y | |a| <= y < |a| + |b|
      ensures |(a + b)[y]| == 12 && Day360Row((a + b)[y], 12 * (r0 + y))
    {
      assert (a + b)[y] == b[y - |a|];
    }
  }

  /** Blocks of ten 360_day years each (the last may be shorter), block i from year r0 + 10i, make one table. */
  lemma {:induction false} Day360Blocks(blocks: seq<seq<seq<real>>>, r0: nat)
    requires forall i :: 0 <= i < |blocks| - 1 ==> |blocks[i]| == 10
    requires forall i :: 0 <= i < |blocks| ==> Day360RowsFrom(blocks[i], r0 + 10 * i)
    ensures Day360RowsFrom(Blocks(blocks), r0)
    ensures |blocks| > 0 ==> |Blocks(blocks)| == 10 * (|blocks| - 1) + |blocks[|blocks| - 1]|
  {
    if |blocks| > 0 {
      assert forall i :: 0 <= i < |blocks[1..]| ==> Day360RowsFrom(blocks[1..][i], r0 + 10 + 10 * i) by {
        forall i | 0 <= i < |blocks[1..]| ensures Day360RowsFrom(blocks[1..][i], r0 + 10 + 10 * i) {
          assert blocks[1..][i] == blocks[i + 1];
        }
      }
      Day360Blocks(blocks[1..], r0 + 10);
      if |blocks| > 1 {
        AppendDay360Rows(blocks[0], Blocks(blocks[1..]), r0);
      }
    }
  }

  /** Ten 360_day years, stated year by year, make a block of rows. */
  lemma Day360Decade(rows: seq<seq<real>>, r0: nat)
    requires |rows| == 10
    requires |rows[0]| == 12 && Day360Row(rows[0], 12 * (r0 + 0)) &&
    |rows[1]| == 12 && Day360Row(rows[1], 12 * (r0 + 1)) &&
    |rows[2]| == 12 && Day360Row(rows[2], 12 * (r0 + 2)) &&
    |rows[3]| == 12 && Day360Row(rows[3], 12 * (r0 + 3)) &&
    |rows[4]| == 12 && Day360Row(rows[4], 12 * (r0 + 4)) &&
    |rows[5]| == 12 && Day360Row(rows[5], 12 * (r0 + 5)) &&
    |rows[6]| == 12 && Day360Row(rows[6], 12 * (r0 + 6)) &&
    |rows[7]| == 12 && Day360Row(rows[7], 12 * (r0 + 7)) &&
    |rows[8]| == 12 && Day360Row(rows[8], 12 * (r0 + 8)) &&
    |rows[9]| == 12 && Day360Row(rows[9], 12 * (r0 + 9))
    ensures Day360RowsFrom(rows, r0)
  {
  }

  /** A table of 360_day years from the epoch is its monthly axis, whatever the epoch. */
  lemma Day360Table(rows: seq<seq<real>>, epoch: int)
    requires Day360RowsFrom(rows, 0)
    ensures IsMonthlyAxis(Concat(rows), Day360, epoch)
  {
    assert FullRows(rows);
    forall k | 0 <= k < |Concat(rows)|
      ensures Concat(rows)[k] == MidMonth(Day360, epoch, k)
    {
      ConcatEntry(rows, k);
      assert k == 12 * (k / 12) + k % 12;
      MidMonth360(epoch, k);
    }
  }

  // ---------------------------------------------------------------------------
  // Gregorian tables since 1960-01-01

  /**
   * The twelve mid-month offsets of a Gregorian year that starts `start` days after the
   * epoch: January is centred 15.5 days in, February 14 or (leap) 14.5 days after the
   * 31 days of January, and every later month one day later in a leap year.
   */
  predicate GregorianRow(row: seq<real>, start: int, leap: bool)
  {
    var s, l := start as real, if leap then 1.0 else 0.0;
    |row| == 12 &&
    row[0] == s + 15.5 && row[1] == s + 31.0 + (28.0 + l) / 2.0 && row[2] == s + 59.0 + l + 15.5 &&
    row[3] == s + 90.0 + l + 15.0 && row[4] == s + 120.0 + l + 15.5 && row[5] == s + 151.0 + l + 15.0 &&
    row[6] == s + 181.0 + l + 15.5 && row[7] == s + 212.0 + l + 15.5 && row[8] == s + 243.0 + l + 15.0 &&
    row[9] == s + 273.0 + l + 15.5 && row[10] == s + 304.0 + l + 15.0 && row[11] == s + 334.0 + l + 15.5
  }

  /**
   * Days from 1960-01-01 to January 1st of 1960 + n, valid while every fourth year is a
   * leap year (1960 to 2099: 2000 is divisible by 400).
   */
  function Start1960(n: nat): int
  {
    365 * n + (n + 3) / 4
  }

  /** Rows of Gregorian years, row y being the year 1960 + n0 + y. */
  predicate GregorianRowsFrom(rows: seq<seq<real>>, n0: nat)
  {
    forall y :: 0 <= y < |rows| ==> GregorianRow(rows[y], Start1960(n0 + y), (n0 + y) % 4 == 0)
  }

  /** Two blocks of Gregorian years, the second following the first, make one block. */
  lemma AppendGregorianRows(a: seq<seq<real>>, b: seq<seq<real>>, n0: nat)
    requires GregorianRowsFrom(a, n0) && GregorianRowsFrom(b, n0 + |a|)
    ensures GregorianRowsFrom(a + b, n0)
  {
    forall y | |a| <= y < |a| + |b|
      ensures GregorianRow((a + b)[y], Start1960(n0 + y), (n0 + y) % 4 == 0)
    {
      assert (a + b)[y] == b[y - |a|];
    }
  }

  /** Blocks of ten Gregorian years each (the last may be shorter), block i from 1960 + n0 + 10i, make one table. */
  lemma {:induction false} GregorianBlocks(blocks: seq<seq<seq<real>>>, n0: nat)
    requires forall i :: 0 <= i < |blocks| - 1 ==> |blocks[i]| == 10
    requires forall i :: 0 <= i < |blocks| ==> GregorianRowsFrom(blocks[i], n0 + 10 * i)
    ensures GregorianRowsFrom(Blocks(blocks), n0)
    ensures |blocks| > 0 ==> |Blocks(blocks)| == 10 * (|blocks| - 1) + |blocks[|blocks| - 1]|
  {
    if |blocks| > 0 {
      assert forall i :: 0 <= i < |blocks[1..]| ==> GregorianRowsFrom(blocks[1..][i], n0 + 10 + 10 * i) by {
        forall i | 0 <= i < |blocks[1..]| ensures GregorianRowsFrom(blocks[1..][i], n0 + 10 + 10 * i) {
          assert blocks[1..][i] == blocks[i + 1];
        }
      }
      GregorianBlocks(blocks[1..], n0 + 10);
      if |blocks| > 1 {
        AppendGregorianRows(blocks[0], Blocks(blocks[1..]), n0);
      }
    }
  }

  /** Ten Gregorian years, stated year by year, make a block of rows. */
  lemma GregorianDecade(rows: seq<seq<real>>, n0: nat)
    requires |rows| == 10
    requires GregorianRow(rows[0], Start1960(n0 + 0), (n0 + 0) % 4 == 0) &&
    GregorianRow(rows[1], Start1960(n0 + 1), (n0 + 1) % 4 == 0) &&
    GregorianRow(rows[2], Start1960(n0 + 2), (n0 + 2) % 4 == 0) &&
    GregorianRow(rows[3], Start1960(n0 + 3), (n0 + 3) % 4 == 0) &&
    GregorianRow(rows[4], Start1960(n0 + 4), (n0 + 4) % 4 == 0) &&
    GregorianRow(rows[5], Start1960(n0 + 5), (n0 + 5) % 4 == 0) &&
    GregorianRow(rows[6], Start1960(n0 + 6), (n0 + 6) % 4 == 0) &&
    GregorianRow(rows[7], Start1960(n0 + 7), (n0 + 7) % 4 == 0) &&
    GregorianRow(rows[8], Start1960(n0 + 8), (n0 + 8) % 4 == 0) &&
    GregorianRow(rows[9], Start1960(n0 + 9), (n0 + 9) % 4 == 0)
    ensures GregorianRowsFrom(rows, n0)
  {
  }

  /** Between 1960 and 2099 the general Gregorian rules reduce to "every fourth year from 1960". */
  lemma Years1960To2099(n: nat)
    requires n < 140
    ensures DaysBeforeYear(1960, 1960 + n) == Start1960(n)
    ensures IsLeapYear(1960 + n) <==> n % 4 == 0
  {
    var y := 1960 + n;
    assert (y - 1) / 100 == if y <= 2000 then 19 else 20;
    assert (y - 1) / 400 == if y <= 2000 then 4 else 5;
    assert (y - 1) / 4 == 489 + (n + 3) / 4;
    assert y % 100 == 0 <==> y == 2000;
  }

  /** A Gregorian row for year 1960 + n, built from the shortcut, holds that year's mid-month points. */
  lemma GregorianRowIsYear(row: seq<real>, n: nat)
    requires n < 140
    requires GregorianRow(row, Start1960(n), n % 4 == 0)
    ensures forall m :: 0 <= m < 12 ==> row[m] == GregorianMid(1960, 1960 + n, m + 1)
  {
    Years1960To2099(n);
  }

  /** A table of Gregorian years from 1960 (before 2100) is the monthly axis since 1960-01-01. */
  lemma Gregorian1960Table(rows: seq<seq<real>>)
    requires |rows| <= 140
    requires GregorianRowsFrom(rows, 0)
    ensures IsMonthlyAxis(Concat(rows), Gregorian, 1960)
  {
    assert FullRows(rows);
    forall k | 0 <= k < |Concat(rows)|
      ensures Concat(rows)[k] == MidMonth(Gregorian, 1960, k)
    {
      ConcatEntry(rows, k);
      GregorianRowIsYear(rows[k / 12], k / 12);
      MidMonthGregorian(1960, k);
    }
  }

  // ---------------------------------------------------------------------------
  // What a monthly axis looks like

  /** Point k of a 360_day monthly axis is 30k + 15, so neighbours lie exactly 30 days apart. */
  lemma Day360AxisFacts(axis: seq<real>, epoch: int)
    requires IsMonthlyAxis(axis, Day360, epoch)
    ensures forall k :: 0 <= k < |axis| ==> axis[k] == (30 * k + 15) as real
    ensures forall k :: 0 <= k < |axis| - 1 ==> axis[k + 1] - axis[k] == 30.0
  {
    forall k | 0 <= k < |axis| ensures axis[k] == (30 * k + 15) as real {
      MidMonth360(epoch, k);
    }
    forall k | 0 <= k < |axis| - 1 ensures axis[k + 1] - axis[k] == 30.0 {
      Spacing360(epoch, k);
    }
  }

  /**
   * On any monthly axis the bounds `guess_bounds` gives tile the axis: each cell ends
   * where the next begins and holds its own mid-month point strictly inside.
   */
  lemma MonthlyAxisGuessedBounds(axis: seq<real>, cal: Calendar, epoch: int)
    requires IsMonthlyAxis(axis, cal, epoch) && |axis| >= 2
    ensures var b := GuessedBounds(axis);
      (forall k :: 0 <= k < |axis| - 1 ==> b[k].upper == b[k + 1].lower) &&
      (forall k :: 0 <= k < |axis| ==> b[k].lower < axis[k] < b[k].upper)
  {
    MonthlyAxisIncreases(axis, cal, epoch);
    GuessedBoundsTile(axis);
  }

  /**
   * On a 360_day axis the bounds `guess_bounds` gives are the month boundaries:
   * month k runs from day 30k to day 30k + 30.
   */
  lemma Day360GuessedBounds(axis: seq<real>, epoch: int)
    requires IsMonthlyAxis(axis, Day360, epoch) && |axis| >= 2
    ensures forall k :: 0 <= k < |axis| ==> GuessedBounds(axis)[k] == Bounds((30 * k) as real, (30 * k + 30) as real)
  {
    Day360AxisFacts(axis, epoch);
  }

  /** Neighbouring points of a Gregorian monthly axis lie 29.5 to 31 days apart. */
  lemma GregorianAxisSteps(axis: seq<real>, epoch: int)
    requires IsMonthlyAxis(axis, Gregorian, epoch)
    ensures forall k :: 0 <= k < |axis| - 1 ==> 29.5 <= axis[k + 1] - axis[k] <= 31.0
  {
    forall k | 0 <= k < |axis| - 1 ensures 29.5 <= axis[k + 1] - axis[k] <= 31.0 {
      GregorianGap(epoch, k);
    }
  }

  /** Every February of a Gregorian monthly axis is centred 14.5 days into a leap-year February and 14 days into any other. */
  lemma GregorianAxisFebruaries(axis: seq<real>, epoch: int)
    requires IsMonthlyAxis(axis, Gregorian, epoch)
    ensures forall k :: 0 <= k < |axis| && MonthOf(k) == 2 ==>
      axis[k] - DaysBefore(Gregorian, epoch, k) as real == if IsLeapYear(YearOf(epoch, k)) then 14.5 else 14.0
  {
    forall k | 0 <= k < |axis| && MonthOf(k) == 2
      ensures axis[k] - DaysBefore(Gregorian, epoch, k) as real == if IsLeapYear(YearOf(epoch, k)) then 14.5 else 14.0
    {
      GregorianFebruary(epoch, k);
    }
  }

  /**
   * December of 1960 + n (before 2100), month 12n + 11 since 1960-01-01, is centred
   * 349.5 days after the year's start, or 350.5 in a leap year: 350.5 for December 1960
   * and 22265.5 for December 2020.
   */
  lemma GregorianDecember(n: nat)
    requires n < 140
    ensures MidMonth(Gregorian, 1960, 12 * n + 11) == Start1960(n) as real + if n % 4 == 0 then 350.5 else 349.5
  {
    var k := 12 * n + 11;
    assert k / 12 == n && k % 12 == 11;
    assert YearOf(1960, k) == 1960 + n && MonthOf(k) == 12;
    MidMonthGregorian(1960, k);
    Years1960To2099(n);
    assert DaysBeforeMonthInYear(1960 + n, 12) == if n % 4 == 0 then 335 else 334;
  }

  /**
   * A Gregorian axis from January 1960 through December of 1960 + n starts at 15.5 and
   * ends on that December's mid-month point.
   */
  lemma GregorianAxisEnds(axis: seq<real>, n: nat, last: real)
    requires n < 140
    requires IsMonthlyAxis(axis, Gregorian, 1960) && |axis| == 12 * n + 12
    requires last == Start1960(n) as real + if n % 4 == 0 then 350.5 else 349.5
    ensures axis[0] == 15.5 && axis[|axis| - 1] == last
  {
    MidJanuary(Gregorian, 1960);
    GregorianDecember(n);
  }
}
