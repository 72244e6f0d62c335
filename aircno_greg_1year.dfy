/**
 * The aircraft nitric-oxide time slice of one Gregorian year
 * (emissions/python/timeslice/regrid_aircNO_n96e_greg_1year.py): the twelve months
 * of leap year 1960.  The cube is loaded already on the model grid and keeps all its
 * levels; the script writes no history entry and deletes nothing.
 */
module RegridAircNoGreg1Year {
  import opened Calendars
  import opened Tables
  import opened Coords
  import opened Cubes
  import opened Steps

  /** The time points of 1960. */
  const Time1960: seq<seq<real>> := [
    [15.5, 45.5, 75.5, 106.0, 136.5, 167.0, 197.5, 228.5, 259.0, 289.5, 320.0, 350.5]
  ]

  /** The forecast_reference_time points of 1960. */
  const Frt1960: seq<seq<real>> := [
    [15.5, 45.5, 75.5, 106.0, 136.5, 167.0, 197.5, 228.5, 259.0, 289.5, 320.0, 350.5]
  ]

  /** The time table as the script writes it, January 1960 to December 1960. */
  const TimeRows: seq<seq<real>> := Blocks([Time1960])

  const TimePoints: seq<real> := Concat(TimeRows)

  /** The forecast_reference_time table, written out a second time. */
  const FrtRows: seq<seq<real>> := Blocks([Frt1960])

  const FrtPoints: seq<real> := Concat(FrtRows)

  /** Units of both tables: days since 1960-01-01 00:00:00, gregorian calendar. */
  const TimeUnits: Units := DaysSince(1960, Gregorian)

  // Each block of rows holds the mid-month points of its years.

  lemma Time1960AreYears()
    ensures |Time1960| == 1 && GregorianRowsFrom(Time1960, 0)
  {
  }

  lemma Frt1960AreYears()
    ensures |Frt1960| == 1 && GregorianRowsFrom(Frt1960, 0)
  {
  }

  /** The rows of the time table are the years 1960 to 1960. */
  lemma TimeRowsAreYears()
    ensures |TimeRows| == 1 && GregorianRowsFrom(TimeRows, 0)
  {
    Time1960AreYears();
    GregorianBlocks([Time1960], 0);
  }

  /** Each time point is the Gregorian mid-month since 1960-01-01, one per month of the table. */
  lemma TimeIsMidMonths()
    ensures |TimePoints| == 12
    ensures TimePoints == MidMonths(Gregorian, 1960, 12)
  {
    TimeRowsAreYears();
    Gregorian1960Table(TimeRows);
    assert FullRows(TimeRows);
    ConcatLength(TimeRows);
    MonthlyAxisIsGenerated(TimePoints, Gregorian, 1960);
  }

  /** The rows of the forecast_reference_time table are the same years. */
  lemma FrtRowsAreYears()
    ensures |FrtRows| == 1 && GregorianRowsFrom(FrtRows, 0)
  {
    Frt1960AreYears();
    GregorianBlocks([Frt1960], 0);
  }

  /** The forecast_reference_time table holds the same mid-months. */
  lemma FrtIsMidMonths()
    ensures |FrtPoints| == 12
    ensures FrtPoints == MidMonths(Gregorian, 1960, 12)
  {
    FrtRowsAreYears();
    Gregorian1960Table(FrtRows);
    assert FullRows(FrtRows);
    ConcatLength(FrtRows);
    MonthlyAxisIsGenerated(FrtPoints, Gregorian, 1960);
  }

  /** The forecast_reference_time table equals the time table, entry for entry. */
  lemma FrtEqualsTime()
    ensures FrtPoints == TimePoints
  {
    TimeIsMidMonths();
    FrtIsMidMonths();
  }

  /** Number of months in the tables. */
  const MonthCount: nat := 12

  /** The 12 Gregorian mid-months since 1960-01-01: the points both tables hold. */
  function Months(): (s: seq<real>)
    ensures |s| == 12 && IsMonthlyAxis(s, Gregorian, 1960)
    ensures forall i, j :: 0 <= i < j < |s| ==> s[i] < s[j]
    ensures StrictlyMonotonic(s)
  {
    MonthlyAxisIncreases(MidMonths(Gregorian, 1960, MonthCount), Gregorian, 1960);
    MidMonths(Gregorian, 1960, MonthCount)
  }

  /** The time table is the monthly axis. */
  lemma TimeIsMonths()
    ensures TimePoints == Months()
  {
    TimeIsMidMonths();
  }

  /** The axis runs from 15.5 (mid-January 1960) to 350.5 (mid-December 1960). */
  lemma MonthsEnds()
    ensures Months()[0] == 15.5 && Months()[|Months()| - 1] == 350.5
  {
    GregorianAxisEnds(Months(), 0, 350.5);
  }

  /**
   * From one month to the next the axis rises by 29.5 to 31 days, and each February
   * is centred 14.5 days into the month in a leap year and 14 days in any other year.
   */
  lemma MonthsSteps()
    ensures forall k :: 0 <= k < |Months()| - 1 ==> 29.5 <= Months()[k + 1] - Months()[k] <= 31.0
    ensures forall k :: 0 <= k < |Months()| && MonthOf(k) == 2 ==>
      Months()[k] - DaysBefore(Gregorian, 1960, k) as real == if IsLeapYear(YearOf(1960, k)) then 14.5 else 14.0
  {
    GregorianAxisSteps(Months(), 1960);
    GregorianAxisFebruaries(Months(), 1960);
  }

  /**
   * The bounds guess_bounds gives the forecast_reference_time tile the axis: each cell
   * ends where the next begins and holds its own mid-month point strictly inside.
   */
  lemma FrtBounds()
    ensures var b := GuessedBounds(Months());
      (forall k :: 0 <= k < |Months()| - 1 ==> b[k].upper == b[k + 1].lower) &&
      (forall k :: 0 <= k < |Months()| ==> b[k].lower < Months()[k] < b[k].upper)
  {
    MonthlyAxisGuessedBounds(Months(), Gregorian, 1960);
  }

  const SourceFile: string := "MACCity_aircraft_NO_1960-2020_n96l85.nc"

  /** The attributes the script assigns with `attributes[key] = value`, lines 88 to 100. */
  function Assigned(): map<Key, Value>
  {
    map[
      VerticalScaling := Text("all_levels"), UmStashSource := Text("m01s00i340"),
      TracerName := Text("NO_aircrft"), EmissionType := Text("1"), UpdateType := Text("1"),
      UpdateFreqInHours := Text("120"), UmVersion := Text("10.4"), Source := Text(SourceFile),
      DataVersion := Text("Beta release")
    ]
  }

  /** The loaded attributes the script deletes (none). */
  const Deleted: set<Key> := {}

  /** No assigned key is the history, a deleted key or a restricted one. */
  lemma AssignedKeys()
    ensures Disjoint(Assigned(), Deleted)
    ensures Assigned().Keys !! RestrictedKeys
  {
  }

  /** The attributes written on the emission variable rather than on the file. */
  const LocalKeys: seq<Key> := [VerticalScaling, MissingValue, UmStashSource, TracerName]

  /**
   * What the cube must offer for the coordinate statements to succeed:
   * a time dimension of 12 months leading the field,
   * x and y coordinates without bounds, a vertical coordinate, and no
   * forecast coordinates yet.
   */
  predicate CoordinatesReady(time: Coord, bounded: set<Dim>, shape: seq<nat>, level: Option<Coord>, frt: Option<Coord>, fp: Option<Coord>)
  {
    |time.points| == 12 &&
    X !in bounded && Y !in bounded &&
    |shape| > 0 && shape[0] == 12 && level.Some? && frt.None? && fp.None?
  }

  /**
   * What the cube must offer for the script to reach its end: the attribute
   * statements cannot fail, so only what the coordinate statements need.
   */
  predicate Ready(attributes: map<Key, Value>, time: Coord, bounded: set<Dim>, shape: seq<nat>, level: Option<Coord>, frt: Option<Coord>, fp: Option<Coord>)
  {
    CoordinatesReady(time, bounded, shape, level, frt, fp)
  }

  /** The attributes the script leaves on a cube loaded with `loaded`. */
  function Attributes(loaded: map<Key, Value>): map<Key, Value>
  {
    Assemble(loaded, Assigned(), None, Deleted)
  }

  /**
   * An emission over all model levels with emission and update types both '1'; as
   * nothing is deleted and no history is written, every loaded attribute the script
   * does not assign keeps its value, the history included.
   */
  lemma AttributeValues(loaded: map<Key, Value>)
    ensures var m := Attributes(loaded);
      VerticalScaling in m && m[VerticalScaling] == Text("all_levels") &&
      EmissionType in m && UpdateType in m && m[UpdateType] == m[EmissionType] == Text("1") &&
      (forall k :: k in loaded && k !in Assigned() && k != MissingValue ==> k in m && m[k] == loaded[k]) &&
      (History in loaded ==> History in m && m[History] == loaded[History])
  {
    AssignedKeys();
    AssembleValues(loaded, Assigned(), None, Deleted);
  }

  /** The dictionary after lines 88 to 100, one assignment after another. */
  function Labelled(loaded: map<Key, Value>): map<Key, Value>
  {
    loaded
      [VerticalScaling := Text("all_levels")][UmStashSource := Text("m01s00i340")]
      [TracerName := Text("NO_aircrft")][EmissionType := Text("1")][UpdateType := Text("1")]
      [UpdateFreqInHours := Text("120")][UmVersion := Text("10.4")][Source := Text(SourceFile)]
      [DataVersion := Text("Beta release")]
  }

  /** Made one by one, the assignments of lines 88 to 100 overwrite the loaded attributes with `Assigned`. */
  lemma LabelledMerges(loaded: map<Key, Value>)
    ensures Labelled(loaded) == loaded + Assigned()
  {
  }

  /** Lines 88 to 100 of the script: the assignments, none of which can fail. */
  method WriteAttributes(cube: Cube)
    modifies cube`attributes
    ensures cube.attributes == Edited(old(cube.attributes), Assigned(), None, Deleted)
  {
    cube.SetAttribute(VerticalScaling, Text("all_levels"));
    cube.SetAttribute(UmStashSource, Text("m01s00i340"));
    cube.SetAttribute(TracerName, Text("NO_aircrft"));
    cube.SetAttribute(EmissionType, Text("1"));
    cube.SetAttribute(UpdateType, Text("1"));
    cube.SetAttribute(UpdateFreqInHours, Text("120"));
    cube.SetAttribute(UmVersion, Text("10.4"));
    cube.SetAttribute(Source, Text(SourceFile));
    cube.SetAttribute(DataVersion, Text("Beta release"));
    LabelledMerges(old(cube.attributes));
  }

  /** Lines 104 to 108: the time coordinate named, given its units and the table of points. */
  method WriteTime(cube: Cube) returns (r: Outcome)
    modifies cube`time
    ensures r == if |old(cube.time.points)| == 12 then Pass else Fail(ValueError)
    ensures cube.time == old(cube.time).(name := "time", units := TimeUnits, points := if r.Pass? then Months() else old(cube.time.points))
  {
    TimeIsMonths();
    r := SetMonthlyTime(cube, TimeUnits, TimePoints);
  }

  /** Lines 134 to 144: forecast_reference_time from its own table, its bounds guessed, then forecast_period. */
  method WriteForecastAxes(cube: Cube) returns (r: Outcome)
    modifies cube`frt, cube`fp
    ensures r == if old(cube.frt).None? && old(cube.fp).None? && |cube.shape| > 0 && cube.shape[0] == 12 then Pass else Fail(ValueError)
    ensures r.Pass? ==> cube.frt == Some(ForecastReferenceTime(TimeUnits, Months()).(bounds := GuessedBounds(Months())))
    ensures r.Pass? ==> cube.fp == Some(ForecastPeriod())
  {
    FrtEqualsTime();
    TimeIsMonths();
    r := AddForecastAxes(cube, TimeUnits, FrtPoints);
  }

  /**
   * Lines 104 to 144: the time block, the x and y bounds, the 64-bit casts, of which
   * the vertical points and the latitude bounds casts can fail, and the forecast block.
   */
  method WriteCoordinates(cube: Cube) returns (r: Outcome)
    requires cube.Valid()
    modifies cube`time, cube`bounded, cube`frt, cube`fp
    ensures cube.Valid()
    ensures r.Pass? <==> CoordinatesReady(old(cube.time), old(cube.bounded), old(cube.shape), old(cube.level), old(cube.frt), old(cube.fp))
    ensures r.Pass? ==> cube.time == old(cube.time).(name := "time", units := TimeUnits, points := Months())
    ensures r.Pass? ==> cube.bounded == old(cube.bounded) + {X, Y}
    ensures r.Pass? ==> cube.frt == Some(ForecastReferenceTime(TimeUnits, Months()).(bounds := GuessedBounds(Months())))
    ensures r.Pass? ==> cube.fp == Some(ForecastPeriod())
  {
    r := WriteTime(cube);
    if r.Fail? { return; }
    r := GuessHorizontalBounds(cube);
    if r.Fail? { return; }
    r := cube.CastLevelPoints();
    if r.Fail? { return; }
    r := cube.CastLatitudeBounds();
    if r.Fail? { return; }
    r := WriteForecastAxes(cube);
  }

  /**
   * The script from the loaded cube to the cube it saves.
   */
  method Run(cube: Cube) returns (r: Outcome)
    requires cube.Valid()
    modifies cube
    ensures cube.Valid()
    ensures r.Pass? <==> Ready(old(cube.attributes), old(cube.time), old(cube.bounded), old(cube.shape), old(cube.level), old(cube.frt), old(cube.fp))
    ensures r.Pass? ==> cube.attributes == Attributes(old(cube.attributes))
    ensures r.Pass? ==> cube.time == old(cube.time).(name := "time", units := TimeUnits, points := Months())
    ensures cube.level == old(cube.level) && cube.data == old(cube.data) && cube.shape == old(cube.shape) && cube.dims == old(cube.dims)
    ensures r.Pass? ==> cube.bounded == old(cube.bounded) + {X, Y}
    ensures r.Pass? ==> cube.frt == Some(ForecastReferenceTime(TimeUnits, Months()).(bounds := GuessedBounds(Months())))
    ensures r.Pass? ==> cube.fp == Some(ForecastPeriod())
    ensures r.Pass? ==> cube.cellMethods == [MeanOverTime] && cube.fillValue == Some(FillValue)
    ensures r.Pass? ==> MissingValue in cube.attributes && cube.attributes[MissingValue] == Number(cube.fillValue.value)
  {
    WriteAttributes(cube);
    r := WriteCoordinates(cube);
    if r.Fail? { return; }
    FinishForSaving(cube);
  }
}
