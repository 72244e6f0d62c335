/**
 * The aircraft nitric-oxide time slice for 1960 to 1974 on the 360_day calendar
 * (emissions/python/timeslice/regrid_aircNO_n96e_360d_1960-1974.py).  The cube is
 * loaded already on the model grid and keeps all its levels; the script writes no
 * history entry and deletes nothing.  Its time table holds 181 months: the fifteen
 * years 1960 to 1974 and then January 1975.
 */
module RegridAircNo360Timeslice {
  import opened Calendars
  import opened Tables
  import opened Coords
  import opened Cubes
  import opened Steps

  /** The time points of 1960 to 1969, one year per row. */
  const Time1960s: seq<seq<real>> := [
    [15.0, 45.0, 75.0, 105.0, 135.0, 165.0, 195.0, 225.0, 255.0, 285.0, 315.0, 345.0],
    [375.0, 405.0, 435.0, 465.0, 495.0, 525.0, 555.0, 585.0, 615.0, 645.0, 675.0, 705.0],
    [735.0, 765.0, 795.0, 825.0, 855.0, 885.0, 915.0, 945.0, 975.0, 1005.0, 1035.0, 1065.0],
    [1095.0, 1125.0, 1155.0, 1185.0, 1215.0, 1245.0, 1275.0, 1305.0, 1335.0, 1365.0, 1395.0, 1425.0],
    [1455.0, 1485.0, 1515.0, 1545.0, 1575.0, 1605.0, 1635.0, 1665.0, 1695.0, 1725.0, 1755.0, 1785.0],
    [1815.0, 1845.0, 1875.0, 1905.0, 1935.0, 1965.0, 1995.0, 2025.0, 2055.0, 2085.0, 2115.0, 2145.0],
    [2175.0, 2205.0, 2235.0, 2265.0, 2295.0, 2325.0, 2355.0, 2385.0, 2415.0, 2445.0, 2475.0, 2505.0],
    [2535.0, 2565.0, 2595.0, 2625.0, 2655.0, 2685.0, 2715.0, 2745.0, 2775.0, 2805.0, 2835.0, 2865.0],
    [2895.0, 2925.0, 2955.0, 2985.0, 3015.0, 3045.0, 3075.0, 3105.0, 3135.0, 3165.0, 3195.0, 3225.0],
    [3255.0, 3285.0, 3315.0, 3345.0, 3375.0, 3405.0, 3435.0, 3465.0, 3495.0, 3525.0, 3555.0, 3585.0]
  ]

  /** The time points of 1970 to 1974, one year per row. */
  const Time1970To1974: seq<seq<real>> := [
    [3615.0, 3645.0, 3675.0, 3705.0, 3735.0, 3765.0, 3795.0, 3825.0, 3855.0, 3885.0, 3915.0, 3945.0],
    [3975.0, 4005.0, 4035.0, 4065.0, 4095.0, 4125.0, 4155.0, 4185.0, 4215.0, 4245.0, 4275.0, 4305.0],
    [4335.0, 4365.0, 4395.0, 4425.0, 4455.0, 4485.0, 4515.0, 4545.0, 4575.0, 4605.0, 4635.0, 4665.0],
    [4695.0, 4725.0, 4755.0, 4785.0, 4815.0, 4845.0, 4875.0, 4905.0, 4935.0, 4965.0, 4995.0, 5025.0],
    [5055.0, 5085.0, 5115.0, 5145.0, 5175.0, 5205.0, 5235.0, 5265.0, 5295.0, 5325.0, 5355.0, 5385.0]
  ]

  /** The forecast_reference_time points of 1960 to 1969, one year per row. */
  const Frt1960s: seq<seq<real>> := [
    [15.0, 45.0, 75.0, 105.0, 135.0, 165.0, 195.0, 225.0, 255.0, 285.0, 315.0, 345.0],
    [375.0, 405.0, 435.0, 465.0, 495.0, 525.0, 555.0, 585.0, 615.0, 645.0, 675.0, 705.0],
    [735.0, 765.0, 795.0, 825.0, 855.0, 885.0, 915.0, 945.0, 975.0, 1005.0, 1035.0, 1065.0],
    [1095.0, 1125.0, 1155.0, 1185.0, 1215.0, 1245.0, 1275.0, 1305.0, 1335.0, 1365.0, 1395.0, 1425.0],
    [1455.0, 1485.0, 1515.0, 1545.0, 1575.0, 1605.0, 1635.0, 1665.0, 1695.0, 1725.0, 1755.0, 1785.0],
    [1815.0, 1845.0, 1875.0, 1905.0, 1935.0, 1965.0, 1995.0, 2025.0, 2055.0, 2085.0, 2115.0, 2145.0],
    [2175.0, 2205.0, 2235.0, 2265.0, 2295.0, 2325.0, 2355.0, 2385.0, 2415.0, 2445.0, 2475.0, 2505.0],
    [2535.0, 2565.0, 2595.0, 2625.0, 2655.0, 2685.0, 2715.0, 2745.0, 2775.0, 2805.0, 2835.0, 2865.0],
    [2895.0, 2925.0, 2955.0, 2985.0, 3015.0, 3045.0, 3075.0, 3105.0, 3135.0, 3165.0, 3195.0, 3225.0],
    [3255.0, 3285.0, 3315.0, 3345.0, 3375.0, 3405.0, 3435.0, 3465.0, 3495.0, 3525.0, 3555.0, 3585.0]
  ]

  /** The forecast_reference_time points of 1970 to 1974, one year per row. */
  const Frt1970To1974: seq<seq<real>> := [
    [3615.0, 3645.0, 3675.0, 3705.0, 3735.0, 3765.0, 3795.0, 3825.0, 3855.0, 3885.0, 3915.0, 3945.0],
    [3975.0, 4005.0, 4035.0, 4065.0, 4095.0, 4125.0, 4155.0, 4185.0, 4215.0, 4245.0, 4275.0, 4305.0],
    [4335.0, 4365.0, 4395.0, 4425.0, 4455.0, 4485.0, 4515.0, 4545.0, 4575.0, 4605.0, 4635.0, 4665.0],
    [4695.0, 4725.0, 4755.0, 4785.0, 4815.0, 4845.0, 4875.0, 4905.0, 4935.0, 4965.0, 4995.0, 5025.0],
    [5055.0, 5085.0, 5115.0, 5145.0, 5175.0, 5205.0, 5235.0, 5265.0, 5295.0, 5325.0, 5355.0, 5385.0]
  ]

  /** The time table as the script writes it, January 1960 to January 1975. */
  const TimeRows: seq<seq<real>> := Blocks([Time1960s, Time1970To1974])

  /** The flat time table: the full years, then January 1975. */
  const TimePoints: seq<real> := Concat(TimeRows) + [5415.0]

  /** The forecast_reference_time table, written out a second time. */
  const FrtRows: seq<seq<real>> := Blocks([Frt1960s, Frt1970To1974])

  const FrtPoints: seq<real> := Concat(FrtRows) + [5415.0]

  /** Units of both tables: days since 1960-01-01 00:00:00, 360_day calendar. */
  const TimeUnits: Units := DaysSince(1960, Day360)

  // Each block of rows holds the mid-month points of its years.

  lemma Time1960sAreYears()
    ensures |Time1960s| == 10 && Day360RowsFrom(Time1960s, 0)
  {
    Day360Decade(Time1960s, 0);
  }

  lemma Time1970To1974AreYears()
    ensures |Time1970To1974| == 5 && Day360RowsFrom(Time1970To1974, 10)
  {
  }

  lemma Frt1960sAreYears()
    ensures |Frt1960s| == 10 && Day360RowsFrom(Frt1960s, 0)
  {
    Day360Decade(Frt1960s, 0);
  }

  lemma Frt1970To1974AreYears()
    ensures |Frt1970To1974| == 5 && Day360RowsFrom(Frt1970To1974, 10)
  {
  }

  /** The rows of the time table are the years 1960 to 1974. */
  lemma TimeRowsAreYears()
    ensures |TimeRows| == 15 && Day360RowsFrom(TimeRows, 0)
  {
    Time1960sAreYears();
    Time1970To1974AreYears();
    var blocks := [Time1960s, Time1970To1974];
    forall i | 0 <= i < |blocks|
      ensures Day360RowsFrom(blocks[i], 10 * i) && (i < |blocks| - 1 ==> |blocks[i]| == 10)
    {
      if i == 0 {} else {}
    }
    Day360Blocks(blocks, 0);
  }

  /** Each time point is the 360_day mid-month since 1960-01-01, one per month of the table. */
  lemma TimeIsMidMonths()
    ensures |TimePoints| == 181
    ensures TimePoints == MidMonths(Day360, 1960, 181)
  {
    TimeRowsAreYears();
    Day360Table(TimeRows, 1960);
    assert FullRows(TimeRows);
    ConcatLength(TimeRows);
    MidMonth360(1960, |Concat(TimeRows)|);
    ExtendAxis(Concat(TimeRows), [5415.0], Day360, 1960);
    MonthlyAxisIsGenerated(TimePoints, Day360, 1960);
  }

  /** The rows of the forecast_reference_time table are the same years. */
  lemma FrtRowsAreYears()
    ensures |FrtRows| == 15 && Day360RowsFrom(FrtRows, 0)
  {
    Frt1960sAreYears();
    Frt1970To1974AreYears();
    var blocks := [Frt1960s, Frt1970To1974];
    forall i | 0 <= i < |blocks|
      ensures Day360RowsFrom(blocks[i], 10 * i) && (i < |blocks| - 1 ==> |blocks[i]| == 10)
    {
      if i == 0 {} else {}
    }
    Day360Blocks(blocks, 0);
  }

  /** The forecast_reference_time table holds the same mid-months. */
  lemma FrtIsMidMonths()
    ensures |FrtPoints| == 181
    ensures FrtPoints == MidMonths(Day360, 1960, 181)
  {
    FrtRowsAreYears();
    Day360Table(FrtRows, 1960);
    assert FullRows(FrtRows);
    ConcatLength(FrtRows);
    MidMonth360(1960, |Concat(FrtRows)|);
    ExtendAxis(Concat(FrtRows), [5415.0], Day360, 1960);
    MonthlyAxisIsGenerated(FrtPoints, Day360, 1960);
  }

  /** The forecast_reference_time table equals the time table, entry for entry. */
  lemma FrtEqualsTime()
    ensures FrtPoints == TimePoints
  {
    TimeIsMidMonths();
    FrtIsMidMonths();
  }

  /** Number of months in the tables. */
  const MonthCount: nat := 181

  /** The 181 360_day mid-months since 1960-01-01: the points both tables hold. */
  function Months(): (s: seq<real>)
    ensures |s| == 181 && IsMonthlyAxis(s, Day360, 1960)
    ensures forall i, j :: 0 <= i < j < |s| ==> s[i] < s[j]
    ensures StrictlyMonotonic(s)
  {
    MonthlyAxisIncreases(MidMonths(Day360, 1960, MonthCount), Day360, 1960);
    MidMonths(Day360, 1960, MonthCount)
  }

  /** The time table is the monthly axis. */
  lemma TimeIsMonths()
    ensures TimePoints == Months()
  {
    TimeIsMidMonths();
  }

  /**
   * Point k is 30k + 15, the middle of 360_day month k: the axis runs from 15 to
   * 5415, rising by exactly 30 days a month.
   */
  lemma MonthsFacts()
    ensures forall k :: 0 <= k < |Months()| ==> Months()[k] == (30 * k + 15) as real
    ensures Months()[0] == 15.0 && Months()[|Months()| - 1] == 5415.0
    ensures forall k :: 0 <= k < |Months()| - 1 ==> Months()[k + 1] - Months()[k] == 30.0
  {
    Day360AxisFacts(Months(), 1960);
  }

  /** guess_bounds gives month k of the forecast_reference_time the bounds (30k, 30k + 30), its month boundaries. */
  lemma FrtBounds()
    ensures forall k :: 0 <= k < |Months()| ==> GuessedBounds(Months())[k] == Bounds((30 * k) as real, (30 * k + 30) as real)
  {
    Day360GuessedBounds(Months(), 1960);
  }

  const SourceFile: string := "MACCity_aircraft_NO_1960-2020_n96l85.nc"

  /** The attributes the script assigns with `attributes[key] = value`, lines 88 to 100. */
  function Assigned(): map<Key, Value>
  {
    map[
      VerticalScaling := Text("all_levels"), UmStashSource := Text("m01s00i340"),
      TracerName := Text("NO_aircrft"), EmissionType := Text("1"), UpdateType := Text("1"),
      UpdateFreqInHours := Text("120"), UmVersion := Text("10.4"), Source := Text(SourceFile),
      DataVersion := Text("Beta release")
    ]
  }

  /** The loaded attributes the script deletes (none). */
  const Deleted: set<Key> := {}

  /** No assigned key is the history, a deleted key or a restricted one. */
  lemma AssignedKeys()
    ensures Disjoint(Assigned(), Deleted)
    ensures Assigned().Keys !! RestrictedKeys
  {
  }

  /** The attributes written on the emission variable rather than on the file. */
  const LocalKeys: seq<Key> := [VerticalScaling, MissingValue, UmStashSource, TracerName]

  /**
   * What the cube must offer for the coordinate statements to succeed:
   * a time dimension of 181 months leading the field,
   * x and y coordinates without bounds, a vertical coordinate, and no
   * forecast coordinates yet.
   */
  predicate CoordinatesReady(time: Coord, bounded: set<Dim>, shape: seq<nat>, level: Option<Coord>, frt: Option<Coord>, fp: Option<Coord>)
  {
    |time.points| == 181 &&
    X !in bounded && Y !in bounded &&
    |shape| > 0 && shape[0] == 181 && level.Some? && frt.None? && fp.None?
  }

  /**
   * What the cube must offer for the script to reach its end: the attribute
   * statements cannot fail, so only what the coordinate statements need.
   */
  predicate Ready(attributes: map<Key, Value>, time: Coord, bounded: set<Dim>, shape: seq<nat>, level: Option<Coord>, frt: Option<Coord>, fp: Option<Coord>)
  {
    CoordinatesReady(time, bounded, shape, level, frt, fp)
  }

  /** The attributes the script leaves on a cube loaded with `loaded`. */
  function Attributes(loaded: map<Key, Value>): map<Key, Value>
  {
    Assemble(loaded, Assigned(), None, Deleted)
  }

  /**
   * An emission over all model levels with emission and update types both '1'; as
   * nothing is deleted and no history is written, every loaded attribute the script
   * does not assign keeps its value, the history included.
   */
  lemma AttributeValues(loaded: map<Key, Value>)
    ensures var m := Attributes(loaded);
      VerticalScaling in m && m[VerticalScaling] == Text("all_levels") &&
      EmissionType in m && UpdateType in m && m[UpdateType] == m[EmissionType] == Text("1") &&
      (forall k :: k in loaded && k !in Assigned() && k != MissingValue ==> k in m && m[k] == loaded[k]) &&
      (History in loaded ==> History in m && m[History] == loaded[History])
  {
    AssignedKeys();
    AssembleValues(loaded, Assigned(), None, Deleted);
  }

  /** The dictionary after lines 88 to 100, one assignment after another. */
  function Labelled(loaded: map<Key, Value>): map<Key, Value>
  {
    loaded
      [VerticalScaling := Text("all_levels")][UmStashSource := Text("m01s00i340")]
      [TracerName := Text("NO_aircrft")][EmissionType := Text("1")][UpdateType := Text("1")]
      [UpdateFreqInHours := Text("120")][UmVersion := Text("10.4")][Source := Text(SourceFile)]
      [DataVersion := Text("Beta release")]
  }

  /** Made one by one, the assignments of lines 88 to 100 overwrite the loaded attributes with `Assigned`. */
  lemma LabelledMerges(loaded: map<Key, Value>)
    ensures Labelled(loaded) == loaded + Assigned()
  {
  }

  /** Lines 88 to 100 of the script: the assignments, none of which can fail. */
  method WriteAttributes(cube: Cube)
    modifies cube`attributes
    ensures cube.attributes == Edited(old(cube.attributes), Assigned(), None, Deleted)
  {
    cube.SetAttribute(VerticalScaling, Text("all_levels"));
    cube.SetAttribute(UmStashSource, Text("m01s00i340"));
    cube.SetAttribute(TracerName, Text("NO_aircrft"));
    cube.SetAttribute(EmissionType, Text("1"));
    cube.SetAttribute(UpdateType, Text("1"));
    cube.SetAttribute(UpdateFreqInHours, Text("120"));
    cube.SetAttribute(UmVersion, Text("10.4"));
    cube.SetAttribute(Source, Text(SourceFile));
    cube.SetAttribute(DataVersion, Text("Beta release"));
    LabelledMerges(old(cube.attributes));
  }

  /** Lines 104 to 123: the time coordinate named, given its units and the table of points. */
  method WriteTime(cube: Cube) returns (r: Outcome)
    modifies cube`time
    ensures r == if |old(cube.time.points)| == 181 then Pass else Fail(ValueError)
    ensures cube.time == old(cube.time).(name := "time", units := TimeUnits, points := if r.Pass? then Months() else old(cube.time.points))
  {
    TimeIsMonths();
    r := SetMonthlyTime(cube, TimeUnits, TimePoints);
  }

  /** Lines 149 to 174: forecast_reference_time from its own table, its bounds guessed, then forecast_period. */
  method WriteForecastAxes(cube: Cube) returns (r: Outcome)
    modifies cube`frt, cube`fp
    ensures r == if old(cube.frt).None? && old(cube.fp).None? && |cube.shape| > 0 && cube.shape[0] == 181 then Pass else Fail(ValueError)
    ensures r.Pass? ==> cube.frt == Some(ForecastReferenceTime(TimeUnits, Months()).(bounds := GuessedBounds(Months())))
    ensures r.Pass? ==> cube.fp == Some(ForecastPeriod())
  {
    FrtEqualsTime();
    TimeIsMonths();
    r := AddForecastAxes(cube, TimeUnits, FrtPoints);
  }

  /**
   * Lines 104 to 174: the time block, the x and y bounds, the 64-bit casts, of which
   * the vertical points and the latitude bounds casts can fail, and the forecast block.
   */
  method WriteCoordinates(cube: Cube) returns (r: Outcome)
    requires cube.Valid()
    modifies cube`time, cube`bounded, cube`frt, cube`fp
    ensures cube.Valid()
    ensures r.Pass? <==> CoordinatesReady(old(cube.time), old(cube.bounded), old(cube.shape), old(cube.level), old(cube.frt), old(cube.fp))
    ensures r.Pass? ==> cube.time == old(cube.time).(name := "time", units := TimeUnits, points := Months())
    ensures r.Pass? ==> cube.bounded == old(cube.bounded) + {X, Y}
    ensures r.Pass? ==> cube.frt == Some(ForecastReferenceTime(TimeUnits, Months()).(bounds := GuessedBounds(Months())))
    ensures r.Pass? ==> cube.fp == Some(ForecastPeriod())
  {
    r := WriteTime(cube);
    if r.Fail? { return; }
    r := GuessHorizontalBounds(cube);
    if r.Fail? { return; }
    r := cube.CastLevelPoints();
    if r.Fail? { return; }
    r := cube.CastLatitudeBounds();
    if r.Fail? { return; }
    r := WriteForecastAxes(cube);
  }

  /**
   * The script from the loaded cube to the cube it saves.
   */
  method Run(cube: Cube) returns (r: Outcome)
    requires cube.Valid()
    modifies cube
    ensures cube.Valid()
    ensures r.Pass? <==> Ready(old(cube.attributes), old(cube.time), old(cube.bounded), old(cube.shape), old(cube.level), old(cube.frt), old(cube.fp))
    ensures r.Pass? ==> cube.attributes == Attributes(old(cube.attributes))
    ensures r.Pass? ==> cube.time == old(cube.time).(name := "time", units := TimeUnits, points := Months())
    ensures cube.level == old(cube.level) && cube.data == old(cube.data) && cube.shape == old(cube.shape) && cube.dims == old(cube.dims)
    ensures r.Pass? ==> cube.bounded == old(cube.bounded) + {X, Y}
    ensures r.Pass? ==> cube.frt == Some(ForecastReferenceTime(TimeUnits, Months()).(bounds := GuessedBounds(Months())))
    ensures r.Pass? ==> cube.fp == Some(ForecastPeriod())
    ensures r.Pass? ==> cube.cellMethods == [MeanOverTime] && cube.fillValue == Some(FillValue)
    ensures r.Pass? ==> MissingValue in cube.attributes && cube.attributes[MissingValue] == Number(cube.fillValue.value)
  {
    WriteAttributes(cube);
    r := WriteCoordinates(cube);
    if r.Fail? { return; }
    FinishForSaving(cube);
  }
}
