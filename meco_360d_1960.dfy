/**
 * The lumped-aldehyde (MeCHO) periodic surface emissions for 1960 on the 360_day
 * calendar (emissions/python/periodic_1960/regrid_MeCHO_emissions_n96e_360d_1960.py):
 * twelve months repeated every year, whose regridded (time, latitude, longitude)
 * field becomes (time, 1, latitude, longitude).
 */
module RegridMeChoPeriodic {
  import opened Calendars
  import opened Tables
  import opened Arrays
  import opened Coords
  import opened Cubes
  import opened Steps

  /** The time points of 1960. */
  const Time1960: seq<seq<real>> := [
    [15.0, 45.0, 75.0, 105.0, 135.0, 165.0, 195.0, 225.0, 255.0, 285.0, 315.0, 345.0]
  ]

  /** The forecast_reference_time points of 1960. */
  const Frt1960: seq<seq<real>> := [
    [15.0, 45.0, 75.0, 105.0, 135.0, 165.0, 195.0, 225.0, 255.0, 285.0, 315.0, 345.0]
  ]

  /** The time table as the script writes it, January 1960 to December 1960. */
  const TimeRows: seq<seq<real>> := Blocks([Time1960])

  const TimePoints: seq<real> := Concat(TimeRows)

  /** The forecast_reference_time table, written out a second time. */
  const FrtRows: seq<seq<real>> := Blocks([Frt1960])

  const FrtPoints: seq<real> := Concat(FrtRows)

  /** Units of both tables: days since 1960-01-01 00:00:00, 360_day calendar. */
  const TimeUnits: Units := DaysSince(1960, Day360)

  // Each block of rows holds the mid-month points of its years.

  lemma Time1960AreYears()
    ensures |Time1960| == 1 && Day360RowsFrom(Time1960, 0)
  {
  }

  lemma Frt1960AreYears()
    ensures |Frt1960| == 1 && Day360RowsFrom(Frt1960, 0)
  {
  }

  /** The rows of the time table are the years 1960 to 1960. */
  lemma TimeRowsAreYears()
    ensures |TimeRows| == 1 && Day360RowsFrom(TimeRows, 0)
  {
    Time1960AreYears();
    Day360Blocks([Time1960], 0);
  }

  /** Each time point is the 360_day mid-month since 1960-01-01, one per month of the table. */
  lemma TimeIsMidMonths()
    ensures |TimePoints| == 12
    ensures TimePoints == MidMonths(Day360, 1960, 12)
  {
    TimeRowsAreYears();
    Day360Table(TimeRows, 1960);
    assert FullRows(TimeRows);
    ConcatLength(TimeRows);
    MonthlyAxisIsGenerated(TimePoints, Day360, 1960);
  }

  /** The rows of the forecast_reference_time table are the same years. */
  lemma FrtRowsAreYears()
    ensures |FrtRows| == 1 && Day360RowsFrom(FrtRows, 0)
  {
    Frt1960AreYears();
    Day360Blocks([Frt1960], 0);
  }

  /** The forecast_reference_time table holds the same mid-months. */
  lemma FrtIsMidMonths()
    ensures |FrtPoints| == 12
    ensures FrtPoints == MidMonths(Day360, 1960, 12)
  {
    FrtRowsAreYears();
    Day360Table(FrtRows, 1960);
    assert FullRows(FrtRows);
    ConcatLength(FrtRows);
    MonthlyAxisIsGenerated(FrtPoints, Day360, 1960);
  }

  /** The forecast_reference_time table equals the time table, entry for entry. */
  lemma FrtEqualsTime()
    ensures FrtPoints == TimePoints
  {
    TimeIsMidMonths();
    FrtIsMidMonths();
  }

  /** Number of months in the tables. */
  const MonthCount: nat := 12

  /** The 12 360_day mid-months since 1960-01-01: the points both tables hold. */
  function Months(): (s: seq<real>)
    ensures |s| == 12 && IsMonthlyAxis(s, Day360, 1960)
    ensures forall i, j :: 0 <= i < j < |s| ==> s[i] < s[j]
    ensures StrictlyMonotonic(s)
  {
    MonthlyAxisIncreases(MidMonths(Day360, 1960, MonthCount), Day360, 1960);
    MidMonths(Day360, 1960, MonthCount)
  }

  /** The time table is the monthly axis. */
  lemma TimeIsMonths()
    ensures TimePoints == Months()
  {
    TimeIsMidMonths();
  }

  /**
   * Point k is 30k + 15, the middle of 360_day month k: the axis runs from 15 to
   * 345, rising by exactly 30 days a month.
   */
  lemma MonthsFacts()
    ensures forall k :: 0 <= k < |Months()| ==> Months()[k] == (30 * k + 15) as real
    ensures Months()[0] == 15.0 && Months()[|Months()| - 1] == 345.0
    ensures forall k :: 0 <= k < |Months()| - 1 ==> Months()[k + 1] - Months()[k] == 30.0
  {
    Day360AxisFacts(Months(), 1960);
  }

  /** guess_bounds gives month k of the forecast_reference_time the bounds (30k, 30k + 30), its month boundaries. */
  lemma FrtBounds()
    ensures forall k :: 0 <= k < |Months()| ==> GuessedBounds(Months())[k] == Bounds((30 * k) as real, (30 * k + 30) as real)
  {
    Day360GuessedBounds(Months(), 1960);
  }

  const LumpedText: string := "acetaldehyde and other non-CH2O aldehydes"
  const SourceFile: string := "combined_sources_MeCHO_lumped_1960_360d.nc"
  const TitleText: string := "Monthly surface emissions of surface emissions of acetaldehyde lumped with other non-CH2O aldehydes for 1960"
  const ReferenceText: string := "Granier et al., Clim. Change, 2011; Lamarque et al., Atmos. Chem. Phys., 2010"

  /** The attributes the script assigns in lines 89 to 105, before its history entry; `created` is the creation date it writes. */
  function Before(created: string): map<Key, Value>
  {
    map[
      VerticalScaling := Text("surface"), UmStashSource := Text("m01s00i308"), TracerName := Text("MeCHO"),
      LumpedSpecies := Text(LumpedText), EmissionType := Text("2"), UpdateType := Text("2"),
      UpdateFreqInHours := Text("120"), UmVersion := Text("10.6"), Source := Text(SourceFile),
      Title := Text(TitleText), FileVersion := Text("v1"), FileCreationDate := Text(created),
      Grid := Text(N96eGrid)
    ]
  }

  /** The attributes it assigns after the history entry. */
  function After(): map<Key, Value>
  {
    map[
      Institution := Text(Cambridge), Reference := Text(ReferenceText)
    ]
  }

  /** Every attribute the script assigns with `attributes[key] = value`. */
  function Assigned(created: string): map<Key, Value>
  {
    map[
      VerticalScaling := Text("surface"), UmStashSource := Text("m01s00i308"), TracerName := Text("MeCHO"),
      LumpedSpecies := Text(LumpedText), EmissionType := Text("2"), UpdateType := Text("2"),
      UpdateFreqInHours := Text("120"), UmVersion := Text("10.6"), Source := Text(SourceFile),
      Title := Text(TitleText), FileVersion := Text("v1"), FileCreationDate := Text(created),
      Grid := Text(N96eGrid), Institution := Text(Cambridge), Reference := Text(ReferenceText)
    ]
  }

  /** The assignments are those before the history entry and those after it; neither touches the history or a deleted key. */
  lemma AssignedSplits(created: string)
    ensures Before(created) + After() == Assigned(created)
    ensures History !in Before(created) && History !in After()
    ensures Before(created).Keys !! Deleted && After().Keys !! Deleted
  {
  }

  /** The loaded attributes the script deletes; each must be present. */
  const Deleted: set<Key> := {Nco, LoadedCreationDate, Description}

  /** No assigned key is the history, a deleted key or a restricted one. */
  lemma AssignedKeys(created: string)
    ensures Disjoint(Assigned(created), Deleted)
    ensures Assigned(created).Keys !! RestrictedKeys
  {
  }

  /** The attributes written on the emission variable rather than on the file. */
  const LocalKeys: seq<Key> := [VerticalScaling, MissingValue, UmStashSource, TracerName, LumpedSpecies]

  /**
   * What the cube must offer for the coordinate statements to succeed:
   * a time dimension of 12 months leading a (time, latitude,
   * longitude) field, latitude bounds (copied from the grid by the regridding), and
   * no vertical or forecast coordinates yet.
   */
  predicate CoordinatesReady(time: Coord, bounded: set<Dim>, shape: seq<nat>, level: Option<Coord>, frt: Option<Coord>, fp: Option<Coord>)
  {
    |time.points| == 12 &&
    Y in bounded &&
    |shape| == 3 && shape[0] == 12 && level.None? && frt.None? && fp.None?
  }

  /**
   * What the cube must offer for the script to reach its end: a string history,
   * every attribute it deletes, and what the coordinate statements need.
   */
  predicate Ready(attributes: map<Key, Value>, time: Coord, bounded: set<Dim>, shape: seq<nat>, level: Option<Coord>, frt: Option<Coord>, fp: Option<Coord>)
  {
    History in attributes && attributes[History].Text? && Deleted <= attributes.Keys &&
    CoordinatesReady(time, bounded, shape, level, frt, fp)
  }

  /** The attributes the script leaves on a cube loaded with `loaded`. */
  function Attributes(loaded: map<Key, Value>, created: string, stamp: string, script: string): map<Key, Value>
    requires History in loaded && loaded[History].Text?
  {
    Assemble(loaded, Assigned(created), Some((stamp, script)), Deleted)
  }

  /**
   * A periodic surface emission (emission and update types both '2'), and the
   * lumped_species description is written on the emission variable.
   * The new history starts with the time stamp and ends with the old history, and the
   * keys are the loaded ones and the assigned ones, less the deleted ones, plus missing_value.
   */
  lemma AttributeValues(loaded: map<Key, Value>, created: string, stamp: string, script: string)
    requires History in loaded && loaded[History].Text?
    ensures var m := Attributes(loaded, created, stamp, script);
      VerticalScaling in m && m[VerticalScaling] == Text("surface") &&
      EmissionType in m && UpdateType in m && m[UpdateType] == m[EmissionType] == Text("2") &&
      LumpedSpecies in LocalAttributes(m, LocalKeys) && LocalAttributes(m, LocalKeys)[LumpedSpecies] == Text(LumpedText) &&
      History in m && m[History].Text? && m[History].s[..|stamp|] == stamp && EndsWith(m[History].s, loaded[History].s) &&
      m.Keys == loaded.Keys + Assigned(created).Keys - Deleted + {MissingValue}
  {
    AssignedKeys(created);
    AssembleValues(loaded, Assigned(created), Some((stamp, script)), Deleted);
    AssembleKeys(loaded, Assigned(created), Some((stamp, script)), Deleted);
  }

  /** The dictionary after lines 89 to 105, one assignment after another. */
  function Labelled(loaded: map<Key, Value>, created: string): map<Key, Value>
  {
    loaded
      [VerticalScaling := Text("surface")][UmStashSource := Text("m01s00i308")][TracerName := Text("MeCHO")]
      [LumpedSpecies := Text(LumpedText)][EmissionType := Text("2")][UpdateType := Text("2")]
      [UpdateFreqInHours := Text("120")][UmVersion := Text("10.6")][Source := Text(SourceFile)]
      [Title := Text(TitleText)][FileVersion := Text("v1")][FileCreationDate := Text(created)]
      [Grid := Text(N96eGrid)]
  }

  /** Made one by one, the assignments of lines 89 to 105 overwrite the loaded attributes with `Before`. */
  lemma LabelledMerges(loaded: map<Key, Value>, created: string)
    ensures Labelled(loaded, created) == loaded + Before(created)
  {
  }

  /** Lines 89 to 105, the assignments before the history entry. */
  method Label(cube: Cube, created: string)
    modifies cube`attributes
    ensures cube.attributes == Labelled(old(cube.attributes), created)
  {
    cube.SetAttribute(VerticalScaling, Text("surface"));
    cube.SetAttribute(UmStashSource, Text("m01s00i308"));
    cube.SetAttribute(TracerName, Text("MeCHO"));
    cube.SetAttribute(LumpedSpecies, Text(LumpedText));
    cube.SetAttribute(EmissionType, Text("2"));
    cube.SetAttribute(UpdateType, Text("2"));
    cube.SetAttribute(UpdateFreqInHours, Text("120"));
    cube.SetAttribute(UmVersion, Text("10.6"));
    cube.SetAttribute(Source, Text(SourceFile));
    cube.SetAttribute(Title, Text(TitleText));
    cube.SetAttribute(FileVersion, Text("v1"));
    cube.SetAttribute(FileCreationDate, Text(created));
    cube.SetAttribute(Grid, Text(N96eGrid));
  }

  /** Line 106 and the assignments after it: the history dated, then overwritten by `After`. */
  method Credit(cube: Cube, stamp: string, script: string) returns (r: Outcome)
    modifies cube`attributes
    ensures r == if History !in old(cube.attributes) then Fail(KeyError(History))
                 else if !old(cube.attributes)[History].Text? then Fail(TypeError)
                 else Pass
    ensures r.Pass? ==> cube.attributes == old(cube.attributes)[History := Text(PrependedHistory(stamp, script, old(cube.attributes)[History].s))] + After()
  {
    r := cube.PrependHistory(stamp, script);
    if r.Fail? { return; }
    cube.SetAttribute(Institution, Text(Cambridge));
    cube.SetAttribute(Reference, Text(ReferenceText));
  }

  /** Lines 110 to 112: the `del` statements, each a KeyError when its key is missing. */
  method Prune(cube: Cube) returns (r: Outcome)
    modifies cube`attributes
    ensures r == if Nco !in old(cube.attributes) then Fail(KeyError(Nco))
                 else if LoadedCreationDate !in old(cube.attributes) then Fail(KeyError(LoadedCreationDate))
                 else if Description !in old(cube.attributes) then Fail(KeyError(Description))
                 else Pass
    ensures r.Pass? ==> cube.attributes == old(cube.attributes) - Deleted
  {
    r := cube.DeleteAttribute(Nco);
    if r.Fail? { return; }
    r := cube.DeleteAttribute(LoadedCreationDate);
    if r.Fail? { return; }
    r := cube.DeleteAttribute(Description);
  }

  /**
   * Lines 89 to 112 of the script: the assignments, the history entry and the
   * deletions, which fail on a missing or non-string history or a missing deleted key.
   */
  method WriteAttributes(cube: Cube, created: string, stamp: string, script: string) returns (r: Outcome)
    modifies cube`attributes
    ensures r == if History !in old(cube.attributes) then Fail(KeyError(History))
                 else if !old(cube.attributes)[History].Text? then Fail(TypeError)
                 else if Nco !in old(cube.attributes) then Fail(KeyError(Nco))
                 else if LoadedCreationDate !in old(cube.attributes) then Fail(KeyError(LoadedCreationDate))
                 else if Description !in old(cube.attributes) then Fail(KeyError(Description))
                 else Pass
    ensures r.Pass? ==> cube.attributes == Edited(old(cube.attributes), Assigned(created), Some((stamp, script)), Deleted)
  {
    AssignedSplits(created);
    Label(cube, created);
    LabelledMerges(old(cube.attributes), created);
    r := Credit(cube, stamp, script);
    if r.Fail? { return; }
    r := Prune(cube);
    if r.Pass? {
      EditedAroundHistory(old(cube.attributes), Before(created), After(), stamp, script, Deleted);
    }
  }

  /** Lines 116 to 119: the time coordinate named, given its units and the table of points. */
  method WriteTime(cube: Cube) returns (r: Outcome)
    modifies cube`time
    ensures r == if |old(cube.time.points)| == 12 then Pass else Fail(ValueError)
    ensures cube.time == old(cube.time).(name := "time", units := TimeUnits, points := if r.Pass? then Months() else old(cube.time.points))
  {
    TimeIsMonths();
    r := SetMonthlyTime(cube, TimeUnits, TimePoints);
  }

  /** Lines 140 to 149: forecast_reference_time from its own table, its bounds guessed, then forecast_period. */
  method WriteForecastAxes(cube: Cube) returns (r: Outcome)
    modifies cube`frt, cube`fp
    ensures r == if old(cube.frt).None? && old(cube.fp).None? && |cube.shape| > 0 && cube.shape[0] == 12 then Pass else Fail(ValueError)
    ensures r.Pass? ==> cube.frt == Some(ForecastReferenceTime(TimeUnits, Months()).(bounds := GuessedBounds(Months())))
    ensures r.Pass? ==> cube.fp == Some(ForecastPeriod())
  {
    FrtEqualsTime();
    TimeIsMonths();
    r := AddForecastAxes(cube, TimeUnits, FrtPoints);
  }

  /**
   * Lines 116 to 149: the time block, the z block, the 64-bit casts, of which
   * only the latitude bounds cast can fail, and the forecast block.
   */
  method WriteCoordinates(cube: Cube) returns (r: Outcome)
    requires cube.Valid()
    modifies cube`time, cube`level, cube`data, cube`shape, cube`dims, cube`frt, cube`fp
    ensures cube.Valid()
    ensures r.Pass? <==> CoordinatesReady(old(cube.time), old(cube.bounded), old(cube.shape), old(cube.level), old(cube.frt), old(cube.fp))
    ensures r.Pass? ==> cube.time == old(cube.time).(name := "time", units := TimeUnits, points := Months())
    ensures r.Pass? ==> cube.level == Some(SurfaceLevel()) && old(cube.data).Axis? && cube.data == InjectLevel(old(cube.data))
    ensures r.Pass? ==> cube.shape == [old(cube.shape)[0], 1, old(cube.shape)[1], old(cube.shape)[2]]
    ensures r.Pass? ==> cube.dims == [old(cube.dims)[0], Z, old(cube.dims)[1], old(cube.dims)[2]]
    ensures r.Pass? ==> forall t: nat, y: nat, x: nat :: IsIndex(old(cube.data), [t, y, x]) ==>
      IsIndex(cube.data, [t, 0, y, x]) && Get(cube.data, [t, 0, y, x]) == Get(old(cube.data), [t, y, x])
    ensures r.Pass? ==> cube.frt == Some(ForecastReferenceTime(TimeUnits, Months()).(bounds := GuessedBounds(Months())))
    ensures r.Pass? ==> cube.fp == Some(ForecastPeriod())
  {
    r := WriteTime(cube);
    if r.Fail? { return; }
    r := InjectSurfaceLevel(cube);
    if r.Fail? { return; }
    r := cube.CastLatitudeBounds();
    if r.Fail? { return; }
    r := WriteForecastAxes(cube);
  }

  /**
   * The script from the regridded cube to the cube it saves: `created` is the creation date, `stamp` the time stamp of the history entry and `script` the script's path.
   */
  method Run(cube: Cube, created: string, stamp: string, script: string) returns (r: Outcome)
    requires cube.Valid()
    modifies cube
    ensures cube.Valid()
    ensures r.Pass? <==> Ready(old(cube.attributes), old(cube.time), old(cube.bounded), old(cube.shape), old(cube.level), old(cube.frt), old(cube.fp))
    ensures History !in old(cube.attributes) ==> r == Fail(KeyError(History))
    ensures r.Pass? ==> cube.attributes == Attributes(old(cube.attributes), created, stamp, script)
    ensures r.Pass? ==> cube.time == old(cube.time).(name := "time", units := TimeUnits, points := Months())
    ensures r.Pass? ==> cube.level == Some(SurfaceLevel()) && old(cube.data).Axis? && cube.data == InjectLevel(old(cube.data))
    ensures r.Pass? ==> cube.shape == [old(cube.shape)[0], 1, old(cube.shape)[1], old(cube.shape)[2]]
    ensures cube.bounded == old(cube.bounded)
    ensures r.Pass? ==> cube.dims == [old(cube.dims)[0], Z, old(cube.dims)[1], old(cube.dims)[2]]
    ensures r.Pass? ==> forall t: nat, y: nat, x: nat :: IsIndex(old(cube.data), [t, y, x]) ==>
      IsIndex(cube.data, [t, 0, y, x]) && Get(cube.data, [t, 0, y, x]) == Get(old(cube.data), [t, y, x])
    ensures r.Pass? ==> cube.frt == Some(ForecastReferenceTime(TimeUnits, Months()).(bounds := GuessedBounds(Months())))
    ensures r.Pass? ==> cube.fp == Some(ForecastPeriod())
    ensures r.Pass? ==> cube.cellMethods == [MeanOverTime] && cube.fillValue == Some(FillValue)
    ensures r.Pass? ==> MissingValue in cube.attributes && cube.attributes[MissingValue] == Number(cube.fillValue.value)
  {
    r := WriteAttributes(cube, created, stamp, script);
    if r.Fail? { return; }
    r := WriteCoordinates(cube);
    if r.Fail? { return; }
    FinishForSaving(cube);
  }
}
