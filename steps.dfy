/**
 * The blocks of statements the six scripts share, each a short sequence of cube
 * operations: naming and renumbering the time axis, injecting the surface level,
 * attaching the forecast coordinates and preparing the cube for the netCDF saver.
 */
module Steps {
  import opened Arrays
  import opened Coords
  import opened Cubes

  /**
   * The time block: var_name and standard_name 'time', the new units, then the
   * hard-coded points, which must keep the dimension's length and be strictly monotonic.
   */
  method SetMonthlyTime(cube: Cube, units: Units, points: seq<real>) returns (r: Outcome)
    modifies cube`time
    ensures r == if |points| == |old(cube.time.points)| && StrictlyMonotonic(points) then Pass else Fail(ValueError)
    ensures cube.time == old(cube.time).(name := "time", units := units, points := if r.Pass? then points else old(cube.time.points))
  {
    cube.NameTime();
    cube.SetTimeUnits(units);
    r := cube.SetTimePoints(points);
  }

  /**
   * `coord(axis='x').guess_bounds()` then `coord(axis='y').guess_bounds()` on a loaded
   * cube: a ValueError when either coordinate already carries bounds.
   */
  method GuessHorizontalBounds(cube: Cube) returns (r: Outcome)
    modifies cube`bounded
    ensures r == if X in old(cube.bounded) || Y in old(cube.bounded) then Fail(ValueError) else Pass
    ensures r.Pass? ==> cube.bounded == old(cube.bounded) + {X, Y}
  {
    r := cube.GuessBounds(X);
    if r.Fail? { return; }
    r := cube.GuessBounds(Y);
  }

  /**
   * The z block of the surface and high-level scripts: a scalar model_level_number 0,
   * promoted to a new leading dimension by new_axis, then moved to second place by
   * transpose([1, 0, 2, 3]).  It needs a (time, latitude, longitude) cube without
   * a vertical coordinate; the transpose of any other rank is a ValueError.
   */
  method InjectSurfaceLevel(cube: Cube) returns (r: Outcome)
    requires cube.Valid()
    modifies cube`level, cube`data, cube`shape, cube`dims
    ensures cube.Valid()
    ensures r == if old(cube.level).None? && |old(cube.shape)| == 3 then Pass else Fail(ValueError)
    ensures r.Pass? ==> cube.level == Some(SurfaceLevel()) && old(cube.data).Axis? && cube.data == InjectLevel(old(cube.data))
    ensures r.Pass? ==> cube.shape == [old(cube.shape)[0], 1, old(cube.shape)[1], old(cube.shape)[2]]
    ensures r.Pass? ==> cube.dims == [old(cube.dims)[0], Z, old(cube.dims)[1], old(cube.dims)[2]]
    ensures r.Pass? ==> forall t: nat, y: nat, x: nat :: IsIndex(old(cube.data), [t, y, x]) ==>
      IsIndex(cube.data, [t, 0, y, x]) && Get(cube.data, [t, 0, y, x]) == Get(old(cube.data), [t, y, x])
  {
    r := cube.AddScalarLevel(SurfaceLevel());
    if r.Fail? { return; }
    r := cube.PromoteLevel();
    if r.Fail? { return; }
    r := cube.TransposeLeading();
    if r.Fail? { return; }
    var s := old(cube.shape);
    assert s == [s[0], s[1], s[2]];
    assert Extent(old(cube.data)) == s[0];
    InjectLevelValues(old(cube.data), s[0], s[1], s[2]);
  }

  /**
   * The forecast block: forecast_reference_time along the time dimension, with the
   * units and points of the time table, then its guessed bounds, then the scalar
   * forecast_period.
   */
  method AddForecastAxes(cube: Cube, units: Units, points: seq<real>) returns (r: Outcome)
    modifies cube`frt, cube`fp
    ensures r == if old(cube.frt).None? && old(cube.fp).None? && |cube.shape| > 0 && |points| == cube.shape[0] && |points| >= 2
                    && StrictlyMonotonic(points)
                 then Pass else Fail(ValueError)
    ensures r.Pass? ==> |points| >= 2 && StrictlyMonotonic(points) && cube.frt == Some(ForecastReferenceTime(units, points).(bounds := GuessedBounds(points)))
    ensures r.Pass? ==> cube.fp == Some(ForecastPeriod())
  {
    r := cube.AddForecastReferenceTime(ForecastReferenceTime(units, points));
    if r.Fail? { return; }
    r := cube.GuessForecastReferenceTimeBounds();
    if r.Fail? { return; }
    r := cube.AddForecastPeriod(ForecastPeriod());
  }

  /**
   * The closing block: cell_methods 'mean: time', the 1e+20 fill value on the data and
   * the same number forced into the missing_value attribute.
   */
  method FinishForSaving(cube: Cube)
    modifies cube`cellMethods, cube`fillValue, cube`attributes
    ensures cube.cellMethods == [MeanOverTime] && cube.fillValue == Some(FillValue)
    ensures cube.attributes == old(cube.attributes)[MissingValue := Number(FillValue)]
    ensures MissingValue in cube.attributes && cube.attributes[MissingValue] == Number(cube.fillValue.value)
  {
    cube.SetCellMethods([MeanOverTime]);
    cube.SetFillValue(FillValue);
    cube.ForceAttribute(MissingValue, Number(FillValue));
  }
}
