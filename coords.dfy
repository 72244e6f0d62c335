/**
 * Coordinates of the emission cubes: units, points and bounds, the two constant
 * coordinates every script attaches (the model level of the surface scripts and the
 * forecast period) and the cell method of a monthly mean (section 7.3 of the CF
 * Metadata Conventions).
 */
module Coords {
  import opened Calendars

  /** Units of a coordinate: "days since <epoch>-01-01 00:00:00" in a calendar, "hours" or "1". */
  datatype Units = DaysSince(epoch: int, calendar: Calendar) | Hours | One | OtherUnits(text: string)

  /** The cell of one coordinate point. */
  datatype Bounds = Bounds(lower: real, upper: real)

  /** A coordinate: its standard name, units, points, bounds (empty when it has none) and attributes. */
  datatype Coord = Coord(name: string, units: Units, points: seq<real>, bounds: seq<Bounds>, attributes: map<string, string>)

  /** A cell method, such as "mean" over "time". */
  datatype CellMethod = CellMethod(operation: string, coords: seq<string>)

  /** The fill value of the written data and of its `missing_value` attribute, 1e+20. */
  const FillValue: real := 100000000000000000000.0

  /** Every script records its fields as means over time. */
  const MeanOverTime: CellMethod := CellMethod("mean", ["time"])

  /** Hours in a day, for comparing the forecast period with month lengths. */
  const HoursPerDay: real := 24.0

  /**
   * The scalar forecast_period coordinate, -360 hours with bounds [-720, 0]: the period
   * ends at the reference time, is one 360_day month (30 days) wide, and its point is
   * the middle of that month.
   */
  function ForecastPeriod(): (c: Coord)
    ensures c.name == "forecast_period" && c.units == Hours
    ensures |c.points| == 1 && |c.bounds| == 1
    ensures c.bounds[0].upper == 0.0
    ensures c.bounds[0].upper - c.bounds[0].lower == HoursPerDay * MonthLength(Day360, 1960, 1) as real
    ensures c.points[0] == (c.bounds[0].lower + c.bounds[0].upper) / 2.0
  {
    Coord("forecast_period", Hours, [-360.0], [Bounds(-720.0, 0.0)], map[])
  }

  /**
   * The same forecast period is written into the Gregorian files: its width equals the
   * month's length in hours only for the 30-day months, never for February or a 31-day month.
   */
  lemma ForecastPeriodInGregorianMonth(year: int, month: int)
    requires 1 <= month <= 12
    ensures var c := ForecastPeriod();
      c.bounds[0].upper - c.bounds[0].lower == HoursPerDay * MonthLength(Gregorian, year, month) as real
      <==> month == 4 || month == 6 || month == 9 || month == 11
  {
  }

  /** The forecast_reference_time coordinate along the time dimension, with no bounds yet. */
  function ForecastReferenceTime(units: Units, points: seq<real>): (c: Coord)
    ensures c.name == "forecast_reference_time" && c.units == units && c.points == points && c.bounds == []
  {
    Coord("forecast_reference_time", units, points, [], map[])
  }

  /**
   * The bounds `guess_bounds` gives a coordinate of at least two points: each cell
   * reaches halfway to the neighbouring points, and an end cell reaches as far beyond
   * its point as the neighbouring cell's half-gap on the other side.
   */
  function GuessedBounds(p: seq<real>): (b: seq<Bounds>)
    requires |p| >= 2
    ensures |b| == |p|
  {
    seq(|p|, i requires 0 <= i < |p| =>
      Bounds(if i == 0 then p[0] - (p[1] - p[0]) / 2.0 else (p[i - 1] + p[i]) / 2.0,
             if i == |p| - 1 then p[i] + (p[i] - p[i - 1]) / 2.0 else (p[i] + p[i + 1]) / 2.0))
  }

  /** A cell of guessed bounds holds its point when the points increase around it. */
  lemma GuessedCellHoldsPoint(p: seq<real>, i: nat)
    requires |p| >= 2 && i < |p|
    requires p[0] < p[1] && p[|p| - 2] < p[|p| - 1]
    requires 0 < i ==> p[i - 1] < p[i]
    requires i < |p| - 1 ==> p[i] < p[i + 1]
    ensures GuessedBounds(p)[i].lower < p[i] < GuessedBounds(p)[i].upper
  {
  }

  /**
   * Guessed bounds tile the axis: each cell ends where the next begins, and on
   * strictly increasing points every cell holds its own point strictly inside.
   */
  lemma GuessedBoundsTile(p: seq<real>)
    requires |p| >= 2
    requires forall i, j :: 0 <= i < j < |p| ==> p[i] < p[j]
    ensures var b := GuessedBounds(p);
      (forall i :: 0 <= i < |p| - 1 ==> b[i].upper == b[i + 1].lower) &&
      (forall i :: 0 <= i < |p| ==> b[i].lower < p[i] < b[i].upper)
  {
    var n := |p|;
    assert p[0] < p[1] && p[n - 2] < p[n - 1];
    forall i | 0 <= i < n - 1
      ensures GuessedBounds(p)[i].upper == GuessedBounds(p)[i + 1].lower
    {
    }
    forall i | 0 <= i < n
      ensures GuessedBounds(p)[i].lower < p[i] < GuessedBounds(p)[i].upper
    {
      assert 0 < i ==> p[i - 1] < p[i];
      assert i < n - 1 ==> p[i] < p[i + 1];
      GuessedCellHoldsPoint(p, i);
    }
  }

  /** The single model level 0 of a surface field, counted upwards. */
  function SurfaceLevel(): (c: Coord)
    ensures c.name == "model_level_number" && c.units == One
    ensures c.points == [0.0] && c.bounds == []
    ensures "positive" in c.attributes && c.attributes["positive"] == "up"
  {
    Coord("model_level_number", One, [0.0], [], map["positive" := "up"])
  }

  /** Points that strictly increase or strictly decrease, as a dimension coordinate needs. */
  predicate StrictlyMonotonic(p: seq<real>)
  {
    (forall i, j :: 0 <= i < j < |p| ==> p[i] < p[j]) ||
    (forall i, j :: 0 <= i < j < |p| ==> p[i] > p[j])
  }
}
