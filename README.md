# Emission regridding scripts for UKCA, modelled in Dafny

Six Python scripts of the acsis emissions repository take a gridded emission field and prepare it for the UKCA chemistry scheme of the Unified Model. Three of them (black carbon, n-butane and MeCHO) regrid the field to the N96e grid (1.875 x 1.25 degrees). The three aircraft NO scripts load a field that is already on the N96L85 model grid. Each script then edits the Iris cube in place:

- it writes the UKCA attributes: vertical scaling, tracer name, emission and update types, update frequency, UM version and source in all six; the stash code in all but the n-butane script; title, file version, creation date, grid, institution and reference in the four that also write a history entry; data_version only in the two aircraft NO time slices; lumped_species only for MeCHO; and the level range only for black carbon;
- in four of the six, it puts a time-stamped entry in front of the history and deletes attributes carried over from the input file;
- it renames the time coordinate and overwrites its units and its points with a hard-coded table of mid-month days, on the `360_day` or the `gregorian` calendar;
- the aircraft NO scripts guess bounds for the x and y coordinates of the loaded cube;
- for surface and high-level emissions, it gives the (time, latitude, longitude) field a single model level 0 and moves it to second place;
- it attaches a forecast_reference_time coordinate, which is a second hard-coded copy of the time table, guesses its bounds, and adds a scalar forecast_period of -360 hours with bounds [-720, 0];
- it sets the cell method "mean: time" and the fill value 1e+20, and forces the same number into the `missing_value` attribute before saving.

The model keeps the scripts' own form:

- `calendars.dfy` (module `Calendars`) defines month lengths and mid-month points for both calendars. It proves a closed form for Gregorian dates: whole years with the 4/100/400 leap rule, then months of the year.
- `tables.dfy` (module `Tables`) covers the transcribed tables. A table is read as rows of one year each. The module proves that rows of the right shape make up a whole monthly axis, and it proves the spacing, endpoint and February facts about such axes.
- `coords.dfy` (module `Coords`) defines the coordinates: units, points and bounds, the surface level, forecast_period, forecast_reference_time and the cell method.
- `arrays.dfy` (module `Arrays`) models the data as an n-dimensional array. It defines `iris.util.new_axis` and `transpose([1, 0, 2, 3])` as functions on it.
- `cube.dfy` (module `Cubes`) has the attribute keys and the errors. Its class `Cube` holds the fields the scripts change in place. Each method of `Cube` is one statement of the scripts and says which field it changes and how it fails. The module also has the pure history and attribute-assembly functions, and the split between local and global attributes done by the netCDF saver.
- `steps.dfy` (module `Steps`) holds the statement blocks all scripts share: the time block, the surface-level injection, the forecast block and the closing block.
- Six modules, one per script, transcribe that script's tables and assignments verbatim. Each proves its tables equal to the generated calendar axis and runs the script's statements, in order, on a `Cube`: `WriteAttributes` runs the attribute block, `WriteCoordinates` the coordinate block, and `Run` both and then the closing block. `Ready` is the condition under which the whole script succeeds:
  - `bc_biomass_greg.dfy`: black carbon from biomass burning, Gregorian, 1960-2020, 732 months;
  - `nc4h10_360d.dfy`: n-butane, `360_day`, 1950-2020, 852 months;
  - `aircno_360d_1960_1974.dfy`: aircraft NO, `360_day`, 181 months from January 1960;
  - `meco_360d_1960.dfy`: MeCHO, periodic 1960, `360_day`;
  - `aircno_greg_1year.dfy`: aircraft NO, one Gregorian year 1960;
  - `aircno_360d_1960.dfy`: aircraft NO, periodic 1960, `360_day`.

Several things in the scripts depend on outside values. In the model they are parameters of the members:

- the clock (`time.ctime(time.time())`), which gives the File_creation_date text `created` and the history time stamp `stamp`;
- the script's own path (`__file__`), the parameter `script`;
- the cube itself, which `Run` takes as it comes out of the regridding or, in the aircraft NO scripts, as it is loaded.

Notes on the code as written:

- The aircraft NO table for "1960-1974" has 181 points. They run to mid-January 1975 (day 5415), and the model follows the table.
- The "high_level" black-carbon field (levels 1 to 21) is treated like a surface field. It arrives without a vertical dimension, and the script gives it the single model level 0 by `new_axis` and `transpose`. The model follows that code. A bounded-range field that already has a vertical dimension does not occur in these scripts.
- The scripts build the attribute dictionary by mutating the cube's dictionary in place, one statement after another, and the model does the same. `Edited` and `Assemble` are the all-at-once description of those edits, and each `WriteAttributes` and `Run` is proved equal to it.
- The keys `File_creation_date`, which the scripts write, and `file_creation_date`, which they delete, differ in case. They are therefore different attributes (`FileCreationDate` and `LoadedCreationDate`).
- The forecast period is 720 hours wide in every file, the Gregorian ones included. `Coords.ForecastPeriodInGregorianMonth` shows that this equals a Gregorian month's length only for April, June, September and November.

## Model

| member | source | states |
|---|---|---|
| Calendars.MonthLength | emissions/python/timeseries_1960-2020/regrid_BC_biomass_emissions_n96e_greg.py:118 | a `360_day` month has 30 days; a `gregorian` month has 28 to 31, and February has 29 exactly in a leap year |
| Calendars.MidMonths | emissions/python/timeseries_1960-2020/regrid_BC_biomass_emissions_n96e_greg.py:119-193 | n points, point k being the middle of the k-th month from January of the epoch |
| Calendars.DaysBefore360 | emissions/python/timeseries_1950-2020/regrid_nC4H10_emissions_n96e_360d.py:110-190 | in the `360_day` calendar, 30k days pass before month k |
| Calendars.MidMonth360 | emissions/python/timeseries_1950-2020/regrid_nC4H10_emissions_n96e_360d.py:110-190 | `360_day` month k is centred on day 30k + 15, whatever the epoch |
| Calendars.Spacing360 | emissions/python/timeseries_1950-2020/regrid_nC4H10_emissions_n96e_360d.py:110-190 | consecutive `360_day` points are exactly 30 days apart |
| Calendars.LeapYearsStep | emissions/python/timeseries_1960-2020/regrid_BC_biomass_emissions_n96e_greg.py:118 | the leap-year count grows by one from one year to the next exactly when the later year is a Gregorian leap year |
| Calendars.DaysBeforeGregorian | emissions/python/timeseries_1960-2020/regrid_BC_biomass_emissions_n96e_greg.py:119-193 | the days before Gregorian month k are whole years (4/100/400 rule) plus the months of the year before it |
| Calendars.MidMonthGregorian | emissions/python/timeseries_1960-2020/regrid_BC_biomass_emissions_n96e_greg.py:119-193 | Gregorian month k is centred on the closed-form mid-month of its own year and month |
| Calendars.MidJanuary | emissions/python/timeseries_1960-2020/regrid_BC_biomass_emissions_n96e_greg.py:119 | every axis starts in the middle of January: day 15.5 on the Gregorian calendar, 15 on the 360_day one |
| Calendars.MidMonthStep | emissions/python/timeseries_1960-2020/regrid_BC_biomass_emissions_n96e_greg.py:119-193 | consecutive points lie half of each of the two months' lengths apart |
| Calendars.GregorianGap | emissions/python/timeseries_1960-2020/regrid_BC_biomass_emissions_n96e_greg.py:119-193 | consecutive Gregorian points lie 29.5 to 31 days apart |
| Calendars.GregorianFebruary | emissions/python/timeseries_1960-2020/regrid_BC_biomass_emissions_n96e_greg.py:119-193 | a February point lies 14.5 days into a leap-year February and 14 days into any other |
| Calendars.MidMonthIncreasing | emissions/python/timeseries_1960-2020/regrid_BC_biomass_emissions_n96e_greg.py:119-193 | mid-month points strictly increase with the month, in both calendars |
| Tables.ConcatLength | emissions/python/timeseries_1960-2020/regrid_BC_biomass_emissions_n96e_greg.py:119-193 | a table of full twelve-month rows read in order has 12 entries per row |
| Tables.ConcatEntry | emissions/python/timeseries_1960-2020/regrid_BC_biomass_emissions_n96e_greg.py:119-193 | entry k of the flat array is month k mod 12 of row k div 12 |
| Tables.MonthlyAxisIsGenerated | emissions/python/timeseries_1960-2020/regrid_BC_biomass_emissions_n96e_greg.py:119-193 | an array whose every entry is the mid-month of its month equals the generated axis |
| Tables.MonthlyAxisIncreases | emissions/python/timeseries_1960-2020/regrid_BC_biomass_emissions_n96e_greg.py:119 | a monthly axis is strictly increasing, as the points of a time dimension coordinate must be |
| Tables.Day360Blocks | emissions/python/timeseries_1950-2020/regrid_nC4H10_emissions_n96e_360d.py:110-190 | blocks of ten `360_day` years, each following the one before, make one table of years |
| Tables.Day360Table | emissions/python/timeseries_1950-2020/regrid_nC4H10_emissions_n96e_360d.py:110-190 | a table of `360_day` year rows from the epoch is the monthly axis |
| Tables.GregorianBlocks | emissions/python/timeseries_1960-2020/regrid_BC_biomass_emissions_n96e_greg.py:119-193 | blocks of ten Gregorian years, each following the one before, make one table of years |
| Tables.Years1960To2099 | emissions/python/timeseries_1960-2020/regrid_BC_biomass_emissions_n96e_greg.py:119-193 | from 1960 to 2099 the day count to January 1 and the leap rule reduce to "every fourth year from 1960" |
| Tables.GregorianRowIsYear | emissions/python/timeseries_1960-2020/regrid_BC_biomass_emissions_n96e_greg.py:119-193 | a row built by that shortcut holds the twelve closed-form mid-month points of its year |
| Tables.Gregorian1960Table | emissions/python/timeseries_1960-2020/regrid_BC_biomass_emissions_n96e_greg.py:119-193 | a table of Gregorian year rows from 1960 (before 2100) is the monthly axis since 1960-01-01 |
| Tables.Day360AxisFacts | emissions/python/timeseries_1950-2020/regrid_nC4H10_emissions_n96e_360d.py:110-190 | point k of a `360_day` axis is 30k + 15, and neighbours are 30 days apart |
| Tables.Day360GuessedBounds | emissions/python/timeseries_1950-2020/regrid_nC4H10_emissions_n96e_360d.py:295 | on a `360_day` monthly axis the guessed bounds of month k are [30k, 30k + 30], the month boundaries |
| Tables.GregorianAxisSteps | emissions/python/timeseries_1960-2020/regrid_BC_biomass_emissions_n96e_greg.py:119-193 | neighbours on a Gregorian axis are 29.5 to 31 days apart |
| Tables.GregorianAxisFebruaries | emissions/python/timeseries_1960-2020/regrid_BC_biomass_emissions_n96e_greg.py:119-193 | every February on a Gregorian axis is centred 14.5 days into a leap February and 14 days into any other |
| Tables.GregorianAxisEnds | emissions/python/timeseries_1960-2020/regrid_BC_biomass_emissions_n96e_greg.py:119-193 | a Gregorian axis from January 1960 to December of 1960 + n starts at 15.5 and ends on that December's mid-month point |
| Tables.MonthlyAxisGuessedBounds | emissions/python/timeseries_1960-2020/regrid_BC_biomass_emissions_n96e_greg.py:292 | on any monthly axis the guessed bounds tile the axis and each cell holds its mid-month point |
| Tables.GregorianDecember | emissions/python/timeseries_1960-2020/regrid_BC_biomass_emissions_n96e_greg.py:119-193 | the December point of year 1960 + n is 350.5 or 349.5 days after January 1 of that year, depending on leap years |
| Coords.ForecastPeriod | emissions/python/timeseries_1960-2020/regrid_BC_biomass_emissions_n96e_greg.py:294-297 | forecast_period in hours, one point and one bound pair: the period ends at 0, is one 30-day month wide, and its point is the middle |
| Coords.ForecastPeriodInGregorianMonth | emissions/python/timeseries_1960-2020/regrid_BC_biomass_emissions_n96e_greg.py:294-297 | that width equals the length of Gregorian month m exactly when m is April, June, September or November |
| Coords.ForecastReferenceTime | emissions/python/timeseries_1960-2020/regrid_BC_biomass_emissions_n96e_greg.py:289-291 | forecast_reference_time carries the given units and points, and no bounds |
| Coords.GuessedBounds | emissions/python/timeseries_1960-2020/regrid_BC_biomass_emissions_n96e_greg.py:292 | guess_bounds gives one cell per point |
| Coords.GuessedCellHoldsPoint | emissions/python/timeseries_1960-2020/regrid_BC_biomass_emissions_n96e_greg.py:292 | a guessed cell holds its point strictly inside when the points increase around it |
| Coords.GuessedBoundsTile | emissions/python/timeseries_1960-2020/regrid_BC_biomass_emissions_n96e_greg.py:292 | on strictly increasing points the guessed cells are contiguous, each ending where the next begins, and each holds its own point strictly inside |
| Coords.SurfaceLevel | emissions/python/timeseries_1960-2020/regrid_BC_biomass_emissions_n96e_greg.py:196-197 | model_level_number, units 1, the single point 0, positive up |
| Arrays.NewAxis | emissions/python/timeseries_1960-2020/regrid_BC_biomass_emissions_n96e_greg.py:199 | new_axis turns shape s into (1, s...), and value idx becomes value (0, idx...) |
| Arrays.SwapLeading | emissions/python/timeseries_1960-2020/regrid_BC_biomass_emissions_n96e_greg.py:201 | after the exchange of the first two axes, position (j, i) holds what (i, j) held |
| Arrays.SwapLeadingTwice | emissions/python/timeseries_1960-2020/regrid_BC_biomass_emissions_n96e_greg.py:201 | exchanging the first two axes twice gives the array back |
| Arrays.SwapLeadingShape | emissions/python/timeseries_1960-2020/regrid_BC_biomass_emissions_n96e_greg.py:201 | the exchange turns shape (n0, n1, rest...) into (n1, n0, rest...) |
| Arrays.InjectLevel | emissions/python/timeseries_1960-2020/regrid_BC_biomass_emissions_n96e_greg.py:199-201 | the level injection: new_axis, then the exchange of the first two axes; its shape, values and inverse are stated by InjectLevelValues and SqueezeInjected |
| Arrays.InjectLevelValues | emissions/python/timeseries_1960-2020/regrid_BC_biomass_emissions_n96e_greg.py:196-201 | new_axis then transpose turns shape (t, y, x) into (t, 1, y, x), with [t][0][y][x] holding the old [t][y][x] |
| Arrays.SqueezeInjected | emissions/python/timeseries_1960-2020/regrid_BC_biomass_emissions_n96e_greg.py:199-201 | dropping the injected level gives back the original field |
| Cubes.NameOf | emissions/python/timeseries_1960-2020/regrid_BC_biomass_emissions_n96e_greg.py:89-112 | the attribute name each key stands for, as the scripts write it |
| Cubes.KeyOf | emissions/python/timeseries_1960-2020/regrid_BC_biomass_emissions_n96e_greg.py:89-112 | reading a name gives a key whose name it is: a listed key for a listed name, and Other for any other |
| Cubes.Canonical | emissions/python/timeseries_1960-2020/regrid_BC_biomass_emissions_n96e_greg.py:68 | a key as read from a file: Other carries only names that no listed key has |
| Cubes.CanonicalKeys | emissions/python/timeseries_1960-2020/regrid_BC_biomass_emissions_n96e_greg.py:89-112 | every listed key is canonical, and Other(n) is canonical exactly when n is no listed name |
| Cubes.NamesIdentifyKeys | emissions/python/timeseries_1960-2020/regrid_BC_biomass_emissions_n96e_greg.py:89-112 | two canonical keys have the same name exactly when they are the same key, so one attribute name has one key |
| Cubes.PrependedHistory | emissions/python/timeseries_1960-2020/regrid_BC_biomass_emissions_n96e_greg.py:107 | the new history starts with the time stamp and ends with the previous history; its length is the entry's length plus the old length |
| Cubes.DropPrependedHistory | emissions/python/timeseries_1960-2020/regrid_BC_biomass_emissions_n96e_greg.py:107 | removing the entry the script added gives back the history it found |
| Cubes.HistoryKeepsEarlierRuns | emissions/python/timeseries_1960-2020/regrid_BC_biomass_emissions_n96e_greg.py:107 | after any sequence of runs the original history is still the end of the history |
| Cubes.Edited | emissions/python/timeseries_1960-2020/regrid_BC_biomass_emissions_n96e_greg.py:89-112 | the dictionary after the attribute block: the loaded attributes overwritten by the assignments, with the history entry in front of the old history when the script writes one, less the deleted keys |
| Cubes.Assemble | emissions/python/timeseries_1960-2020/regrid_BC_biomass_emissions_n96e_greg.py:89-310 | the dictionary the script saves: the attribute block, then missing_value forced to the fill value; AssembleKeys and AssembleValues state its keys and values |
| Cubes.AssembleKeys | emissions/python/timeseries_1960-2020/regrid_BC_biomass_emissions_n96e_greg.py:89-112 | the saved keys are the loaded ones plus the assigned ones, less the deleted ones, plus missing_value; no deleted key remains |
| Cubes.AssembleValues | emissions/python/timeseries_1960-2020/regrid_BC_biomass_emissions_n96e_greg.py:89-310 | every assigned value is in place, every other loaded attribute not deleted keeps its value, the history is kept or prefixed, and missing_value is the fill value |
| Cubes.EditedAroundHistory | emissions/python/timeseries_1960-2020/regrid_BC_biomass_emissions_n96e_greg.py:89-109 | assignments made before and after the history line give the same dictionary as making them all at once with the history entry |
| Cubes.LocalAttributes | emissions/python/timeseries_1960-2020/regrid_BC_biomass_emissions_n96e_greg.py:314 | the attributes the saver writes on the emission variable: exactly those whose key is in local_keys, with their values |
| Cubes.GlobalAttributes | emissions/python/timeseries_1960-2020/regrid_BC_biomass_emissions_n96e_greg.py:314 | the attributes the saver writes on the file: exactly those whose key is not in local_keys, with their values |
| Cubes.SaveSplitsAttributes | emissions/python/timeseries_1960-2020/regrid_BC_biomass_emissions_n96e_greg.py:314 | the saver writes each attribute exactly once, either on the variable (local keys) or as a global, and writes no local key the cube lacks |
| Cubes.Cube.constructor | emissions/python/timeseries_1960-2020/regrid_BC_biomass_emissions_n96e_greg.py:83 | the cube as the regridding returns it or, in the three aircraft NO scripts, as it is loaded, with its bounded axes, one canonical key per attribute name, and no fill value set yet |
| Cubes.Cube.SetAttribute | emissions/python/timeseries_1960-2020/regrid_BC_biomass_emissions_n96e_greg.py:89 | `attributes[key] = value` overwrites or adds exactly that key |
| Cubes.Cube.ForceAttribute | emissions/python/timeseries_1960-2020/regrid_BC_biomass_emissions_n96e_greg.py:310 | `dict.__setitem__` stores any key, missing_value included |
| Cubes.Cube.DeleteAttribute | emissions/python/timeseries_1960-2020/regrid_BC_biomass_emissions_n96e_greg.py:111 | `del` removes a present key and raises KeyError on an absent one, leaving the dictionary unchanged |
| Cubes.Cube.PrependHistory | emissions/python/timeseries_1960-2020/regrid_BC_biomass_emissions_n96e_greg.py:107 | the history line fails with KeyError without a history and TypeError on a non-text one; otherwise only the history changes, to the prefixed text |
| Cubes.Cube.NameTime | emissions/python/timeseries_1960-2020/regrid_BC_biomass_emissions_n96e_greg.py:116-117 | only the time coordinate's name changes, to time |
| Cubes.Cube.SetTimeUnits | emissions/python/timeseries_1960-2020/regrid_BC_biomass_emissions_n96e_greg.py:118 | only the units change; the points are not converted |
| Cubes.Cube.SetTimePoints | emissions/python/timeseries_1960-2020/regrid_BC_biomass_emissions_n96e_greg.py:119 | new points must keep the dimension's length and be strictly monotonic, otherwise ValueError with the coordinate unchanged |
| Cubes.Cube.AddScalarLevel | emissions/python/timeseries_1960-2020/regrid_BC_biomass_emissions_n96e_greg.py:198 | a scalar vertical coordinate is added unless there already is one (ValueError) |
| Cubes.Cube.PromoteLevel | emissions/python/timeseries_1960-2020/regrid_BC_biomass_emissions_n96e_greg.py:199 | new_axis needs the vertical coordinate, then prepends a length-one Z dimension to data, shape and dimensions |
| Cubes.Cube.TransposeLeading | emissions/python/timeseries_1960-2020/regrid_BC_biomass_emissions_n96e_greg.py:201 | transpose([1, 0, 2, 3]) exchanges the first two of exactly four dimensions in data, shape and dimension kinds, otherwise ValueError |
| Cubes.Cube.CastLevelPoints | emissions/python/timeslice/regrid_aircNO_n96e_360d_1960-1974.py:141 | the cast of the vertical points keeps their values and fails, as coord(axis='z') does, without a vertical coordinate |
| Cubes.Cube.CastLatitudeBounds | emissions/python/timeseries_1960-2020/regrid_BC_biomass_emissions_n96e_greg.py:209 | the float64 cast of the latitude bounds keeps their values, and is an AttributeError when latitude carries no bounds |
| Cubes.Cube.GuessForecastReferenceTimeBounds | emissions/python/timeseries_1960-2020/regrid_BC_biomass_emissions_n96e_greg.py:292 | guess_bounds on forecast_reference_time is CoordinateNotFound without it and a ValueError when its points are not strictly monotonic, when it has fewer than two points or when it has bounds already; otherwise only its bounds change, to the guessed ones |
| Cubes.Cube.GuessBounds | emissions/python/periodic_1960/regrid_aircNO_n96e_360d_1960.py:101 | guess_bounds gives the coordinate of axis d bounds, and raises ValueError when it already has them |
| Cubes.Cube.AddForecastReferenceTime | emissions/python/timeseries_1960-2020/regrid_BC_biomass_emissions_n96e_greg.py:291 | a coordinate along the leading dimension must match its length and not be a duplicate, otherwise ValueError |
| Cubes.Cube.AddForecastPeriod | emissions/python/timeseries_1960-2020/regrid_BC_biomass_emissions_n96e_greg.py:297 | a scalar coordinate must have one point and not be a duplicate, otherwise ValueError |
| Cubes.Cube.SetCellMethods | emissions/python/timeseries_1960-2020/regrid_BC_biomass_emissions_n96e_greg.py:300 | the cell methods are replaced |
| Cubes.Cube.SetFillValue | emissions/python/timeseries_1960-2020/regrid_BC_biomass_emissions_n96e_greg.py:303 | the fill value is set; the data values are unchanged |
| Steps.SetMonthlyTime | emissions/python/timeseries_1960-2020/regrid_BC_biomass_emissions_n96e_greg.py:116-193 | the time block names the coordinate time and sets the units; the points are replaced exactly when they keep the length and are strictly monotonic, otherwise ValueError |
| Steps.GuessHorizontalBounds | emissions/python/periodic_1960/regrid_aircNO_n96e_360d_1960.py:101-102 | the x and then the y coordinate get bounds; a ValueError when either already has them |
| Steps.InjectSurfaceLevel | emissions/python/timeseries_1960-2020/regrid_BC_biomass_emissions_n96e_greg.py:196-201 | the z block succeeds exactly on a three-dimensional cube without a level; then the level is model level 0, the shape is (t, 1, y, x) and every value moves from [t][y][x] to [t][0][y][x] |
| Steps.AddForecastAxes | emissions/python/timeseries_1960-2020/regrid_BC_biomass_emissions_n96e_greg.py:214-297 | the forecast block succeeds exactly when there is no forecast coordinate yet and the table has at least two strictly monotonic points and matches the leading dimension, otherwise a ValueError; forecast_reference_time then carries the table and its guessed bounds, and forecast_period is the scalar -360 hours |
| Steps.FinishForSaving | emissions/python/timeseries_1960-2020/regrid_BC_biomass_emissions_n96e_greg.py:300-310 | cell_methods becomes mean: time and the fill value 1e+20; missing_value is forced to that same number and nothing else in the attributes changes |
| RegridBcBiomassGreg.TimeRowsAreYears | emissions/python/timeseries_1960-2020/regrid_BC_biomass_emissions_n96e_greg.py:118-193 | each row of the transcribed time table holds the twelve mid-month points of one gregorian year, in order |
| RegridBcBiomassGreg.TimeIsMidMonths | emissions/python/timeseries_1960-2020/regrid_BC_biomass_emissions_n96e_greg.py:118-193 | the time table has 732 entries and is exactly the gregorian mid-month axis from January of the epoch |
| RegridBcBiomassGreg.FrtRowsAreYears | emissions/python/timeseries_1960-2020/regrid_BC_biomass_emissions_n96e_greg.py:214-290 | each row of the separately transcribed forecast_reference_time table holds one year's mid-month points |
| RegridBcBiomassGreg.FrtIsMidMonths | emissions/python/timeseries_1960-2020/regrid_BC_biomass_emissions_n96e_greg.py:214-290 | the forecast_reference_time table has 732 entries and is the same gregorian mid-month axis |
| RegridBcBiomassGreg.FrtEqualsTime | emissions/python/timeseries_1960-2020/regrid_BC_biomass_emissions_n96e_greg.py:214-288 | the forecast_reference_time points equal the time points, entry for entry |
| RegridBcBiomassGreg.Months | emissions/python/timeseries_1960-2020/regrid_BC_biomass_emissions_n96e_greg.py:118-193 | the axis of 732 consecutive gregorian mid-months from January 1960, strictly increasing as a dimension coordinate requires |
| RegridBcBiomassGreg.TimeIsMonths | emissions/python/timeseries_1960-2020/regrid_BC_biomass_emissions_n96e_greg.py:118-193 | the table the script writes is that axis |
| RegridBcBiomassGreg.MonthsEnds | emissions/python/timeseries_1960-2020/regrid_BC_biomass_emissions_n96e_greg.py:118-193 | the axis starts at 15.5 (mid-January 1960) and ends at 22265.5 (mid-December 2020) |
| RegridBcBiomassGreg.MonthsSteps | emissions/python/timeseries_1960-2020/regrid_BC_biomass_emissions_n96e_greg.py:118-193 | neighbouring points are 29.5 to 31 days apart; each February point is 14.5 days into a leap February and 14 into any other |
| RegridBcBiomassGreg.AssignedSplits | emissions/python/timeseries_1960-2020/regrid_BC_biomass_emissions_n96e_greg.py:89-112 | the assignments before and after the history line together are all the assignments; none touches the history or a deleted key |
| RegridBcBiomassGreg.AssignedKeys | emissions/python/timeseries_1960-2020/regrid_BC_biomass_emissions_n96e_greg.py:89-112 | no assigned key is the history, missing_value, _FillValue or a deleted key |
| RegridBcBiomassGreg.AttributeValues | emissions/python/timeseries_1960-2020/regrid_BC_biomass_emissions_n96e_greg.py:89-112 | in the saved attributes vertical_scaling is high_level with lowest_level 1 not above highest_level 21 (both decimal strings), emission and update types are both 1, and all six local keys reach the emission variable (saver at line 314); the new history begins with the time stamp and ends with the loaded history; the keys are the loaded ones plus the assigned ones, less the deleted ones, plus missing_value |
| RegridBcBiomassGreg.LabelledMerges | emissions/python/timeseries_1960-2020/regrid_BC_biomass_emissions_n96e_greg.py:89-106 | the assignments made one by one overwrite the loaded dictionary with the assigned values |
| RegridBcBiomassGreg.Label | emissions/python/timeseries_1960-2020/regrid_BC_biomass_emissions_n96e_greg.py:89-106 | after these assignments the dictionary is the loaded one overwritten key by key |
| RegridBcBiomassGreg.Credit | emissions/python/timeseries_1960-2020/regrid_BC_biomass_emissions_n96e_greg.py:107-109 | the history line fails with a KeyError when there is no history and a TypeError when it is not text; on success the history gets the stamp-and-path entry in front and institution and reference are set |
| RegridBcBiomassGreg.Prune | emissions/python/timeseries_1960-2020/regrid_BC_biomass_emissions_n96e_greg.py:111-112 | the `del` statements remove file_creation_date and description, failing with a KeyError for the first that is missing |
| RegridBcBiomassGreg.WriteAttributes | emissions/python/timeseries_1960-2020/regrid_BC_biomass_emissions_n96e_greg.py:89-112 | the attribute block fails exactly on a missing or non-text history or a missing deleted key, and otherwise leaves the loaded attributes overwritten by the assignments, with the new history, less the deleted keys |
| RegridBcBiomassGreg.FrtBounds | emissions/python/timeseries_1960-2020/regrid_BC_biomass_emissions_n96e_greg.py:292 | the forecast_reference_time bounds guessed from the table tile the axis: each cell ends where the next begins and holds its mid-month point strictly inside |
| RegridBcBiomassGreg.WriteTime | emissions/python/timeseries_1960-2020/regrid_BC_biomass_emissions_n96e_greg.py:116-193 | the time coordinate is named time and gets the new units; its points become the monthly axis when the dimension has 732 points, otherwise a ValueError leaves them unchanged |
| RegridBcBiomassGreg.WriteForecastAxes | emissions/python/timeseries_1960-2020/regrid_BC_biomass_emissions_n96e_greg.py:214-297 | forecast_reference_time (the same axis) is attached along a leading dimension of 732, gets the bounds guess_bounds computes from its points, and the scalar forecast_period follows; otherwise a ValueError |
| RegridBcBiomassGreg.CoordinatesReady | emissions/python/timeseries_1960-2020/regrid_BC_biomass_emissions_n96e_greg.py:116-297 | the conditions under which every coordinate statement succeeds: 732 time points with a leading time dimension of 732, a (t, lat, lon) shape with latitude bounds and no vertical coordinate, and neither forecast coordinate yet |
| RegridBcBiomassGreg.WriteCoordinates | emissions/python/timeseries_1960-2020/regrid_BC_biomass_emissions_n96e_greg.py:116-297 | the coordinate statements succeed exactly when CoordinatesReady holds; then the time axis is Months(), the field has the surface level, shape (t, 1, lat, lon) and every value moved from [t][y][x] to [t][0][y][x], forecast_reference_time carries the table and its guessed bounds, and forecast_period is the scalar -360 hours |
| RegridBcBiomassGreg.Ready | emissions/python/timeseries_1960-2020/regrid_BC_biomass_emissions_n96e_greg.py:89-314 | the conditions under which every statement of the script succeeds: a string history, every deleted key present, and CoordinatesReady |
| RegridBcBiomassGreg.Run | emissions/python/timeseries_1960-2020/regrid_BC_biomass_emissions_n96e_greg.py:89-314 | the script succeeds exactly when the cube is ready (see Ready: history, deleted keys, a time dimension of 732, a (t, lat, lon) field with latitude bounds and without level, no forecast coordinates yet); then the attributes are those of Attributes, the time axis is Months(), the field gets the surface level and the shape (t, 1, lat, lon) with every value moved from [t][y][x] to [t][0][y][x], forecast_reference_time carries the time points and their guessed bounds, cell_methods is mean: time and missing_value equals the 1e+20 fill value |
| RegridNButane360.TimeRowsAreYears | emissions/python/timeseries_1950-2020/regrid_nC4H10_emissions_n96e_360d.py:109-190 | each row of the transcribed time table holds the twelve mid-month points of one 360_day year, in order |
| RegridNButane360.TimeIsMidMonths | emissions/python/timeseries_1950-2020/regrid_nC4H10_emissions_n96e_360d.py:109-190 | the time table has 852 entries and is exactly the 360_day mid-month axis from January of the epoch |
| RegridNButane360.FrtRowsAreYears | emissions/python/timeseries_1950-2020/regrid_nC4H10_emissions_n96e_360d.py:211-293 | each row of the separately transcribed forecast_reference_time table holds one year's mid-month points |
| RegridNButane360.FrtIsMidMonths | emissions/python/timeseries_1950-2020/regrid_nC4H10_emissions_n96e_360d.py:211-293 | the forecast_reference_time table has 852 entries and is the same 360_day mid-month axis |
| RegridNButane360.FrtEqualsTime | emissions/python/timeseries_1950-2020/regrid_nC4H10_emissions_n96e_360d.py:211-292 | the forecast_reference_time points equal the time points, entry for entry |
| RegridNButane360.Months | emissions/python/timeseries_1950-2020/regrid_nC4H10_emissions_n96e_360d.py:109-190 | the axis of 852 consecutive 360_day mid-months from January 1950, strictly increasing as a dimension coordinate requires |
| RegridNButane360.TimeIsMonths | emissions/python/timeseries_1950-2020/regrid_nC4H10_emissions_n96e_360d.py:109-190 | the table the script writes is that axis |
| RegridNButane360.MonthsFacts | emissions/python/timeseries_1950-2020/regrid_nC4H10_emissions_n96e_360d.py:109-190 | point k is 30k + 15, the axis runs from 15 to 25545 and rises by exactly 30 days a month |
| RegridNButane360.AssignedSplits | emissions/python/timeseries_1950-2020/regrid_nC4H10_emissions_n96e_360d.py:83-103 | the assignments before and after the history line together are all the assignments; none touches the history or a deleted key |
| RegridNButane360.AssignedKeys | emissions/python/timeseries_1950-2020/regrid_nC4H10_emissions_n96e_360d.py:83-103 | no assigned key is the history, missing_value, _FillValue or a deleted key |
| RegridNButane360.AttributeValues | emissions/python/timeseries_1950-2020/regrid_nC4H10_emissions_n96e_360d.py:83-103 | in the saved attributes vertical_scaling is surface, emission and update types are both 1, vertical_scaling, missing_value and tracer_name are written on the variable, and um_stash_source (never assigned) is written there exactly when the loaded file had it (saver at line 317); the new history begins with the time stamp and ends with the loaded history; the keys are the loaded ones plus the assigned ones, less the deleted ones, plus missing_value |
| RegridNButane360.LabelledMerges | emissions/python/timeseries_1950-2020/regrid_nC4H10_emissions_n96e_360d.py:83-97 | the assignments made one by one overwrite the loaded dictionary with the assigned values |
| RegridNButane360.Label | emissions/python/timeseries_1950-2020/regrid_nC4H10_emissions_n96e_360d.py:83-97 | after these assignments the dictionary is the loaded one overwritten key by key |
| RegridNButane360.Credit | emissions/python/timeseries_1950-2020/regrid_nC4H10_emissions_n96e_360d.py:98-100 | the history line fails with a KeyError when there is no history and a TypeError when it is not text; on success the history gets the stamp-and-path entry in front and institution and reference are set |
| RegridNButane360.Prune | emissions/python/timeseries_1950-2020/regrid_nC4H10_emissions_n96e_360d.py:102-103 | the `del` statements remove file_creation_date and description, failing with a KeyError for the first that is missing |
| RegridNButane360.WriteAttributes | emissions/python/timeseries_1950-2020/regrid_nC4H10_emissions_n96e_360d.py:83-103 | the attribute block fails exactly on a missing or non-text history or a missing deleted key, and otherwise leaves the loaded attributes overwritten by the assignments, with the new history, less the deleted keys |
| RegridNButane360.FrtBounds | emissions/python/timeseries_1950-2020/regrid_nC4H10_emissions_n96e_360d.py:295 | guess_bounds gives month k of the forecast_reference_time the bounds [30k, 30k + 30], exactly its 360_day month |
| RegridNButane360.WriteTime | emissions/python/timeseries_1950-2020/regrid_nC4H10_emissions_n96e_360d.py:107-190 | the time coordinate is named time and gets the new units; its points become the monthly axis when the dimension has 852 points, otherwise a ValueError leaves them unchanged |
| RegridNButane360.WriteForecastAxes | emissions/python/timeseries_1950-2020/regrid_nC4H10_emissions_n96e_360d.py:211-300 | forecast_reference_time (the same axis) is attached along a leading dimension of 852, gets the bounds guess_bounds computes from its points, and the scalar forecast_period follows; otherwise a ValueError |
| RegridNButane360.CoordinatesReady | emissions/python/timeseries_1950-2020/regrid_nC4H10_emissions_n96e_360d.py:107-300 | the conditions under which every coordinate statement succeeds: 852 time points with a leading time dimension of 852, a (t, lat, lon) shape with latitude bounds and no vertical coordinate, and neither forecast coordinate yet |
| RegridNButane360.WriteCoordinates | emissions/python/timeseries_1950-2020/regrid_nC4H10_emissions_n96e_360d.py:107-300 | the coordinate statements succeed exactly when CoordinatesReady holds; then the time axis is Months(), the field has the surface level, shape (t, 1, lat, lon) and every value moved from [t][y][x] to [t][0][y][x], forecast_reference_time carries the table and its guessed bounds, and forecast_period is the scalar -360 hours |
| RegridNButane360.Ready | emissions/python/timeseries_1950-2020/regrid_nC4H10_emissions_n96e_360d.py:83-317 | the conditions under which every statement of the script succeeds: a string history, every deleted key present, and CoordinatesReady |
| RegridNButane360.Run | emissions/python/timeseries_1950-2020/regrid_nC4H10_emissions_n96e_360d.py:83-317 | the script succeeds exactly when the cube is ready (see Ready: history, deleted keys, a time dimension of 852, a (t, lat, lon) field with latitude bounds and without level, no forecast coordinates yet); then the attributes are those of Attributes, the time axis is Months(), the field gets the surface level and the shape (t, 1, lat, lon) with every value moved from [t][y][x] to [t][0][y][x], forecast_reference_time carries the time points and their guessed bounds, cell_methods is mean: time and missing_value equals the 1e+20 fill value |
| RegridAircNo360Timeslice.TimeRowsAreYears | emissions/python/timeslice/regrid_aircNO_n96e_360d_1960-1974.py:106-123 | each row of the transcribed time table holds the twelve mid-month points of one 360_day year, in order |
| RegridAircNo360Timeslice.TimeIsMidMonths | emissions/python/timeslice/regrid_aircNO_n96e_360d_1960-1974.py:106-123 | the time table has 181 entries and is exactly the 360_day mid-month axis from January of the epoch |
| RegridAircNo360Timeslice.FrtRowsAreYears | emissions/python/timeslice/regrid_aircNO_n96e_360d_1960-1974.py:149-167 | each row of the separately transcribed forecast_reference_time table holds one year's mid-month points |
| RegridAircNo360Timeslice.FrtIsMidMonths | emissions/python/timeslice/regrid_aircNO_n96e_360d_1960-1974.py:149-167 | the forecast_reference_time table has 181 entries and is the same 360_day mid-month axis |
| RegridAircNo360Timeslice.FrtEqualsTime | emissions/python/timeslice/regrid_aircNO_n96e_360d_1960-1974.py:149-166 | the forecast_reference_time points equal the time points, entry for entry |
| RegridAircNo360Timeslice.Months | emissions/python/timeslice/regrid_aircNO_n96e_360d_1960-1974.py:106-123 | the axis of 181 consecutive 360_day mid-months from January 1960, strictly increasing as a dimension coordinate requires |
| RegridAircNo360Timeslice.TimeIsMonths | emissions/python/timeslice/regrid_aircNO_n96e_360d_1960-1974.py:106-123 | the table the script writes is that axis |
| RegridAircNo360Timeslice.MonthsFacts | emissions/python/timeslice/regrid_aircNO_n96e_360d_1960-1974.py:106-123 | point k is 30k + 15, the axis runs from 15 to 5415 and rises by exactly 30 days a month |
| RegridAircNo360Timeslice.AssignedKeys | emissions/python/timeslice/regrid_aircNO_n96e_360d_1960-1974.py:88-100 | no assigned key is the history, missing_value or _FillValue |
| RegridAircNo360Timeslice.AttributeValues | emissions/python/timeslice/regrid_aircNO_n96e_360d_1960-1974.py:88-100 | in the saved attributes vertical_scaling is all_levels, emission and update types are both 1, and every loaded attribute it does not assign keeps its value, the history included; missing_value is the fill value |
| RegridAircNo360Timeslice.LabelledMerges | emissions/python/timeslice/regrid_aircNO_n96e_360d_1960-1974.py:88-100 | the assignments made one by one overwrite the loaded dictionary with the assigned values |
| RegridAircNo360Timeslice.WriteAttributes | emissions/python/timeslice/regrid_aircNO_n96e_360d_1960-1974.py:88-100 | the attribute block cannot fail and leaves the loaded attributes overwritten by the assignments |
| RegridAircNo360Timeslice.FrtBounds | emissions/python/timeslice/regrid_aircNO_n96e_360d_1960-1974.py:169 | guess_bounds gives month k of the forecast_reference_time the bounds [30k, 30k + 30], exactly its 360_day month |
| RegridAircNo360Timeslice.WriteTime | emissions/python/timeslice/regrid_aircNO_n96e_360d_1960-1974.py:104-123 | the time coordinate is named time and gets the new units; its points become the monthly axis when the dimension has 181 points, otherwise a ValueError leaves them unchanged |
| RegridAircNo360Timeslice.WriteForecastAxes | emissions/python/timeslice/regrid_aircNO_n96e_360d_1960-1974.py:149-174 | forecast_reference_time (the same axis) is attached along a leading dimension of 181, gets the bounds guess_bounds computes from its points, and the scalar forecast_period follows; otherwise a ValueError |
| RegridAircNo360Timeslice.CoordinatesReady | emissions/python/timeslice/regrid_aircNO_n96e_360d_1960-1974.py:104-174 | the conditions under which every coordinate statement succeeds: 181 time points with a leading time dimension of 181, x and y coordinates without bounds and a vertical coordinate, and neither forecast coordinate yet |
| RegridAircNo360Timeslice.WriteCoordinates | emissions/python/timeslice/regrid_aircNO_n96e_360d_1960-1974.py:104-174 | the coordinate statements succeed exactly when CoordinatesReady holds; then the time axis is Months(), x and y carry bounds, forecast_reference_time carries the table and its guessed bounds, and forecast_period is the scalar -360 hours |
| RegridAircNo360Timeslice.Ready | emissions/python/timeslice/regrid_aircNO_n96e_360d_1960-1974.py:88-191 | the conditions under which every statement of the script succeeds: CoordinatesReady |
| RegridAircNo360Timeslice.Run | emissions/python/timeslice/regrid_aircNO_n96e_360d_1960-1974.py:88-191 | the script succeeds exactly when the cube is ready (see Ready: a time dimension of 181, unbounded x and y, a field with its vertical coordinate, no forecast coordinates yet); then the attributes are those of Attributes, the time axis is Months(), the level coordinate, data, shape and dimensions stay exactly as loaded, the x and y coordinates get bounds, forecast_reference_time carries the time points and their guessed bounds, cell_methods is mean: time and missing_value equals the 1e+20 fill value |
| RegridMeChoPeriodic.TimeRowsAreYears | emissions/python/periodic_1960/regrid_MeCHO_emissions_n96e_360d_1960.py:118-119 | each row of the transcribed time table holds the twelve mid-month points of one 360_day year, in order |
| RegridMeChoPeriodic.TimeIsMidMonths | emissions/python/periodic_1960/regrid_MeCHO_emissions_n96e_360d_1960.py:118-119 | the time table has 12 entries and is exactly the 360_day mid-month axis from January of the epoch |
| RegridMeChoPeriodic.FrtRowsAreYears | emissions/python/periodic_1960/regrid_MeCHO_emissions_n96e_360d_1960.py:140-142 | each row of the separately transcribed forecast_reference_time table holds one year's mid-month points |
| RegridMeChoPeriodic.FrtIsMidMonths | emissions/python/periodic_1960/regrid_MeCHO_emissions_n96e_360d_1960.py:140-142 | the forecast_reference_time table has 12 entries and is the same 360_day mid-month axis |
| RegridMeChoPeriodic.FrtEqualsTime | emissions/python/periodic_1960/regrid_MeCHO_emissions_n96e_360d_1960.py:140 | the forecast_reference_time points equal the time points, entry for entry |
| RegridMeChoPeriodic.Months | emissions/python/periodic_1960/regrid_MeCHO_emissions_n96e_360d_1960.py:118-119 | the axis of 12 consecutive 360_day mid-months from January 1960, strictly increasing as a dimension coordinate requires |
| RegridMeChoPeriodic.TimeIsMonths | emissions/python/periodic_1960/regrid_MeCHO_emissions_n96e_360d_1960.py:118-119 | the table the script writes is that axis |
| RegridMeChoPeriodic.MonthsFacts | emissions/python/periodic_1960/regrid_MeCHO_emissions_n96e_360d_1960.py:118-119 | point k is 30k + 15, the axis runs from 15 to 345 and rises by exactly 30 days a month |
| RegridMeChoPeriodic.AssignedSplits | emissions/python/periodic_1960/regrid_MeCHO_emissions_n96e_360d_1960.py:89-112 | the assignments before and after the history line together are all the assignments; none touches the history or a deleted key |
| RegridMeChoPeriodic.AssignedKeys | emissions/python/periodic_1960/regrid_MeCHO_emissions_n96e_360d_1960.py:89-112 | no assigned key is the history, missing_value, _FillValue or a deleted key |
| RegridMeChoPeriodic.AttributeValues | emissions/python/periodic_1960/regrid_MeCHO_emissions_n96e_360d_1960.py:89-112 | in the saved attributes vertical_scaling is surface, emission and update types are both 2 (periodic), and lumped_species is written on the emission variable (saver at line 166); the new history begins with the time stamp and ends with the loaded history; the keys are the loaded ones plus the assigned ones, less the deleted ones, plus missing_value |
| RegridMeChoPeriodic.LabelledMerges | emissions/python/periodic_1960/regrid_MeCHO_emissions_n96e_360d_1960.py:89-105 | the assignments made one by one overwrite the loaded dictionary with the assigned values |
| RegridMeChoPeriodic.Label | emissions/python/periodic_1960/regrid_MeCHO_emissions_n96e_360d_1960.py:89-105 | after these assignments the dictionary is the loaded one overwritten key by key |
| RegridMeChoPeriodic.Credit | emissions/python/periodic_1960/regrid_MeCHO_emissions_n96e_360d_1960.py:106-108 | the history line fails with a KeyError when there is no history and a TypeError when it is not text; on success the history gets the stamp-and-path entry in front and institution and reference are set |
| RegridMeChoPeriodic.Prune | emissions/python/periodic_1960/regrid_MeCHO_emissions_n96e_360d_1960.py:110-112 | the `del` statements remove NCO, file_creation_date and description, failing with a KeyError for the first that is missing |
| RegridMeChoPeriodic.WriteAttributes | emissions/python/periodic_1960/regrid_MeCHO_emissions_n96e_360d_1960.py:89-112 | the attribute block fails exactly on a missing or non-text history or a missing deleted key, and otherwise leaves the loaded attributes overwritten by the assignments, with the new history, less the deleted keys |
| RegridMeChoPeriodic.FrtBounds | emissions/python/periodic_1960/regrid_MeCHO_emissions_n96e_360d_1960.py:144 | guess_bounds gives month k of the forecast_reference_time the bounds [30k, 30k + 30], exactly its 360_day month |
| RegridMeChoPeriodic.WriteTime | emissions/python/periodic_1960/regrid_MeCHO_emissions_n96e_360d_1960.py:116-119 | the time coordinate is named time and gets the new units; its points become the monthly axis when the dimension has 12 points, otherwise a ValueError leaves them unchanged |
| RegridMeChoPeriodic.WriteForecastAxes | emissions/python/periodic_1960/regrid_MeCHO_emissions_n96e_360d_1960.py:140-149 | forecast_reference_time (the same axis) is attached along a leading dimension of 12, gets the bounds guess_bounds computes from its points, and the scalar forecast_period follows; otherwise a ValueError |
| RegridMeChoPeriodic.CoordinatesReady | emissions/python/periodic_1960/regrid_MeCHO_emissions_n96e_360d_1960.py:116-149 | the conditions under which every coordinate statement succeeds: 12 time points with a leading time dimension of 12, a (t, lat, lon) shape with latitude bounds and no vertical coordinate, and neither forecast coordinate yet |
| RegridMeChoPeriodic.WriteCoordinates | emissions/python/periodic_1960/regrid_MeCHO_emissions_n96e_360d_1960.py:116-149 | the coordinate statements succeed exactly when CoordinatesReady holds; then the time axis is Months(), the field has the surface level, shape (t, 1, lat, lon) and every value moved from [t][y][x] to [t][0][y][x], forecast_reference_time carries the table and its guessed bounds, and forecast_period is the scalar -360 hours |
| RegridMeChoPeriodic.Ready | emissions/python/periodic_1960/regrid_MeCHO_emissions_n96e_360d_1960.py:89-166 | the conditions under which every statement of the script succeeds: a string history, every deleted key present, and CoordinatesReady |
| RegridMeChoPeriodic.Run | emissions/python/periodic_1960/regrid_MeCHO_emissions_n96e_360d_1960.py:89-166 | the script succeeds exactly when the cube is ready (see Ready: history, deleted keys, a time dimension of 12, a (t, lat, lon) field with latitude bounds and without level, no forecast coordinates yet); then the attributes are those of Attributes, the time axis is Months(), the field gets the surface level and the shape (t, 1, lat, lon) with every value moved from [t][y][x] to [t][0][y][x], forecast_reference_time carries the time points and their guessed bounds, cell_methods is mean: time and missing_value equals the 1e+20 fill value |
| RegridAircNoGreg1Year.TimeRowsAreYears | emissions/python/timeslice/regrid_aircNO_n96e_greg_1year.py:106-108 | each row of the transcribed time table holds the twelve mid-month points of one gregorian year, in order |
| RegridAircNoGreg1Year.TimeIsMidMonths | emissions/python/timeslice/regrid_aircNO_n96e_greg_1year.py:106-108 | the time table has 12 entries and is exactly the gregorian mid-month axis from January of the epoch |
| RegridAircNoGreg1Year.FrtRowsAreYears | emissions/python/timeslice/regrid_aircNO_n96e_greg_1year.py:134-137 | each row of the separately transcribed forecast_reference_time table holds one year's mid-month points |
| RegridAircNoGreg1Year.FrtIsMidMonths | emissions/python/timeslice/regrid_aircNO_n96e_greg_1year.py:134-137 | the forecast_reference_time table has 12 entries and is the same gregorian mid-month axis |
| RegridAircNoGreg1Year.FrtEqualsTime | emissions/python/timeslice/regrid_aircNO_n96e_greg_1year.py:134-136 | the forecast_reference_time points equal the time points, entry for entry |
| RegridAircNoGreg1Year.Months | emissions/python/timeslice/regrid_aircNO_n96e_greg_1year.py:106-108 | the axis of 12 consecutive gregorian mid-months from January 1960, strictly increasing as a dimension coordinate requires |
| RegridAircNoGreg1Year.TimeIsMonths | emissions/python/timeslice/regrid_aircNO_n96e_greg_1year.py:106-108 | the table the script writes is that axis |
| RegridAircNoGreg1Year.MonthsEnds | emissions/python/timeslice/regrid_aircNO_n96e_greg_1year.py:106-108 | the axis starts at 15.5 (mid-January 1960) and ends at 350.5 (mid-December 1960) |
| RegridAircNoGreg1Year.MonthsSteps | emissions/python/timeslice/regrid_aircNO_n96e_greg_1year.py:106-108 | neighbouring points are 29.5 to 31 days apart; each February point is 14.5 days into a leap February and 14 into any other |
| RegridAircNoGreg1Year.AssignedKeys | emissions/python/timeslice/regrid_aircNO_n96e_greg_1year.py:88-100 | no assigned key is the history, missing_value or _FillValue |
| RegridAircNoGreg1Year.AttributeValues | emissions/python/timeslice/regrid_aircNO_n96e_greg_1year.py:88-100 | in the saved attributes vertical_scaling is all_levels, emission and update types are both 1, and every loaded attribute it does not assign keeps its value, the history included; missing_value is the fill value |
| RegridAircNoGreg1Year.LabelledMerges | emissions/python/timeslice/regrid_aircNO_n96e_greg_1year.py:88-100 | the assignments made one by one overwrite the loaded dictionary with the assigned values |
| RegridAircNoGreg1Year.WriteAttributes | emissions/python/timeslice/regrid_aircNO_n96e_greg_1year.py:88-100 | the attribute block cannot fail and leaves the loaded attributes overwritten by the assignments |
| RegridAircNoGreg1Year.FrtBounds | emissions/python/timeslice/regrid_aircNO_n96e_greg_1year.py:139 | the forecast_reference_time bounds guessed from the table tile the axis: each cell ends where the next begins and holds its mid-month point strictly inside |
| RegridAircNoGreg1Year.WriteTime | emissions/python/timeslice/regrid_aircNO_n96e_greg_1year.py:104-108 | the time coordinate is named time and gets the new units; its points become the monthly axis when the dimension has 12 points, otherwise a ValueError leaves them unchanged |
| RegridAircNoGreg1Year.WriteForecastAxes | emissions/python/timeslice/regrid_aircNO_n96e_greg_1year.py:134-144 | forecast_reference_time (the same axis) is attached along a leading dimension of 12, gets the bounds guess_bounds computes from its points, and the scalar forecast_period follows; otherwise a ValueError |
| RegridAircNoGreg1Year.CoordinatesReady | emissions/python/timeslice/regrid_aircNO_n96e_greg_1year.py:104-144 | the conditions under which every coordinate statement succeeds: 12 time points with a leading time dimension of 12, x and y coordinates without bounds and a vertical coordinate, and neither forecast coordinate yet |
| RegridAircNoGreg1Year.WriteCoordinates | emissions/python/timeslice/regrid_aircNO_n96e_greg_1year.py:104-144 | the coordinate statements succeed exactly when CoordinatesReady holds; then the time axis is Months(), x and y carry bounds, forecast_reference_time carries the table and its guessed bounds, and forecast_period is the scalar -360 hours |
| RegridAircNoGreg1Year.Ready | emissions/python/timeslice/regrid_aircNO_n96e_greg_1year.py:88-161 | the conditions under which every statement of the script succeeds: CoordinatesReady |
| RegridAircNoGreg1Year.Run | emissions/python/timeslice/regrid_aircNO_n96e_greg_1year.py:88-161 | the script succeeds exactly when the cube is ready (see Ready: a time dimension of 12, unbounded x and y, a field with its vertical coordinate, no forecast coordinates yet); then the attributes are those of Attributes, the time axis is Months(), the level coordinate, data, shape and dimensions stay exactly as loaded, the x and y coordinates get bounds, forecast_reference_time carries the time points and their guessed bounds, cell_methods is mean: time and missing_value equals the 1e+20 fill value |
| RegridAircNoPeriodic.TimeRowsAreYears | emissions/python/periodic_1960/regrid_aircNO_n96e_360d_1960.py:97-98 | each row of the transcribed time table holds the twelve mid-month points of one 360_day year, in order |
| RegridAircNoPeriodic.TimeIsMidMonths | emissions/python/periodic_1960/regrid_aircNO_n96e_360d_1960.py:97-98 | the time table has 12 entries and is exactly the 360_day mid-month axis from January of the epoch |
| RegridAircNoPeriodic.FrtRowsAreYears | emissions/python/periodic_1960/regrid_aircNO_n96e_360d_1960.py:115-117 | each row of the separately transcribed forecast_reference_time table holds one year's mid-month points |
| RegridAircNoPeriodic.FrtIsMidMonths | emissions/python/periodic_1960/regrid_aircNO_n96e_360d_1960.py:115-117 | the forecast_reference_time table has 12 entries and is the same 360_day mid-month axis |
| RegridAircNoPeriodic.FrtEqualsTime | emissions/python/periodic_1960/regrid_aircNO_n96e_360d_1960.py:115 | the forecast_reference_time points equal the time points, entry for entry |
| RegridAircNoPeriodic.Months | emissions/python/periodic_1960/regrid_aircNO_n96e_360d_1960.py:97-98 | the axis of 12 consecutive 360_day mid-months from January 1960, strictly increasing as a dimension coordinate requires |
| RegridAircNoPeriodic.TimeIsMonths | emissions/python/periodic_1960/regrid_aircNO_n96e_360d_1960.py:97-98 | the table the script writes is that axis |
| RegridAircNoPeriodic.MonthsFacts | emissions/python/periodic_1960/regrid_aircNO_n96e_360d_1960.py:97-98 | point k is 30k + 15, the axis runs from 15 to 345 and rises by exactly 30 days a month |
| RegridAircNoPeriodic.AssignedSplits | emissions/python/periodic_1960/regrid_aircNO_n96e_360d_1960.py:71-91 | the assignments before and after the history line together are all the assignments; none touches the history or a deleted key |
| RegridAircNoPeriodic.AssignedKeys | emissions/python/periodic_1960/regrid_aircNO_n96e_360d_1960.py:71-91 | no assigned key is the history, missing_value, _FillValue or a deleted key |
| RegridAircNoPeriodic.AttributeValues | emissions/python/periodic_1960/regrid_aircNO_n96e_360d_1960.py:71-91 | in the saved attributes vertical_scaling is all_levels, emission and update types are both 2, NCO is gone, and every other loaded attribute it does not assign keeps its value; the new history begins with the time stamp and ends with the loaded history; the keys are the loaded ones plus the assigned ones, less the deleted ones, plus missing_value |
| RegridAircNoPeriodic.LabelledMerges | emissions/python/periodic_1960/regrid_aircNO_n96e_360d_1960.py:71-86 | the assignments made one by one overwrite the loaded dictionary with the assigned values |
| RegridAircNoPeriodic.Label | emissions/python/periodic_1960/regrid_aircNO_n96e_360d_1960.py:71-86 | after these assignments the dictionary is the loaded one overwritten key by key |
| RegridAircNoPeriodic.Credit | emissions/python/periodic_1960/regrid_aircNO_n96e_360d_1960.py:87-89 | the history line fails with a KeyError when there is no history and a TypeError when it is not text; on success the history gets the stamp-and-path entry in front and institution and reference are set |
| RegridAircNoPeriodic.Prune | emissions/python/periodic_1960/regrid_aircNO_n96e_360d_1960.py:91 | the `del` statements remove NCO, failing with a KeyError for the first that is missing |
| RegridAircNoPeriodic.WriteAttributes | emissions/python/periodic_1960/regrid_aircNO_n96e_360d_1960.py:71-91 | the attribute block fails exactly on a missing or non-text history or a missing deleted key, and otherwise leaves the loaded attributes overwritten by the assignments, with the new history, less the deleted keys |
| RegridAircNoPeriodic.FrtBounds | emissions/python/periodic_1960/regrid_aircNO_n96e_360d_1960.py:119 | guess_bounds gives month k of the forecast_reference_time the bounds [30k, 30k + 30], exactly its 360_day month |
| RegridAircNoPeriodic.WriteTime | emissions/python/periodic_1960/regrid_aircNO_n96e_360d_1960.py:95-98 | the time coordinate is named time and gets the new units; its points become the monthly axis when the dimension has 12 points, otherwise a ValueError leaves them unchanged |
| RegridAircNoPeriodic.WriteForecastAxes | emissions/python/periodic_1960/regrid_aircNO_n96e_360d_1960.py:115-124 | forecast_reference_time (the same axis) is attached along a leading dimension of 12, gets the bounds guess_bounds computes from its points, and the scalar forecast_period follows; otherwise a ValueError |
| RegridAircNoPeriodic.CoordinatesReady | emissions/python/periodic_1960/regrid_aircNO_n96e_360d_1960.py:95-124 | the conditions under which every coordinate statement succeeds: 12 time points with a leading time dimension of 12, x and y coordinates without bounds and a vertical coordinate, and neither forecast coordinate yet |
| RegridAircNoPeriodic.WriteCoordinates | emissions/python/periodic_1960/regrid_aircNO_n96e_360d_1960.py:95-124 | the coordinate statements succeed exactly when CoordinatesReady holds; then the time axis is Months(), x and y carry bounds, forecast_reference_time carries the table and its guessed bounds, and forecast_period is the scalar -360 hours |
| RegridAircNoPeriodic.Ready | emissions/python/periodic_1960/regrid_aircNO_n96e_360d_1960.py:71-141 | the conditions under which every statement of the script succeeds: a string history, every deleted key present, and CoordinatesReady |
| RegridAircNoPeriodic.Run | emissions/python/periodic_1960/regrid_aircNO_n96e_360d_1960.py:71-141 | the script succeeds exactly when the cube is ready (see Ready: history, deleted keys, a time dimension of 12, unbounded x and y, a field with its vertical coordinate, no forecast coordinates yet); then the attributes are those of Attributes, the time axis is Months(), the level coordinate, data, shape and dimensions stay exactly as loaded, the x and y coordinates get bounds, forecast_reference_time carries the time points and their guessed bounds, cell_methods is mean: time and missing_value equals the 1e+20 fill value |

## Left out

- Regridding, `iris.analysis.AreaWeighted`: the area-weighted interpolation to N96e is floating-point numerics inside Iris. `Run` starts from the regridded cube, or from the loaded cube in the three aircraft NO scripts, which do not regrid.
- The `intersection(longitude=(0, 360))` longitude normalisation and the copying of the grid's `coord_system`: also inside Iris, before the regridding.
- `guess_bounds` on x and y: the values of the bounds. The model records only which of the two axes carry bounds, in `Cube.bounded`, because it does not carry the latitude and longitude points. The forecast_reference_time bounds are computed, on real numbers, by `Coords.GuessedBounds`. The regridding scripts guess the x and y bounds on the grid and emission cubes before the regridding, so this is also outside `Run`. The regridding scripts' `Ready` requires latitude bounds on the regridded cube, as the area-weighted regridding copies them from the grid; without them the float64 cast of the latitude bounds is an AttributeError. `Coords.ForecastReferenceTime` states the coordinate as it is added, without bounds, and `Cubes.Cube.GuessForecastReferenceTimeBounds` then gives it the guessed ones.
- Loading the grid file and the emission file, the output file name, `iris.FUTURE.netcdf_no_unlimited`, the file format and the Conventions attribute the saver adds: these are file I/O. The four scripts that write a history save NETCDF3_CLASSIC with `netcdf_no_unlimited` True. The two aircraft NO time slices save NETCDF4_CLASSIC with `netcdf_no_unlimited` False, so that their time dimension stays unlimited.
- The clock and the script's path are parameters `created`, `stamp` and `script`, as described above.
- `astype('float32')` and `astype('float64')` on the data, on the x, y and t points and on the latitude bounds: precision is not modelled, because numbers are reals. Re-assigning the t points with their own cast copy therefore leaves the axis unchanged, and the model omits that statement.
- The name, long_name and units of the emission variable (`var_name`, `long_name`, `units`): these are plain assignments to fields the model does not carry.
- The latitude and longitude coordinates themselves: only the shape of their dimensions and whether they carry bounds are carried.
- Cubes.Cube.SetAttribute: Iris refuses about twenty CF names through `attributes[key] = value`. `RestrictedKeys` holds only the two among the scripts' keys, `missing_value` and `_FillValue`. This is stated as a precondition rather than modelled as an error, because every such assignment in the scripts uses a literal key outside those two, as `AssignedKeys` shows.
- Run: when a step fails, each Run states which condition failed (`Ready`), but not the partially edited cube the exception leaves behind. The script stops there and saves nothing.
- RegridAircNoPeriodic.Run, RegridAircNo360Timeslice.Run, RegridAircNoGreg1Year.Run: `Ready` assumes that `coord(axis='x')` and `coord(axis='y')` each find exactly one coordinate. It also assumes that each has at least two points, because Iris's guess_bounds refuses a coordinate of length one. Only the already-bounded case of guess_bounds is modelled as its ValueError, through `Cube.bounded`.
- Cubes.Cube.AddScalarLevel, Cubes.Cube.AddForecastPeriod: the cube holds at most one coordinate in each role (vertical, forecast_reference_time, forecast_period), so any existing coordinate in that role counts as the duplicate. Iris's `add_aux_coord` refuses only a coordinate whose metadata equals an existing one's. The scripts always start from a cube without a forecast coordinate and, in the surface scripts, without a vertical one.
- Tables.Gregorian1960Table: the Gregorian tables are proved only for years 1960 to 2099, which cover every table in the scripts. The general closed form in `Calendars.DaysBeforeGregorian` holds for all years.
