/**
 * The cube the scripts edit in place: its attribute dictionary, data array and shape,
 * dimension order, time coordinate, vertical coordinate, forecast coordinates, cell
 * methods and fill value.  Each method is one statement of the scripts (or one Iris
 * call) and says which field it changes; the ones Iris can refuse return an Outcome.
 */
module Cubes {
  import opened Calendars
  import opened Arrays
  import opened Coords

  datatype Option<T> = None | Some(value: T)

  /** An attribute value: a string, or a number such as the fill value. */
  datatype Value = Text(s: string) | Number(x: real)

  /** The Python exceptions that stop a script. */
  datatype Error = KeyError(key: Key) | TypeError | ValueError | AttributeError | CoordinateNotFound

  datatype Outcome = Pass | Fail(error: Error)

  /** Kinds of data dimension: time, vertical, latitude, longitude. */
  datatype Dim = T | Z | Y | X

  /**
   * The attribute names: the ones the scripts read, write, delete or save as local
   * attributes, each written as in the files, and any other name a loaded file carries.
   */
  datatype Key =
    | History               // history
    | MissingValue          // missing_value
    | FillValueKey          // _FillValue
    | VerticalScaling       // vertical_scaling
    | HighestLevel          // highest_level
    | LowestLevel           // lowest_level
    | UmStashSource         // um_stash_source
    | TracerName            // tracer_name
    | LumpedSpecies         // lumped_species
    | EmissionType          // emission_type
    | UpdateType            // update_type
    | UpdateFreqInHours     // update_freq_in_hours
    | UmVersion             // um_version
    | Source                // source
    | Title                 // title
    | DataVersion           // data_version
    | FileVersion           // File_version
    | FileCreationDate      // File_creation_date, the one the scripts write
    | LoadedCreationDate    // file_creation_date, the lower-case one the regridded files carry
    | Grid                  // grid
    | Institution           // institution
    | Reference             // reference
    | Description           // description
    | Nco                   // NCO
    | Other(name: string)   // any other name

  /**
   * The keys, among those the scripts touch, that the cube's attribute dictionary refuses
   * to store through `attributes[k] = v`, because the netCDF saver writes them from the
   * data itself; the scripts go round this with `dict.__setitem__`.  Iris refuses other
   * CF names as well (units, calendar, standard_name, valid_range, scale_factor and
   * more); none of them is a key the scripts name.
   */
  const RestrictedKeys: set<Key> := {MissingValue, FillValueKey}

  /** The attribute name a key stands for, as written in the files. */
  function NameOf(k: Key): string
  {
    match k
    case History => "history"
    case MissingValue => "missing_value"
    case FillValueKey => "_FillValue"
    case VerticalScaling => "vertical_scaling"
    case HighestLevel => "highest_level"
    case LowestLevel => "lowest_level"
    case UmStashSource => "um_stash_source"
    case TracerName => "tracer_name"
    case LumpedSpecies => "lumped_species"
    case EmissionType => "emission_type"
    case UpdateType => "update_type"
    case UpdateFreqInHours => "update_freq_in_hours"
    case UmVersion => "um_version"
    case Source => "source"
    case Title => "title"
    case DataVersion => "data_version"
    case FileVersion => "File_version"
    case FileCreationDate => "File_creation_date"
    case LoadedCreationDate => "file_creation_date"
    case Grid => "grid"
    case Institution => "institution"
    case Reference => "reference"
    case Description => "description"
    case Nco => "NCO"
    case Other(name) => name
  }

  /** The key an attribute name is read as: a listed key for a listed name, `Other` for the rest. */
  function KeyOf(name: string): (k: Key)
    ensures NameOf(k) == name
  {
    if name == "history" then History
    else if name == "missing_value" then MissingValue
    else if name == "_FillValue" then FillValueKey
    else if name == "vertical_scaling" then VerticalScaling
    else if name == "highest_level" then HighestLevel
    else if name == "lowest_level" then LowestLevel
    else if name == "um_stash_source" then UmStashSource
    else if name == "tracer_name" then TracerName
    else if name == "lumped_species" then LumpedSpecies
    else if name == "emission_type" then EmissionType
    else if name == "update_type" then UpdateType
    else if name == "update_freq_in_hours" then UpdateFreqInHours
    else if name == "um_version" then UmVersion
    else if name == "source" then Source
    else if name == "title" then Title
    else if name == "data_version" then DataVersion
    else if name == "File_version" then FileVersion
    else if name == "File_creation_date" then FileCreationDate
    else if name == "file_creation_date" then LoadedCreationDate
    else if name == "grid" then Grid
    else if name == "institution" then Institution
    else if name == "reference" then Reference
    else if name == "description" then Description
    else if name == "NCO" then Nco
    else Other(name)
  }

  /** A key as read from a file: `Other` only for a name that no listed key has. */
  predicate Canonical(k: Key)
  {
    KeyOf(NameOf(k)) == k
  }

  /** Every listed key is canonical, and so is `Other(n)` exactly when n is no listed name. */
  lemma CanonicalKeys(k: Key)
    ensures !k.Other? ==> Canonical(k)
    ensures k.Other? ==> (Canonical(k) <==> KeyOf(k.name).Other?)
  {
  }

  /** Reading the names of canonical keys gives the same keys: one key per attribute name. */
  lemma NamesIdentifyKeys(k1: Key, k2: Key)
    requires Canonical(k1) && Canonical(k2)
    ensures NameOf(k1) == NameOf(k2) <==> k1 == k2
  {
  }

  /** The grid attribute of the files regridded to N96e. */
  const N96eGrid: string := "regular 1.875 x 1.25 degree longitude-latitude grid (N96e)"

  /** The institution attribute every script writes. */
  const Cambridge: string := "Centre for Atmospheric Science, Department of Chemistry, University of Cambridge, U.K."

  /** The line a script adds to the history: a timestamp, the script's path and a newline. */
  function HistoryEntry(stamp: string, script: string): string
  {
    stamp + ": " + script + " \n"
  }

  /** The new history is the script's entry in front of the previous history. */
  function PrependedHistory(stamp: string, script: string, previous: string): (h: string)
    ensures |h| == |HistoryEntry(stamp, script)| + |previous|
    ensures h[..|stamp|] == stamp
    ensures h[|h| - |previous|..] == previous
  {
    HistoryEntry(stamp, script) + previous
  }

  /** Removing the entry a script added gives back the history it found. */
  function DropHistoryEntry(stamp: string, script: string, h: string): (previous: string)
    requires |HistoryEntry(stamp, script)| <= |h|
  {
    h[|HistoryEntry(stamp, script)|..]
  }

  lemma DropPrependedHistory(stamp: string, script: string, previous: string)
    ensures DropHistoryEntry(stamp, script, PrependedHistory(stamp, script, previous)) == previous
  {
  }

  /** Every earlier history survives, as a suffix, any number of later runs. */
  lemma {:induction false} HistoryKeepsEarlierRuns(runs: seq<(string, string)>, original: string)
    ensures EndsWith(Rerun(runs, original), original)
  {
    if |runs| > 0 {
      HistoryKeepsEarlierRuns(runs[..|runs| - 1], original);
      var before := Rerun(runs[..|runs| - 1], original);
      EndsWithPrefixed(HistoryEntry(runs[|runs| - 1].0, runs[|runs| - 1].1), before, original);
    }
  }

  /** A suffix of a string is a suffix of anything put in front of it. */
  lemma EndsWithPrefixed(prefix: string, s: string, suffix: string)
    requires EndsWith(s, suffix)
    ensures EndsWith(prefix + s, suffix)
  {
    assert (prefix + s)[|prefix + s| - |suffix|..] == s[|s| - |suffix|..];
  }

  predicate EndsWith(s: string, suffix: string)
  {
    |suffix| <= |s| && s[|s| - |suffix|..] == suffix
  }

  /** The history after running the scripts `runs` (timestamp, path) one after another. */
  function Rerun(runs: seq<(string, string)>, original: string): string
  {
    if |runs| == 0 then original
    else PrependedHistory(runs[|runs| - 1].0, runs[|runs| - 1].1, Rerun(runs[..|runs| - 1], original))
  }

  /**
   * The attribute dictionary after a script's edits: the loaded attributes overwritten
   * by its assignments, the history entry of `run` (timestamp, script path) when it
   * writes one, and the deleted keys removed.
   */
  function Edited(loaded: map<Key, Value>, assignments: map<Key, Value>, run: Option<(string, string)>, deleted: set<Key>): map<Key, Value>
    requires run.Some? ==> History in loaded && loaded[History].Text?
  {
    var written := loaded + assignments;
    var dated := if run.Some? then written[History := Text(PrependedHistory(run.value.0, run.value.1, loaded[History].s))] else written;
    dated - deleted
  }

  /** The attribute dictionary a script saves: its edits, and last `missing_value` forced to the fill value. */
  function Assemble(loaded: map<Key, Value>, assignments: map<Key, Value>, run: Option<(string, string)>, deleted: set<Key>): map<Key, Value>
    requires run.Some? ==> History in loaded && loaded[History].Text?
  {
    Edited(loaded, assignments, run, deleted)[MissingValue := Number(FillValue)]
  }

  /** The keys of a script's assignments: never the history, which it prefixes, nor a key it deletes or forces. */
  predicate Disjoint(assignments: map<Key, Value>, deleted: set<Key>)
  {
    History !in assignments && MissingValue !in assignments && MissingValue !in deleted &&
    History !in deleted && assignments.Keys !! deleted
  }

  /** The keys left: those loaded or assignments, less the deleted ones, plus missing_value. */
  lemma AssembleKeys(loaded: map<Key, Value>, assignments: map<Key, Value>, run: Option<(string, string)>, deleted: set<Key>)
    requires run.Some? ==> History in loaded && loaded[History].Text?
    requires Disjoint(assignments, deleted)
    ensures Assemble(loaded, assignments, run, deleted).Keys == loaded.Keys + assignments.Keys - deleted + {MissingValue}
    ensures forall k :: k in deleted ==> k !in Assemble(loaded, assignments, run, deleted)
  {
  }

  /**
   * Every assignments value is in place, every other loaded attribute keeps its value, the
   * old history survives as the end of the new one, and missing_value is the fill value.
   */
  lemma AssembleValues(loaded: map<Key, Value>, assignments: map<Key, Value>, run: Option<(string, string)>, deleted: set<Key>)
    requires run.Some? ==> History in loaded && loaded[History].Text?
    requires Disjoint(assignments, deleted)
    ensures var m := Assemble(loaded, assignments, run, deleted);
      (forall k :: k in assignments ==> k in m && m[k] == assignments[k]) &&
      (forall k :: k in loaded && k !in assignments && k !in deleted && k != History && k != MissingValue ==> k in m && m[k] == loaded[k]) &&
      (History in loaded && run.None? ==> History in m && m[History] == loaded[History]) &&
      (run.Some? ==>
         History in m && m[History].Text? &&
         m[History].s[..|run.value.0|] == run.value.0 && EndsWith(m[History].s, loaded[History].s)) &&
      MissingValue in m && m[MissingValue] == Number(FillValue)
  {
    var m := Assemble(loaded, assignments, run, deleted);
    if run.Some? {
      var h := PrependedHistory(run.value.0, run.value.1, loaded[History].s);
      assert m[History] == Text(h);
    }
  }

  /**
   * A script that assigns `before` ahead of its history entry and `after` behind it edits
   * its loaded attributes as if all its assignments were made at once.
   */
  lemma EditedAroundHistory(loaded: map<Key, Value>, before: map<Key, Value>, after: map<Key, Value>, stamp: string, script: string, deleted: set<Key>)
    requires History in loaded && loaded[History].Text?
    requires History !in before && History !in after
    ensures ((loaded + before)[History := Text(PrependedHistory(stamp, script, loaded[History].s))] + after) - deleted
      == Edited(loaded, before + after, Some((stamp, script)), deleted)
  {
    var h := Text(PrependedHistory(stamp, script, loaded[History].s));
    assert (loaded + before)[History := h] + after == (loaded + (before + after))[History := h];
  }

  /** A non-empty string of decimal digits: the scripts write every number attribute as one. */
  predicate IsDecimal(s: string)
  {
    |s| > 0 && forall i :: 0 <= i < |s| ==> '0' <= s[i] <= '9'
  }

  /** The number a string of decimal digits denotes. */
  function DecimalValue(s: string): nat
    requires forall i :: 0 <= i < |s| ==> '0' <= s[i] <= '9'
  {
    if |s| == 0 then 0 else 10 * DecimalValue(s[..|s| - 1]) + (s[|s| - 1] as int - '0' as int)
  }

  /** The attributes the netCDF saver writes on the data variable: those named in `localKeys`. */
  function LocalAttributes(attrs: map<Key, Value>, localKeys: seq<Key>): (r: map<Key, Value>)
    ensures forall k :: k in r <==> k in attrs && k in localKeys
    ensures forall k :: k in r ==> r[k] == attrs[k]
  {
    map k | k in attrs && k in localKeys :: attrs[k]
  }

  /** The attributes the netCDF saver writes as global attributes of the file: all the others. */
  function GlobalAttributes(attrs: map<Key, Value>, localKeys: seq<Key>): (r: map<Key, Value>)
    ensures forall k :: k in r <==> k in attrs && k !in localKeys
    ensures forall k :: k in r ==> r[k] == attrs[k]
  {
    map k | k in attrs && k !in localKeys :: attrs[k]
  }

  /**
   * Saving splits the attributes without loss: every attribute is written exactly once,
   * with its value, and a local key the cube does not carry is not written at all.
   */
  lemma SaveSplitsAttributes(attrs: map<Key, Value>, localKeys: seq<Key>)
    ensures LocalAttributes(attrs, localKeys).Keys !! GlobalAttributes(attrs, localKeys).Keys
    ensures LocalAttributes(attrs, localKeys) + GlobalAttributes(attrs, localKeys) == attrs
    ensures forall k :: k in localKeys && k !in attrs ==> k !in LocalAttributes(attrs, localKeys)
  {
  }

  class Cube {
    var attributes: map<Key, Value>
    var data: NdArray
    var shape: seq<nat>
    /** The kind of each data dimension, in order. */
    var dims: seq<Dim>
    var time: Coord
    /** The vertical coordinate: a scalar coordinate, or the coordinate of the Z dimension. */
    var level: Option<Coord>
    var frt: Option<Coord>
    var fp: Option<Coord>
    var cellMethods: seq<CellMethod>
    var fillValue: Option<real>
    /** The dimensions whose coordinates carry bounds; the scripts guess those of x and y. */
    var bounded: set<Dim>

    ghost predicate Valid()
      reads this
    {
      HasShape(data, shape) && |dims| == |shape| && (Z in dims ==> level.Some?)
    }

    /** A cube as loaded from the emissions file (or as returned by the regridding). */
    constructor (attributes: map<Key, Value>, data: NdArray, shape: seq<nat>, dims: seq<Dim>, time: Coord,
                 level: Option<Coord>, frt: Option<Coord>, fp: Option<Coord>, cellMethods: seq<CellMethod>,
                 bounded: set<Dim>)
      requires HasShape(data, shape) && |dims| == |shape| && (Z in dims ==> level.Some?)
      requires forall k :: k in attributes ==> Canonical(k)
      ensures Valid()
      ensures this.attributes == attributes && this.data == data && this.shape == shape && this.dims == dims
      ensures this.time == time && this.level == level && this.frt == frt && this.fp == fp
      ensures this.cellMethods == cellMethods && this.fillValue == None && this.bounded == bounded
    {
      this.attributes, this.data, this.shape, this.dims, this.time := attributes, data, shape, dims, time;
      this.level, this.frt, this.fp, this.cellMethods, this.fillValue := level, frt, fp, cellMethods, None;
      this.bounded := bounded;
    }

    /**
     * `cube.attributes[key] = value`.  Iris refuses the restricted keys with a ValueError;
     * every key the scripts assign this way is a literal outside them.
     */
    method SetAttribute(key: Key, value: Value)
      requires key !in RestrictedKeys
      modifies this`attributes
      ensures attributes == old(attributes)[key := value]
    {
      attributes := attributes[key := value];
    }

    /** `dict.__setitem__(cube.attributes, key, value)`: plain dictionary assignment, any key. */
    method ForceAttribute(key: Key, value: Value)
      modifies this`attributes
      ensures attributes == old(attributes)[key := value]
    {
      attributes := attributes[key := value];
    }

    /** `del cube.attributes[key]`, a KeyError when the key is absent. */
    method DeleteAttribute(key: Key) returns (r: Outcome)
      modifies this`attributes
      ensures r == if key in old(attributes) then Pass else Fail(KeyError(key))
      ensures attributes == if key in old(attributes) then old(attributes) - {key} else old(attributes)
    {
      if key !in attributes {
        r := Fail(KeyError(key));
      } else {
        attributes := attributes - {key};
        r := Pass;
      }
    }

    /**
     * `attributes['history'] = stamp + ': ' + script + ' \n' + attributes['history']`:
     * a KeyError without a history, a TypeError when it is not a string.
     */
    method PrependHistory(stamp: string, script: string) returns (r: Outcome)
      modifies this`attributes
      ensures r == if History !in old(attributes) then Fail(KeyError(History))
                   else if !old(attributes)[History].Text? then Fail(TypeError)
                   else Pass
      ensures attributes == if r.Pass? then old(attributes)[History := Text(PrependedHistory(stamp, script, old(attributes)[History].s))]
                            else old(attributes)
    {
      if History !in attributes {
        r := Fail(KeyError(History));
      } else if !attributes[History].Text? {
        r := Fail(TypeError);
      } else {
        attributes := attributes[History := Text(PrependedHistory(stamp, script, attributes[History].s))];
        r := Pass;
      }
    }

    /** `coord(axis='t').var_name = 'time'` and `.standard_name = 'time'`. */
    method NameTime()
      modifies this`time
      ensures time == old(time).(name := "time")
    {
      time := time.(name := "time");
    }

    /** `coords(axis='t')[0].units = ...`: new units, the points are not converted. */
    method SetTimeUnits(units: Units)
      modifies this`time
      ensures time == old(time).(units := units)
    {
      time := time.(units := units);
    }

    /**
     * `coord(axis='t').points = points`: a dimension coordinate keeps its length and
     * needs strictly monotonic points, otherwise a ValueError.
     */
    method SetTimePoints(points: seq<real>) returns (r: Outcome)
      modifies this`time
      ensures r == if |points| == |old(time.points)| && StrictlyMonotonic(points) then Pass else Fail(ValueError)
      ensures time == if r.Pass? then old(time).(points := points) else old(time)
    {
      if |points| != |time.points| || !StrictlyMonotonic(points) {
        r := Fail(ValueError);
      } else {
        time := time.(points := points);
        r := Pass;
      }
    }

    /** `add_aux_coord(c)` of a scalar vertical coordinate; a second one is a duplicate. */
    method AddScalarLevel(c: Coord) returns (r: Outcome)
      requires Valid()
      modifies this`level
      ensures Valid()
      ensures r == if old(level).None? then Pass else Fail(ValueError)
      ensures level == if r.Pass? then Some(c) else old(level)
    {
      if level.Some? {
        r := Fail(ValueError);
      } else {
        level := Some(c);
        r := Pass;
      }
    }

    /** `cube = iris.util.new_axis(cube, level)`: the scalar vertical coordinate becomes a new leading dimension. */
    method PromoteLevel() returns (r: Outcome)
      requires Valid()
      modifies this`data, this`shape, this`dims
      ensures Valid()
      ensures r == if level.None? then Fail(CoordinateNotFound) else if Z in old(dims) then Fail(ValueError) else Pass
      ensures r.Pass? ==> data == NewAxis(old(data)) && shape == [1] + old(shape) && dims == [Z] + old(dims)
      ensures r.Fail? ==> data == old(data) && shape == old(shape) && dims == old(dims)
    {
      if level.None? {
        r := Fail(CoordinateNotFound);
      } else if Z in dims {
        r := Fail(ValueError);
      } else {
        data, shape, dims := NewAxis(data), [1] + shape, [Z] + dims;
        r := Pass;
      }
    }

    /** `cube.transpose([1, 0, 2, 3])`: exchange the first two of four dimensions, else a ValueError. */
    method TransposeLeading() returns (r: Outcome)
      requires Valid()
      modifies this`data, this`shape, this`dims
      ensures Valid()
      ensures r == if |old(shape)| == 4 then Pass else Fail(ValueError)
      ensures r.Pass? ==>
        LeadingPair(old(data), old(shape)[1]) && data == SwapLeading(old(data), old(shape)[1]) &&
        shape == [old(shape)[1], old(shape)[0], old(shape)[2], old(shape)[3]] &&
        dims == [old(dims)[1], old(dims)[0], old(dims)[2], old(dims)[3]]
      ensures r.Fail? ==> data == old(data) && shape == old(shape) && dims == old(dims)
    {
      if |shape| != 4 {
        r := Fail(ValueError);
      } else {
        assert shape == [shape[0], shape[1]] + shape[2..];
        SwapLeadingShape(data, shape[0], shape[1], shape[2..]);
        assert [shape[1], shape[0]] + shape[2..] == [shape[1], shape[0], shape[2], shape[3]];
        data := SwapLeading(data, shape[1]);
        shape := [shape[1], shape[0], shape[2], shape[3]];
        assert Z in dims ==> Z in [dims[1], dims[0], dims[2], dims[3]];
        dims := [dims[1], dims[0], dims[2], dims[3]];
        r := Pass;
      }
    }

    /**
     * `coord(axis=d).guess_bounds()`: Iris refuses, with a ValueError, to guess bounds
     * for a coordinate that already has them.
     */
    method GuessBounds(d: Dim) returns (r: Outcome)
      modifies this`bounded
      ensures r == if d in old(bounded) then Fail(ValueError) else Pass
      ensures bounded == old(bounded) + {d}
    {
      if d in bounded {
        r := Fail(ValueError);
      } else {
        bounded := bounded + {d};
        r := Pass;
      }
    }

    /**
     * `coord('latitude').bounds = coord('latitude').bounds.astype('float64')`: same values,
     * but without latitude bounds `bounds` is None and has no `astype`, an AttributeError.
     */
    method CastLatitudeBounds() returns (r: Outcome)
      ensures r == if Y in bounded then Pass else Fail(AttributeError)
    {
      r := if Y in bounded then Pass else Fail(AttributeError);
    }

    /**
     * `coord('forecast_reference_time').guess_bounds()`: the coordinate must be there;
     * Iris refuses, with a ValueError, one whose points are not strictly monotonic, one of
     * fewer than two points and one with bounds.
     */
    method GuessForecastReferenceTimeBounds() returns (r: Outcome)
      modifies this`frt
      ensures r == if old(frt).None? then Fail(CoordinateNotFound)
                   else if !StrictlyMonotonic(old(frt).value.points) || |old(frt).value.points| < 2
                           || old(frt).value.bounds != [] then Fail(ValueError)
                   else Pass
      ensures r.Pass? ==> frt == Some(old(frt).value.(bounds := GuessedBounds(old(frt).value.points)))
      ensures r.Fail? ==> frt == old(frt)
    {
      if frt.None? {
        r := Fail(CoordinateNotFound);
      } else if !StrictlyMonotonic(frt.value.points) || |frt.value.points| < 2 || frt.value.bounds != [] {
        r := Fail(ValueError);
      } else {
        frt := Some(frt.value.(bounds := GuessedBounds(frt.value.points)));
        r := Pass;
      }
    }

    /** `coord(axis='z').points = ....astype('float64')`: same values, but the cube needs a vertical coordinate. */
    method CastLevelPoints() returns (r: Outcome)
      ensures r == if level.None? then Fail(CoordinateNotFound) else Pass
    {
      r := if level.None? then Fail(CoordinateNotFound) else Pass;
    }

    /** `add_aux_coord(c, data_dims=0)`: the coordinate must span the leading dimension. */
    method AddForecastReferenceTime(c: Coord) returns (r: Outcome)
      modifies this`frt
      ensures r == if old(frt).None? && |shape| > 0 && |c.points| == shape[0] then Pass else Fail(ValueError)
      ensures frt == if r.Pass? then Some(c) else old(frt)
    {
      if frt.Some? || |shape| == 0 || |c.points| != shape[0] {
        r := Fail(ValueError);
      } else {
        frt := Some(c);
        r := Pass;
      }
    }

    /** `add_aux_coord(c, data_dims=None)`: a scalar coordinate must hold exactly one point. */
    method AddForecastPeriod(c: Coord) returns (r: Outcome)
      modifies this`fp
      ensures r == if old(fp).None? && |c.points| == 1 then Pass else Fail(ValueError)
      ensures fp == if r.Pass? then Some(c) else old(fp)
    {
      if fp.Some? || |c.points| != 1 {
        r := Fail(ValueError);
      } else {
        fp := Some(c);
        r := Pass;
      }
    }

    /** `cube.cell_methods = methods`. */
    method SetCellMethods(methods: seq<CellMethod>)
      modifies this`cellMethods
      ensures cellMethods == methods
    {
      cellMethods := methods;
    }

    /** `cube.data = numpy.ma.array(data=cube.data, fill_value=v, dtype='float32')`: same values, new fill value. */
    method SetFillValue(v: real)
      modifies this`fillValue
      ensures fillValue == Some(v)
    {
      fillValue := Some(v);
    }
  }
}
