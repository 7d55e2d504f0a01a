/**
 * plot_utils: the data side of the plots. A scan file becomes a matrix over the sorted
 * distinct coordinates, the live plot switches between a surface and a line, the current
 * view pairs the orientations cell by cell, and the selector derives and reuses the
 * combined file and fixes a common colour range. Drawing itself is not modelled.
 */
module PlotUtils {
  import opened Wrappers
  import opened Numeric
  import opened PyStrings
  import opened FileUtils

  // ---------------------------------------------------------------------------
  // Sorted distinct coordinates: sorted(set(values))

  predicate StrictlyIncreasing(s: seq<real>) {
    forall i, j :: 0 <= i < j < |s| ==> s[i] < s[j]
  }

  /** Inserts v into a strictly increasing list unless it is already there. */
  function Insert(sorted: seq<real>, v: real): (r: seq<real>)
    requires StrictlyIncreasing(sorted)
    ensures StrictlyIncreasing(r)
    ensures forall u :: u in r <==> u == v || u in sorted
  {
    if |sorted| == 0 then [v]
    else if v < sorted[0] then [v] + sorted
    else if v == sorted[0] then sorted
    else
      var rest := Insert(sorted[1..], v);
      assert forall u :: u in sorted <==> u == sorted[0] || u in sorted[1..];
      assert forall u :: u in rest ==> sorted[0] < u;
      ConsIncreasing(sorted[0], rest);
      [sorted[0]] + rest
  }

  lemma ConsIncreasing(a: real, s: seq<real>)
    requires StrictlyIncreasing(s)
    requires forall u :: u in s ==> a < u
    ensures StrictlyIncreasing([a] + s)
  {
    forall i, j | 0 <= i < j < |s| + 1
      ensures ([a] + s)[i] < ([a] + s)[j]
    {
      assert ([a] + s)[j] == s[j - 1] && s[j - 1] in s;
      if i > 0 {
        assert ([a] + s)[i] == s[i - 1];
      }
    }
  }

  /** sorted(set(values)): the distinct values in increasing order. */
  function SortedSet(values: seq<real>): (r: seq<real>)
    ensures StrictlyIncreasing(r)
    ensures forall u :: u in r <==> u in values
  {
    if |values| == 0 then []
    else
      var init := values[..|values| - 1];
      assert values == init + [values[|values| - 1]];
      Insert(SortedSet(init), values[|values| - 1])
  }

  /** list.index(v): the first position of v, or the ValueError it raises. */
  function IndexOf(s: seq<real>, v: real): (r: Result<nat>)
    ensures r.Ok? <==> v in s
    ensures r.Ok? ==> r.value < |s| && s[r.value] == v && forall k :: 0 <= k < r.value ==> s[k] != v
    ensures r.Err? ==> r.error == ValueError
  {
    if |s| == 0 then Err(ValueError)
    else if s[0] == v then Ok(0)
    else match IndexOf(s[1..], v)
      case Ok(k) => Ok(k + 1)
      case Err(e) => Err(e)
  }

  // ---------------------------------------------------------------------------
  // The matrix fill shared by load_data and update_plot

  /** A stored strength as a double: None becomes NaN, as numpy does when it is stored in a float matrix. */
  function AsFloat(s: Option<real>): (f: Float)
    ensures f.NaN? <==> s.None?
  {
    if s.Some? then Num(s.value) else NaN
  }

  /** Whether a write of point p lands in the matrix: update_plot skips None strengths. */
  predicate Writes(p: Point, skipNone: bool) {
    !(skipNone && p.fieldStrength.None?)
  }

  /**
   * The value the cell at (x, y) holds after writing `results` in order into a NaN matrix:
   * the strength of the last point written there, or NaN if there is none.
   */
  function CellValue(results: seq<Point>, x: real, y: real, skipNone: bool): Float
  {
    if |results| == 0 then NaN
    else
      var p := results[|results| - 1];
      if p.x == x && p.y == y && Writes(p, skipNone) then AsFloat(p.fieldStrength)
      else CellValue(results[..|results| - 1], x, y, skipNone)
  }

  /** The last point written at (x, y) decides its cell; a cell no point reaches stays NaN. */
  lemma {:induction false} CellValueIsLastWrite(results: seq<Point>, x: real, y: real, skipNone: bool)
    ensures (forall k :: 0 <= k < |results| ==> !(results[k].x == x && results[k].y == y && Writes(results[k], skipNone)))
              ==> CellValue(results, x, y, skipNone) == NaN
    ensures forall k :: 0 <= k < |results| && results[k].x == x && results[k].y == y && Writes(results[k], skipNone)
                        && (forall m :: k < m < |results| ==> !(results[m].x == x && results[m].y == y && Writes(results[m], skipNone)))
              ==> CellValue(results, x, y, skipNone) == AsFloat(results[k].fieldStrength)
  {
    if |results| > 0 {
      var init := results[..|results| - 1];
      CellValueIsLastWrite(init, x, y, skipNone);
      assert forall k :: 0 <= k < |init| ==> init[k] == results[k];
    }
  }

  predicate OnAxes(p: Point, xs: seq<real>, ys: seq<real>) {
    p.x in xs && p.y in ys
  }

  /**
   * The fill loop of load_data and update_plot: a NaN matrix of len(ys) rows and len(xs)
   * columns, each point written at [index of its y, index of its x]; a point off the
   * axes makes list.index raise ValueError, whatever its strength.
   */
  method FillMatrix(results: seq<Point>, xs: seq<real>, ys: seq<real>, skipNone: bool)
    returns (r: Result<array2<Float>>)
    requires StrictlyIncreasing(xs) && StrictlyIncreasing(ys)
    ensures r.Err? <==> exists k :: 0 <= k < |results| && !OnAxes(results[k], xs, ys)
    ensures r.Err? ==> r.error == ValueError
    ensures r.Ok? ==> fresh(r.value) && r.value.Length0 == |ys| && r.value.Length1 == |xs|
    ensures r.Ok? ==> forall i, j :: 0 <= i < |ys| && 0 <= j < |xs| ==>
                        r.value[i, j] == CellValue(results, xs[j], ys[i], skipNone)
  {
    var z := new Float[|ys|, |xs|]((i, j) => NaN);
    for k := 0 to |results|
      invariant forall m :: 0 <= m < k ==> OnAxes(results[m], xs, ys)
      invariant forall i, j :: 0 <= i < |ys| && 0 <= j < |xs| ==>
                  z[i, j] == CellValue(results[..k], xs[j], ys[i], skipNone)
    {
      var p := results[k];
      var xi := IndexOf(xs, p.x);
      if xi.Err? {
        return Err(ValueError);
      }
      var yi := IndexOf(ys, p.y);
      if yi.Err? {
        return Err(ValueError);
      }
      assert results[..k + 1][..k] == results[..k];
      if Writes(p, skipNone) {
        z[yi.value, xi.value] := AsFloat(p.fieldStrength);
      }
      forall i, j | 0 <= i < |ys| && 0 <= j < |xs|
        ensures z[i, j] == CellValue(results[..k + 1], xs[j], ys[i], skipNone)
      {
        if i != yi.value || j != xi.value {
          assert !(p.x == xs[j] && p.y == ys[i]);
        }
      }
    }
    assert results[..|results|] == results;
    return Ok(z);
  }

  // ---------------------------------------------------------------------------
  // load_data

  /** What load_data returns: the matrix, the board size and the resolution. */
  datatype Loaded = Loaded(grid: array2<Float>, xs: seq<real>, ys: seq<real>, pcbSize: MetaValue, resolution: MetaValue)

  /** The points of a loaded document: data.get("results", []). */
  function LoadedResults(d: JsonFile): seq<Point>
    requires d.Object?
  {
    d.results.GetOr([])
  }

  /** metadata.get("PCB_SIZE", [1.0, 1.0]) of data.get("metadata", {}). */
  function PcbSize(d: JsonFile): (v: MetaValue)
    requires d.Object?
    ensures d.metadata.None? || "PCB_SIZE" !in d.metadata.value ==> v == MetaSize(1.0, 1.0)
  {
    var m := d.metadata.GetOr(map[]);
    if "PCB_SIZE" in m then m["PCB_SIZE"] else MetaSize(1.0, 1.0)
  }

  /** metadata.get("resolution", 30) of data.get("metadata", {}). */
  function Resolution(d: JsonFile): (v: MetaValue)
    requires d.Object?
    ensures d.metadata.None? || "resolution" !in d.metadata.value ==> v == MetaNum(30.0)
  {
    var m := d.metadata.GetOr(map[]);
    if "resolution" in m then m["resolution"] else MetaNum(30.0)
  }

  function Xs(ps: seq<Point>): (r: seq<real>)
    ensures |r| == |ps| && forall k :: 0 <= k < |ps| ==> r[k] == ps[k].x
  {
    seq(|ps|, k requires 0 <= k < |ps| => ps[k].x)
  }

  function Ys(ps: seq<Point>): (r: seq<real>)
    ensures |r| == |ps| && forall k :: 0 <= k < |ps| ==> r[k] == ps[k].y
  {
    seq(|ps|, k requires 0 <= k < |ps| => ps[k].y)
  }

  /** Whether load_data gets past the extension check, the read and `data.get`. */
  predicate Loadable(fs: FileStore, path: string) {
    EndsWith(path, ".json") && ReadJson(fs, path).Ok? && fs[path].Object?
  }

  /**
   * load_data: a path without the ".json" extension, a missing or malformed file, or a
   * document that is a bare list (which has no `get`) gives (None, None, None); otherwise
   * the matrix over the sorted distinct coordinates of the points, later points
   * overwriting earlier ones at the same coordinates, a null strength stored as NaN.
   */
  method LoadData(fs: FileStore, path: string) returns (r: Option<Loaded>)
    ensures r.Some? <==> Loadable(fs, path)
    ensures r.Some? ==>
      var results := LoadedResults(fs[path]);
      var l := r.value;
      && fresh(l.grid)
      && l.xs == SortedSet(Xs(results)) && l.ys == SortedSet(Ys(results))
      && l.grid.Length0 == |l.ys| && l.grid.Length1 == |l.xs|
      && (forall i, j :: 0 <= i < |l.ys| && 0 <= j < |l.xs| ==> l.grid[i, j] == CellValue(results, l.xs[j], l.ys[i], false))
      && l.pcbSize == PcbSize(fs[path]) && l.resolution == Resolution(fs[path])
  {
    if !EndsWith(path, ".json") {
      return None;
    }
    var data := ReadJson(fs, path);
    if data.Err? || !data.value.Object? {
      return None;
    }
    var results := LoadedResults(data.value);
    var xs, ys := SortedSet(Xs(results)), SortedSet(Ys(results));
    forall k | 0 <= k < |results|
      ensures OnAxes(results[k], xs, ys)
    {
      assert Xs(results)[k] in Xs(results) && Ys(results)[k] in Ys(results);
    }
    var z := FillMatrix(results, xs, ys, false);
    return Some(Loaded(z.value, xs, ys, PcbSize(data.value), Resolution(data.value)));
  }

  // ---------------------------------------------------------------------------
  // update_plot

  /** Python's ordering of (x, strength) tuples: by x, then by strength. */
  predicate PairLe(a: (real, real), b: (real, real)) {
    a.0 < b.0 || (a.0 == b.0 && a.1 <= b.1)
  }

  predicate SortedPairs(s: seq<(real, real)>) {
    forall i, j :: 0 <= i < j < |s| ==> PairLe(s[i], s[j])
  }

  function InsertPair(sorted: seq<(real, real)>, v: (real, real)): (r: seq<(real, real)>)
    requires SortedPairs(sorted)
    ensures |r| == |sorted| + 1
    ensures r[0] == v || (|sorted| > 0 && r[0] == sorted[0])
    ensures SortedPairs(r)
    ensures multiset(r) == multiset(sorted) + multiset{v}
  {
    if |sorted| == 0 then [v]
    else if PairLe(v, sorted[0]) then [v] + sorted
    else
      var rest := InsertPair(sorted[1..], v);
      assert sorted == [sorted[0]] + sorted[1..];
      assert PairLe(sorted[0], rest[0]);
      [sorted[0]] + rest
  }

  /** sorted() of a list of (x, strength) tuples. */
  function SortPairs(s: seq<(real, real)>): (r: seq<(real, real)>)
    ensures SortedPairs(r)
    ensures multiset(r) == multiset(s)
  {
    if |s| == 0 then []
    else
      assert s == s[..|s| - 1] + [s[|s| - 1]];
      InsertPair(SortPairs(s[..|s| - 1]), s[|s| - 1])
  }

  /** The (x, strength) pairs of the points whose strength is not None, in scan order. */
  function ValidPairs(results: seq<Point>): (r: seq<(real, real)>)
    ensures |r| <= |results|
  {
    if |results| == 0 then []
    else
      var p := results[|results| - 1];
      ValidPairs(results[..|results| - 1]) + (if p.fieldStrength.Some? then [(p.x, p.fieldStrength.value)] else [])
  }

  /** The line shows exactly the points that have a strength: each pair comes from one of them, and each of them gives a pair. */
  lemma {:induction false} ValidPairsArePoints(results: seq<Point>)
    ensures forall k :: 0 <= k < |ValidPairs(results)| ==>
              exists m :: 0 <= m < |results| && results[m].fieldStrength == Some(ValidPairs(results)[k].1)
                                             && results[m].x == ValidPairs(results)[k].0
    ensures forall m :: 0 <= m < |results| && results[m].fieldStrength.Some? ==>
              (results[m].x, results[m].fieldStrength.value) in ValidPairs(results)
  {
    if |results| == 0 {
      assert ValidPairs(results) == [];
    } else {
      var init, p := results[..|results| - 1], results[|results| - 1];
      ValidPairsArePoints(init);
      var before := ValidPairs(init);
      var r := ValidPairs(results);
      assert r == before + (if p.fieldStrength.Some? then [(p.x, p.fieldStrength.value)] else []);
      forall k | 0 <= k < |r|
        ensures exists m :: 0 <= m < |results| && results[m].fieldStrength == Some(r[k].1) && results[m].x == r[k].0
      {
        if k < |before| {
          var m :| 0 <= m < |init| && init[m].fieldStrength == Some(before[k].1) && init[m].x == before[k].0;
          assert init[m] == results[m] && r[k] == before[k];
        } else {
          assert results[|results| - 1] == p;
        }
      }
      forall m | 0 <= m < |results| && results[m].fieldStrength.Some?
        ensures (results[m].x, results[m].fieldStrength.value) in r
      {
        if m < |init| {
          assert init[m] == results[m];
        }
      }
    }
  }

  /** What the live plot shows: a surface over the grid axes, or a line along x. */
  datatype LivePlot =
    | Surface(xs: seq<real>, ys: seq<real>, z: array2<Float>)
    | Line(points: seq<(real, real)>)

  /**
   * update_plot: with more than one distinct y on the grid axes, a NaN matrix over them in
   * which a None strength leaves its cell as it was; a point off the axes raises
   * ValueError. With one distinct y or none, the points with a strength, sorted by x.
   */
  method UpdatePlot(results: seq<Point>, xValues: seq<real>, yValues: seq<real>) returns (r: Result<LivePlot>)
    ensures |SortedSet(yValues)| > 1 ==>
      && (r.Err? <==> exists k :: 0 <= k < |results| && !OnAxes(results[k], xValues, yValues))
      && (r.Err? ==> r.error == ValueError)
      && (r.Ok? ==>
            && r.value.Surface? && fresh(r.value.z)
            && r.value.xs == SortedSet(xValues) && r.value.ys == SortedSet(yValues)
            && r.value.z.Length0 == |r.value.ys| && r.value.z.Length1 == |r.value.xs|
            && forall i, j :: 0 <= i < |r.value.ys| && 0 <= j < |r.value.xs| ==>
                 r.value.z[i, j] == CellValue(results, r.value.xs[j], r.value.ys[i], true))
    ensures |SortedSet(yValues)| <= 1 ==>
      r.Ok? && r.value.Line? && SortedPairs(r.value.points) && multiset(r.value.points) == multiset(ValidPairs(results))
  {
    var uniqueX, uniqueY := SortedSet(xValues), SortedSet(yValues);
    if |uniqueY| > 1 {
      var z := FillMatrix(results, uniqueX, uniqueY, true);
      assert forall p :: OnAxes(p, uniqueX, uniqueY) <==> OnAxes(p, xValues, yValues);
      if z.Err? {
        return Err(z.error);
      }
      return Ok(Surface(uniqueX, uniqueY, z.value));
    }
    return Ok(Line(SortPairs(ValidPairs(results))));
  }

  /**
   * The two fills differ on a None strength: update_plot keeps what the cell held, load_data
   * stores NaN over it.
   */
  lemma NoneSkippedOrStored(x: real, y: real, v: real)
    ensures var results := [Point(x, y, Some(v)), Point(x, y, None)];
      CellValue(results, x, y, true) == Num(v) && CellValue(results, x, y, false) == NaN
  {
    var results := [Point(x, y, Some(v)), Point(x, y, None)];
    assert results[..1] == [Point(x, y, Some(v))];
    assert results[..1][..0] == [];
  }

  // ---------------------------------------------------------------------------
  // show_currents

  /** One entry of the current view: position, linear intensity and field angle. */
  datatype Current = Current(x: real, y: real, intensity: real, angle: real)

  /** sqrt(f0^2 + f90^2) of the linear 0° and 90° powers. */
  function Intensity(t: Transcendental, dbm0: real, dbm90: real): real {
    Magnitude(t, Linear(t, dbm0), Linear(t, dbm90))
  }

  /** arctan2(f90 - f0, f45) of the linear powers. */
  function Angle(t: Transcendental, dbm0: real, dbm90: real, dbm45: real): real {
    t.atan2(Linear(t, dbm90) - Linear(t, dbm0), Linear(t, dbm45))
  }

  /** Whether the 45° results are used: `if results_45d` is false for a missing file and for an empty list. */
  predicate Uses45(r45: Option<seq<Point>>) {
    r45.Some? && |r45.value| > 0
  }

  /**
   * The entry for the i-th 0° point, or what computing it raises: the 90° (and 45°) lists
   * are indexed by position first, then a None strength fails the dBm conversion. Without
   * 45° data the 45° strength is 0 dBm.
   */
  function CurrentAt(t: Transcendental, r0: seq<Point>, r90: seq<Point>, r45: Option<seq<Point>>, i: nat): (r: Result<Current>)
    requires i < |r0|
    ensures r.Err? <==> i >= |r90| || (Uses45(r45) && i >= |r45.value|) || r0[i].fieldStrength.None?
                        || r90[i].fieldStrength.None? || (Uses45(r45) && r45.value[i].fieldStrength.None?)
    ensures r.Err? ==> r.error == (if i >= |r90| || (Uses45(r45) && i >= |r45.value|) then IndexError else TypeError)
    ensures r.Ok? ==> r.value.x == r0[i].x && r.value.y == r0[i].y
    ensures r.Ok? ==> r.value.intensity == Intensity(t, r0[i].fieldStrength.value, r90[i].fieldStrength.value)
    ensures r.Ok? ==> r.value.angle == Angle(t, r0[i].fieldStrength.value, r90[i].fieldStrength.value,
                                             if Uses45(r45) then r45.value[i].fieldStrength.value else 0.0)
  {
    if i >= |r90| then Err(IndexError)
    else if Uses45(r45) && i >= |r45.value| then Err(IndexError)
    else if r0[i].fieldStrength.None? || r90[i].fieldStrength.None? || (Uses45(r45) && r45.value[i].fieldStrength.None?)
    then Err(TypeError)
    else
      var dbm0, dbm90 := r0[i].fieldStrength.value, r90[i].fieldStrength.value;
      var dbm45 := if Uses45(r45) then r45.value[i].fieldStrength.value else 0.0;
      Ok(Current(r0[i].x, r0[i].y, Intensity(t, dbm0, dbm90), Angle(t, dbm0, dbm90, dbm45)))
  }

  /**
   * The loop of show_currents: one entry per 0° point, in order, or the exception the
   * first failing point raises.
   */
  method ShowCurrents(t: Transcendental, r0: seq<Point>, r90: seq<Point>, r45: Option<seq<Point>>)
    returns (r: Result<seq<Current>>)
    ensures r.Ok? <==> forall i :: 0 <= i < |r0| ==> CurrentAt(t, r0, r90, r45, i).Ok?
    ensures r.Ok? ==> |r.value| == |r0| && forall i :: 0 <= i < |r0| ==> r.value[i] == CurrentAt(t, r0, r90, r45, i).value
    ensures r.Err? ==> exists i :: 0 <= i < |r0| && CurrentAt(t, r0, r90, r45, i) == Err(r.error)
                                   && forall j :: 0 <= j < i ==> CurrentAt(t, r0, r90, r45, j).Ok?
  {
    var results: seq<Current> := [];
    for i := 0 to |r0|
      invariant |results| == i
      invariant forall j :: 0 <= j < i ==> CurrentAt(t, r0, r90, r45, j).Ok? && results[j] == CurrentAt(t, r0, r90, r45, j).value
    {
      var c := CurrentAt(t, r0, r90, r45, i);
      if c.Err? {
        return Err(c.error);
      }
      results := results + [c.value];
    }
    return Ok(results);
  }

  /**
   * show_currents keeps the intensity linear where combine_scans converts it back: on
   * equal-length 0° and 90° scans, each combined strength is 10*log10 of the intensity
   * the current view computes for the same point.
   */
  lemma CurrentsAgainstCombination(t: Transcendental, fs: FileStore, file0: string, file90: string, i: nat)
    requires Combine(t, fs, file0, file90).Ok?
    requires file0 in fs && fs[file0].Object? && fs[file0].results.Some?
    requires file90 in fs && fs[file90].Object? && fs[file90].results.Some?
    requires |fs[file0].results.value| == |fs[file90].results.value|
    requires i < |fs[file0].results.value|
    ensures var r0, r90 := fs[file0].results.value, fs[file90].results.value;
      var c := CurrentAt(t, r0, r90, None, i);
      && c.Ok?
      && Combine(t, fs, file0, file90).value.results[i].fieldStrength == Some(10.0 * t.log10(c.value.intensity))
  {
    var r0, r90 := fs[file0].results.value, fs[file90].results.value;
    assert ReadJson(fs, file0) == Ok(fs[file0]) && ReadJson(fs, file90) == Ok(fs[file90]);
    assert Strengths(r0).Ok? && Strengths(r90).Ok?;
    var p0, p90 := Strengths(r0).value, Strengths(r90).value;
    assert Combine(t, fs, file0, file90).value.results[i] == CombinedPoint(t, r0, p0, p90, i);
    assert BroadcastIndex(|p0|, i) == i && BroadcastIndex(|p90|, i) == i;
    assert p0[i] == r0[i].fieldStrength.value && p90[i] == r90[i].fieldStrength.value;
    var c := CurrentAt(t, r0, r90, None, i);
    assert c.Ok?;
  }

  // ---------------------------------------------------------------------------
  // plot_with_selector: the combined file and the colour range

  /** file_0d.replace('_0d.json', '_combined.json'). */
  function CombinedPath(file0: string): string {
    ReplaceAll(file0, "_0d.json", "_combined.json")
  }

  /**
   * The combined data of the selector: computed from the 0° and 90° files and written
   * only when the combined path does not exist; an existing file is read as it is, even
   * if the scans changed since it was written. The write is not guarded, so a store that
   * cannot be written raises.
   */
  function CombinedData(t: Transcendental, fs: FileStore, file0: string, file90: string, writable: bool)
    : (r: Result<(JsonFile, FileStore)>)
    ensures CombinedPath(file0) in fs ==> r == (match ReadJson(fs, CombinedPath(file0))
                                               case Ok(d) => Ok((d, fs)) case Err(e) => Err(e))
    ensures CombinedPath(file0) !in fs ==> (r.Ok? <==> Combine(t, fs, file0, file90).Ok? && writable)
    ensures CombinedPath(file0) !in fs && Combine(t, fs, file0, file90).Ok? && !writable ==> r == Err(IOError)
    ensures CombinedPath(file0) !in fs && r.Ok? ==>
      var d := Combine(t, fs, file0, file90).value;
      r.value.0 == Object(Some(d.metadata), Some(d.results))
      && r.value.1 == fs[CombinedPath(file0) := r.value.0]
    ensures r.Ok? ==> !r.value.0.NotJson?
  {
    var path := CombinedPath(file0);
    if path !in fs then
      var d :- Combine(t, fs, file0, file90);
      var doc := Object(Some(d.metadata), Some(d.results));
      if writable then Ok((doc, fs[path := doc])) else Err(IOError)
    else
      var d :- ReadJson(fs, path);
      Ok((d, fs))
  }

  /**
   * The selector as written passes the 45° path as a third argument to the two-parameter
   * combine_scans, so the call raises TypeError before combining anything.
   */
  function CombinedDataAsWritten(fs: FileStore, file0: string): (r: Result<(JsonFile, FileStore)>)
    ensures CombinedPath(file0) !in fs ==> r == Err(TypeError)
    ensures CombinedPath(file0) in fs ==> (r.Ok? <==> ReadJson(fs, CombinedPath(file0)).Ok?)
  {
    var path := CombinedPath(file0);
    if path !in fs then Err(TypeError)
    else
      var d :- ReadJson(fs, path);
      Ok((d, fs))
  }

  /**
   * The two agree once a combined file exists, which scan_field leaves behind; without
   * one, the code as written fails where two combinable scans give a combination.
   */
  lemma CombinedDataAsWrittenDiffers(t: Transcendental, fs: FileStore, file0: string, file90: string, writable: bool)
    ensures CombinedPath(file0) in fs ==> CombinedDataAsWritten(fs, file0) == CombinedData(t, fs, file0, file90, writable)
    ensures CombinedPath(file0) !in fs && Combine(t, fs, file0, file90).Ok? ==>
      CombinedDataAsWritten(fs, file0) == Err(TypeError) && (CombinedData(t, fs, file0, file90, writable).Ok? <==> writable)
  {
  }

  /** A 0° path without "_0d.json" is its own combined path: the selector then shows the 0° file as the combination. */
  lemma CombinedPathWithoutSuffix(t: Transcendental, fs: FileStore, file0: string, file90: string, writable: bool)
    requires !Contains(file0, "_0d.json")
    requires file0 in fs && !fs[file0].NotJson?
    ensures CombinedPath(file0) == file0
    ensures CombinedData(t, fs, file0, file90, writable) == Ok((fs[file0], fs))
  {
    ReplaceAllAbsent(file0, "_0d.json", "_combined.json");
  }

  /** The strengths of every truthy dataset, in order, or what `dataset["results"]` raises. */
  function AllStrengths(datasets: seq<JsonFile>): (r: Result<seq<Option<real>>>)
    requires forall k :: 0 <= k < |datasets| ==> !datasets[k].NotJson?
  {
    if |datasets| == 0 then Ok([])
    else
      var init := datasets[..|datasets| - 1];
      var d := datasets[|datasets| - 1];
      var before :- AllStrengths(init);
      if !Truthy(d) then Ok(before)
      else
        var rs :- ResultsOf(d);
        Ok(before + seq(|rs|, k requires 0 <= k < |rs| => rs[k].fieldStrength))
  }

  datatype Range = Range(vmin: real, vmax: real)

  /** The datasets whose strengths set the colour range: 0°, 90°, combined, then 45° when loaded. */
  function Datasets(d0: JsonFile, d90: JsonFile, dc: JsonFile, d45: Option<JsonFile>): seq<JsonFile> {
    [d0, d90, dc] + (if d45.Some? then [d45.value] else [])
  }

  /**
   * The common colour range of plot_with_selector: min and max over the strengths of the
   * datasets. An empty list raises ValueError and a null strength TypeError (comparing
   * None, or formatting it when it is the only one); otherwise the range exists, bounds
   * every strength and is attained at both ends.
   */
  function ColourRange(d0: JsonFile, d90: JsonFile, dc: JsonFile, d45: Option<JsonFile>): (r: Result<Range>)
    requires !d0.NotJson? && !d90.NotJson? && !dc.NotJson? && (d45.Some? ==> !d45.value.NotJson?)
    ensures var all := AllStrengths(Datasets(d0, d90, dc, d45));
      && (all.Err? ==> r == Err(all.error))
      && (all.Ok? && |all.value| == 0 ==> r == Err(ValueError))
      && (all.Ok? && |all.value| > 0 && (exists k :: 0 <= k < |all.value| && all.value[k].None?) ==> r == Err(TypeError))
      && (all.Ok? && |all.value| > 0 && (forall k :: 0 <= k < |all.value| ==> all.value[k].Some?) ==> r.Ok?)
      && (r.Ok? ==>
            && all.Ok? && |all.value| > 0
            && (forall k :: 0 <= k < |all.value| ==> all.value[k].Some? && r.value.vmin <= all.value[k].value <= r.value.vmax)
            && (exists k :: 0 <= k < |all.value| && all.value[k] == Some(r.value.vmin))
            && (exists k :: 0 <= k < |all.value| && all.value[k] == Some(r.value.vmax)))
  {
    var all :- AllStrengths(Datasets(d0, d90, dc, d45));
    if |all| == 0 then Err(ValueError)
    else if exists k :: 0 <= k < |all| && all[k].None? then Err(TypeError)
    else
      var values := seq(|all|, i requires 0 <= i < |all| => all[i].value);
      var lo, hi := SeqMin(values), SeqMax(values);
      assert forall k :: 0 <= k < |all| ==> all[k] == Some(values[k]);
      assert all[IndexIn(values, lo)] == Some(lo) && all[IndexIn(values, hi)] == Some(hi);
      Ok(Range(lo, hi))
  }

  /** The min/max computation of plot_with_selector, over the strengths its loop collects. */
  method GlobalRange(d0: JsonFile, d90: JsonFile, dc: JsonFile, d45: Option<JsonFile>) returns (r: Result<Range>)
    requires !d0.NotJson? && !d90.NotJson? && !dc.NotJson? && (d45.Some? ==> !d45.value.NotJson?)
    ensures r == ColourRange(d0, d90, dc, d45)
  {
    var collected := CollectStrengths(Datasets(d0, d90, dc, d45));
    if collected.Err? {
      return Err(collected.error);
    }
    var all := collected.value;
    if |all| == 0 {
      return Err(ValueError);
    }
    if exists k :: 0 <= k < |all| && all[k].None? {
      return Err(TypeError);
    }
    var values := seq(|all|, i requires 0 <= i < |all| => all[i].value);
    return Ok(Range(SeqMin(values), SeqMax(values)));
  }

  /** The 45° data of the selector: loaded only when its path is non-empty and exists. */
  function Load45(fs: FileStore, file45: string): (r: Result<Option<JsonFile>>)
    ensures file45 == "" || file45 !in fs ==> r == Ok(None)
    ensures file45 != "" && file45 in fs ==> (r.Ok? <==> !fs[file45].NotJson?) && (r.Ok? ==> r.value == Some(fs[file45]))
  {
    if file45 != "" && file45 in fs then
      var d :- ReadJson(fs, file45);
      Ok(Some(d))
    else Ok(None)
  }

  /** What the selector computed before drawing, and the files it leaves behind. */
  datatype Shown = Shown(range: Result<Range>, files: FileStore)

  /**
   * The data side of plot_with_selector, with the combined file as intended: load the 0°
   * and 90° files and the 45° one if present, obtain the combined data, then fix the
   * colour range. The first failing step raises, and only a new combined file is ever
   * written.
   */
  function Selector(t: Transcendental, fs: FileStore, file0: string, file90: string, file45: string, writable: bool)
    : (sh: Shown)
    ensures file0 !in fs ==> sh == Shown(Err(FileNotFound), fs)
    ensures forall p :: p in fs ==> p in sh.files && sh.files[p] == fs[p]
    ensures forall p :: p in sh.files && p !in fs ==> p == CombinedPath(file0)
    ensures sh.range.Ok? ==> file0 in fs && file90 in fs && CombinedPath(file0) in sh.files
    ensures !writable && CombinedPath(file0) !in fs ==> sh.range.Err? && sh.files == fs
  {
    var d0 := ReadJson(fs, file0);
    var d90 := ReadJson(fs, file90);
    var d45 := Load45(fs, file45);
    if d0.Err? then Shown(Err(d0.error), fs)
    else if d90.Err? then Shown(Err(d90.error), fs)
    else if d45.Err? then Shown(Err(d45.error), fs)
    else
      var combined := CombinedData(t, fs, file0, file90, writable);
      if combined.Err? then Shown(Err(combined.error), fs)
      else Shown(ColourRange(d0.value, d90.value, combined.value.0, d45.value), combined.value.1)
  }

  /** plot_with_selector up to the drawing: the loads, the combined file and the colour range. */
  method PlotWithSelector(t: Transcendental, fs: FileStore, file0: string, file90: string, file45: string, writable: bool)
    returns (sh: Shown)
    ensures sh == Selector(t, fs, file0, file90, file45, writable)
  {
    var d0 := ReadJson(fs, file0);
    if d0.Err? {
      return Shown(Err(d0.error), fs);
    }
    var d90 := ReadJson(fs, file90);
    if d90.Err? {
      return Shown(Err(d90.error), fs);
    }
    var d45 := Load45(fs, file45);
    if d45.Err? {
      return Shown(Err(d45.error), fs);
    }
    var combined := CombinedData(t, fs, file0, file90, writable);
    if combined.Err? {
      return Shown(Err(combined.error), fs);
    }
    var range := GlobalRange(d0.value, d90.value, combined.value.0, d45.value);
    return Shown(range, combined.value.1);
  }

  /** The extend loop of plot_with_selector: the strengths of each truthy dataset in turn. */
  method CollectStrengths(datasets: seq<JsonFile>) returns (r: Result<seq<Option<real>>>)
    requires forall k :: 0 <= k < |datasets| ==> !datasets[k].NotJson?
    ensures r == AllStrengths(datasets)
  {
    var all: seq<Option<real>> := [];
    for k := 0 to |datasets|
      invariant AllStrengths(datasets[..k]) == Ok(all)
    {
      assert datasets[..k + 1][..k] == datasets[..k];
      var d := datasets[k];
      if Truthy(d) {
        var rs := ResultsOf(d);
        if rs.Err? {
          FirstErrorPersists(datasets, k + 1);
          return Err(rs.error);
        }
        all := all + seq(|rs.value|, i requires 0 <= i < |rs.value| => rs.value[i].fieldStrength);
      }
    }
    assert datasets[..|datasets|] == datasets;
    return Ok(all);
  }

  /** A position of a value known to be in a list. */
  function IndexIn(s: seq<real>, v: real): (k: nat)
    requires v in s
    ensures k < |s| && s[k] == v
  {
    if s[0] == v then 0 else 1 + IndexIn(s[1..], v)
  }

  /** Once a dataset fails, the strengths of any longer list of datasets fail the same way. */
  lemma {:induction false} FirstErrorPersists(datasets: seq<JsonFile>, n: nat)
    requires n <= |datasets|
    requires forall k :: 0 <= k < |datasets| ==> !datasets[k].NotJson?
    requires AllStrengths(datasets[..n]).Err?
    ensures AllStrengths(datasets) == AllStrengths(datasets[..n])
    decreases |datasets| - n
  {
    if n < |datasets| {
      assert datasets[..n + 1][..n] == datasets[..n];
      FirstErrorPersists(datasets, n + 1);
      assert datasets[..|datasets|] == datasets;
    } else {
      assert datasets[..n] == datasets;
    }
  }

  // ---------------------------------------------------------------------------
  // load_and_prepare_data

  /**
   * The format dispatch of load_and_prepare_data and the coordinate extraction after it: an
   * object holding "results" gives that list and its metadata (or {}); anything else is
   * taken as the list itself with empty metadata, which for an object without "results"
   * means iterating its keys, and indexing the key "metadata" like a point raises
   * TypeError. `Ok` means the extraction got past those lines; the later grid set-up,
   * where an empty list makes `min` raise ValueError, is not part of this function.
   */
  function PrepareData(d: JsonFile): (r: Result<(seq<Point>, Metadata)>)
    requires !d.NotJson?
    ensures d.Array? ==> r == Ok((d.points, map[]))
    ensures d.Object? && d.results.Some? ==> r == Ok((d.results.value, d.metadata.GetOr(map[])))
    ensures d.Object? && d.results.None? ==> (r.Ok? <==> d.metadata.None?)
  {
    match d
    case Object(m, rs) =>
      if rs.Some? then Ok((rs.value, m.GetOr(map[])))
      else if m.None? then Ok(([], map[]))   // an empty dict: nothing to iterate
      else Err(TypeError)                     // the key "metadata" indexed like a point
    case Array(ps) => Ok((ps, map[]))
  }

  /**
   * Both file formats read back as written: the object save_scan_results writes gives its
   * points and metadata, and the bare list scanner.py writes gives its points and {}.
   */
  lemma PrepareDataRoundTrip(fs: FileStore, path: string, results: seq<Point>, metadata: Option<Metadata>)
    ensures var saved := SaveScanResults(fs, path, results, metadata, true)[path];
      PrepareData(saved) == Ok((results, metadata.GetOr(map[])))
    ensures PrepareData(fs[path := Array(results)][path]) == Ok((results, map[]))
  {
  }
}
