/**
 * The scan controller: one raster scan at a fixed probe orientation
 * (scan_single_orientation) and the three-orientation sequence around it (scan_field).
 */
module ScanUtils {
  import opened Wrappers
  import opened Numeric
  import opened PyStrings
  import opened FileUtils
  import opened Raster
  import Config

  /** move_probe's default feed rate, which both scan loops use. */
  const MoveFeed: nat := 3000

  /**
   * How the probe is driven during a scan: the offsets and height chosen while adjusting
   * the head, whether the receive buffer is flushed before each reading (a real radio
   * with a streamer) and how many discarded readings a flush takes.
   */
  datatype Probe = Probe(xOffset: real, yOffset: real, zHeight: real, flushing: bool, flushCount: nat)

  /** The number of discarded readings before each kept one. */
  function FlushReads(probe: Probe): nat {
    if probe.flushing then probe.flushCount else 0
  }

  /** n copies of one event. */
  function Repeat(e: ScanEvent, n: nat): (s: seq<ScanEvent>)
    ensures |s| == n && forall i :: 0 <= i < n ==> s[i] == e
  {
    seq(n, _ => e)
  }

  /** Where the probe is sent for cell (row r, column c), in millimetres. */
  function Target(xs: seq<real>, ys: seq<real>, probe: Probe, r: nat, c: nat): (real, real)
    requires r < |ys| && c < |xs|
  {
    (xs[c] * 10.0 + probe.xOffset, ys[r] * 10.0 + probe.yOffset)
  }

  /**
   * One visit to target (x, y) at height z: move_probe (the G1 move and its own M400),
   * the explicit M400, the discarded flush readings, the settle pause and the kept
   * reading, in that order.
   */
  function Visit(t: (real, real), z: real, flushes: nat): seq<ScanEvent> {
    MoveProbe(t.0, t.1, Some(z), MoveFeed)
      + [Cmd(M400)] + Repeat(FlushRead, flushes) + [Settle, Measure]
  }

  /** The visit of cell (row r, column c). */
  function CellEvents(xs: seq<real>, ys: seq<real>, probe: Probe, r: nat, c: nat): seq<ScanEvent>
    requires r < |ys| && c < |xs|
  {
    Visit(Target(xs, ys, probe, r, c), probe.zHeight, FlushReads(probe))
  }

  /** The start of every row: the pause, then the extra reading that is only printed. */
  const RowStart: seq<ScanEvent> := [LineWait, LineProbe]

  /** The first c cells of row r. */
  function RowCells(xs: seq<real>, ys: seq<real>, probe: Probe, r: nat, c: nat): seq<ScanEvent>
    requires r < |ys| && c <= |xs|
    decreases c
  {
    if c == 0 then [] else RowCells(xs, ys, probe, r, c - 1) + CellEvents(xs, ys, probe, r, c - 1)
  }

  /** The points stored for the first c cells of row r: one per present reading. */
  function RowPoints(xs: seq<real>, ys: seq<real>, reading: (nat, nat) -> Option<real>, r: nat, c: nat): seq<Point>
    requires r < |ys| && c <= |xs|
    decreases c
  {
    if c == 0 then [] else RowPoints(xs, ys, reading, r, c - 1) + Entry((xs[c - 1], ys[r]), reading(r, c - 1))
  }

  /** The present readings of the first c cells of row r. */
  function RowValues(ys: seq<real>, reading: (nat, nat) -> Option<real>, r: nat, c: nat): seq<real>
    decreases c
  {
    if c == 0 then []
    else
      RowValues(ys, reading, r, c - 1) + (if reading(r, c - 1).Some? then [reading(r, c - 1).value] else [])
  }

  /** The points stored for the first r complete rows. */
  function RowsPoints(xs: seq<real>, ys: seq<real>, reading: (nat, nat) -> Option<real>, r: nat): seq<Point>
    requires r <= |ys|
    decreases r
  {
    if r == 0 then [] else RowsPoints(xs, ys, reading, r - 1) + RowPoints(xs, ys, reading, r - 1, |xs|)
  }

  /** The present readings of the first r complete rows. */
  function RowsValues(xs: seq<real>, ys: seq<real>, reading: (nat, nat) -> Option<real>, r: nat): seq<real>
    decreases r
  {
    if r == 0 then [] else RowsValues(xs, ys, reading, r - 1) + RowValues(ys, reading, r - 1, |xs|)
  }

  /** The report printed after the first row, over the readings of its cells. */
  function Summary(xs: seq<real>, ys: seq<real>, reading: (nat, nat) -> Option<real>): ScanEvent {
    SummaryOf(RowValues(ys, reading, 0, |xs|), |xs|)
  }

  /** The summary event printed for a row's present readings out of its rowLength cells. */
  function SummaryOf(values: seq<real>, rowLength: nat): ScanEvent {
    FirstRowSummary(Report(values, rowLength))
  }

  /** The first r complete rows. */
  function RowsTrace(xs: seq<real>, ys: seq<real>, probe: Probe, reading: (nat, nat) -> Option<real>, r: nat): seq<ScanEvent>
    requires r <= |ys|
    decreases r
  {
    if r == 0 then []
    else
      RowsTrace(xs, ys, probe, reading, r - 1) + RowStart + RowCells(xs, ys, probe, r - 1, |xs|)
        + (if r == 1 then [Summary(xs, ys, reading)] else [])
  }

  /** A keyboard interrupt given as the cell (row, column) before whose move it strikes, if any. */
  predicate Strikes(xs: seq<real>, ys: seq<real>, interrupt: Option<(nat, nat)>) {
    interrupt.Some? && interrupt.value.0 < |ys| && interrupt.value.1 < |xs|
  }

  /** The whole trace: every row, or the rows before the interrupt and the part of its row. */
  function ScanTrace(xs: seq<real>, ys: seq<real>, probe: Probe, reading: (nat, nat) -> Option<real>,
                     interrupt: Option<(nat, nat)>): seq<ScanEvent>
  {
    if Strikes(xs, ys, interrupt) then
      var (r, c) := interrupt.value;
      RowsTrace(xs, ys, probe, reading, r) + RowStart + RowCells(xs, ys, probe, r, c)
    else RowsTrace(xs, ys, probe, reading, |ys|)
  }

  /** The points the scan stores. */
  function ScanPoints(xs: seq<real>, ys: seq<real>, reading: (nat, nat) -> Option<real>,
                      interrupt: Option<(nat, nat)>): seq<Point>
  {
    if Strikes(xs, ys, interrupt) then
      var (r, c) := interrupt.value;
      RowsPoints(xs, ys, reading, r) + RowPoints(xs, ys, reading, r, c)
    else RowsPoints(xs, ys, reading, |ys|)
  }

  /** The power values the scan collects. */
  function ScanValues(xs: seq<real>, ys: seq<real>, reading: (nat, nat) -> Option<real>,
                      interrupt: Option<(nat, nat)>): seq<real>
  {
    if Strikes(xs, ys, interrupt) then
      var (r, c) := interrupt.value;
      RowsValues(xs, ys, reading, r) + RowValues(ys, reading, r, c)
    else RowsValues(xs, ys, reading, |ys|)
  }

  /** The five metadata keys saved with every scan, from the configuration. */
  function ScanMetadata(): (m: Metadata)
    ensures m.Keys == {"PCB_SIZE", "resolution", "center_freq", "BW", "nb_average"}
  {
    map["PCB_SIZE" := MetaSize(Config.PcbWidth, Config.PcbHeight),
        "resolution" := MetaNum(Config.Resolution),
        "center_freq" := MetaNum(Config.CenterFrequency),
        "BW" := MetaNum(Config.EquivalentBandwidth),
        "nb_average" := MetaNum(Config.NbAverage)]
  }

  /** Where the scan of row r stops: the interrupted column, or the end of the row. */
  function RowStop(xs: seq<real>, r: nat, interrupt: Option<(nat, nat)>): (c: nat)
    ensures c <= |xs|
  {
    if interrupt.Some? && interrupt.value.0 == r && interrupt.value.1 < |xs| then interrupt.value.1 else |xs|
  }

  /** The flush before a kept reading: exactly `count` discarded readings, their errors swallowed. */
  method FlushBuffer(trace0: seq<ScanEvent>, count: nat) returns (trace: seq<ScanEvent>)
    ensures trace == trace0 + Repeat(FlushRead, count)
  {
    trace := trace0;
    var f := 0;
    while f < count
      invariant f <= count
      invariant trace == trace0 + Repeat(FlushRead, f)
    {
      trace := trace + [FlushRead];
      f := f + 1;
    }
  }

  /**
   * The commands and readings of one cell: move_probe, the explicit M400, the flush when
   * a streamer is present, the settle pause and the kept reading.
   */
  method VisitCell(target: (real, real), probe: Probe) returns (visit: seq<ScanEvent>)
    ensures visit == Visit(target, probe.zHeight, FlushReads(probe))
  {
    visit := MoveProbe(target.0, target.1, Some(probe.zHeight), MoveFeed);
    visit := visit + [Cmd(M400)];
    if probe.flushing {
      visit := FlushBuffer(visit, probe.flushCount);
    } else {
      assert Repeat(FlushRead, 0) == [];
    }
    visit := visit + [Settle, Measure];
  }

  /** Scanning column c of row r extends the row's points, values and trace by that cell's alone. */
  lemma RowStep(xs: seq<real>, ys: seq<real>, probe: Probe, reading: (nat, nat) -> Option<real>, r: nat, c: nat)
    requires r < |ys| && c < |xs|
    ensures RowCells(xs, ys, probe, r, c + 1) == RowCells(xs, ys, probe, r, c) + CellEvents(xs, ys, probe, r, c)
    ensures RowPoints(xs, ys, reading, r, c + 1) == RowPoints(xs, ys, reading, r, c) + Entry((xs[c], ys[r]), reading(r, c))
    ensures RowValues(ys, reading, r, c + 1)
         == RowValues(ys, reading, r, c) + (if reading(r, c).Some? then [reading(r, c).value] else [])
  {
  }

  /**
   * The inner loop of scan_single_orientation over the cells of row r, appending to the
   * results, the power values and the trace; it stops at the interrupted cell.
   */
  method ScanRow(xs: seq<real>, ys: seq<real>, probe: Probe, reading: (nat, nat) -> Option<real>,
                 interrupt: Option<(nat, nat)>, r: nat,
                 results0: seq<Point>, powerValues0: seq<real>, trace0: seq<ScanEvent>)
    returns (c: nat, results: seq<Point>, powerValues: seq<real>, trace: seq<ScanEvent>)
    requires r < |ys|
    ensures c == RowStop(xs, r, interrupt)
    ensures results == results0 + RowPoints(xs, ys, reading, r, c)
    ensures powerValues == powerValues0 + RowValues(ys, reading, r, c)
    ensures trace == trace0 + RowCells(xs, ys, probe, r, c)
  {
    results, powerValues, trace := results0, powerValues0, trace0;
    c := 0;
    while c < |xs|
      invariant c <= RowStop(xs, r, interrupt)
      invariant results == results0 + RowPoints(xs, ys, reading, r, c)
      invariant powerValues == powerValues0 + RowValues(ys, reading, r, c)
      invariant trace == trace0 + RowCells(xs, ys, probe, r, c)
    {
      if interrupt == Some((r, c)) {
        break;
      }
      RowStep(xs, ys, probe, reading, r, c);
      var x, y := xs[c], ys[r];
      var visit := VisitCell(Target(xs, ys, probe, r, c), probe);
      AppendAssoc(trace0, RowCells(xs, ys, probe, r, c), visit);
      trace := trace + visit;
      var fieldStrength := reading(r, c);
      if fieldStrength.Some? {
        AppendAssoc(powerValues0, RowValues(ys, reading, r, c), [fieldStrength.value]);
        AppendAssoc(results0, RowPoints(xs, ys, reading, r, c), [Point(x, y, fieldStrength)]);
        powerValues := powerValues + [fieldStrength.value];
        results := results + [Point(x, y, fieldStrength)];
      }
      c := c + 1;
    }
  }

  /**
   * scan_single_orientation: the raster loop, rows of ys outer and xs inner, then the
   * save in `finally`, which also runs after a keyboard interrupt. The kept reading at
   * row r, column c is `reading(r, c)` (a measurement exception counts as absent); the
   * line-start and flush readings are discarded and not modelled.
   */
  method ScanSingleOrientation(fs: FileStore, fileName: string, xs: seq<real>, ys: seq<real>, probe: Probe,
                               reading: (nat, nat) -> Option<real>, interrupt: Option<(nat, nat)>, writable: bool)
    returns (results: seq<Point>, powerValues: seq<real>, trace: seq<ScanEvent>, fs': FileStore)
    ensures results == ScanPoints(xs, ys, reading, interrupt)
    ensures powerValues == ScanValues(xs, ys, reading, interrupt)
    ensures trace == ScanTrace(xs, ys, probe, reading, interrupt)
    ensures fs' == if |results| > 0 then SaveScanResults(fs, fileName, results, Some(ScanMetadata()), writable) else fs
  {
    results, powerValues, trace := ScanGrid(xs, ys, probe, reading, interrupt);
    if |results| > 0 {
      fs' := SaveScanResults(fs, fileName, results, Some(ScanMetadata()), writable);
    } else {
      fs' := fs;
    }
  }

  /**
   * The row loop of scan_single_orientation: each row starts with a line pause, visits its
   * cells left to right until the interrupt's cell, and the first completed row is summarised.
   */
  method ScanGrid(xs: seq<real>, ys: seq<real>, probe: Probe, reading: (nat, nat) -> Option<real>,
                  interrupt: Option<(nat, nat)>)
    returns (results: seq<Point>, powerValues: seq<real>, trace: seq<ScanEvent>)
    ensures results == ScanPoints(xs, ys, reading, interrupt)
    ensures powerValues == ScanValues(xs, ys, reading, interrupt)
    ensures trace == ScanTrace(xs, ys, probe, reading, interrupt)
  {
    results, powerValues, trace := [], [], [];
    var firstLineComplete := false;
    var r := 0;
    while r < |ys|
      invariant r <= |ys|
      invariant firstLineComplete <==> r > 0
      invariant results == RowsPoints(xs, ys, reading, r)
      invariant powerValues == RowsValues(xs, ys, reading, r)
      invariant trace == RowsTrace(xs, ys, probe, reading, r)
      invariant Strikes(xs, ys, interrupt) ==> interrupt.value.0 >= r
    {
      var c;
      c, results, powerValues, trace := ScanLine(xs, ys, probe, reading, interrupt, r, firstLineComplete,
                                                 results, powerValues, trace);
      if c < |xs| {
        StopsAt(xs, ys, probe, reading, interrupt, r, c);
        break;
      }
      firstLineComplete := true;
      r := r + 1;
      if r == |ys| {
        assert !Strikes(xs, ys, interrupt);
      }
    }
  }

  /**
   * One pass of the row loop over row r: the line pause, the row's cells up to the
   * interrupt, and the summary once the first row is complete.
   */
  method ScanLine(xs: seq<real>, ys: seq<real>, probe: Probe, reading: (nat, nat) -> Option<real>,
                  interrupt: Option<(nat, nat)>, r: nat, firstLineComplete: bool,
                  results0: seq<Point>, powerValues0: seq<real>, trace0: seq<ScanEvent>)
    returns (c: nat, results: seq<Point>, powerValues: seq<real>, trace: seq<ScanEvent>)
    requires r < |ys| && (firstLineComplete <==> r > 0)
    requires results0 == RowsPoints(xs, ys, reading, r)
    requires powerValues0 == RowsValues(xs, ys, reading, r)
    requires trace0 == RowsTrace(xs, ys, probe, reading, r)
    ensures c == RowStop(xs, r, interrupt)
    ensures c == |xs| ==>
      && results == RowsPoints(xs, ys, reading, r + 1)
      && powerValues == RowsValues(xs, ys, reading, r + 1)
      && trace == RowsTrace(xs, ys, probe, reading, r + 1)
    ensures c < |xs| ==>
      && results == RowsPoints(xs, ys, reading, r) + RowPoints(xs, ys, reading, r, c)
      && powerValues == RowsValues(xs, ys, reading, r) + RowValues(ys, reading, r, c)
      && trace == RowsTrace(xs, ys, probe, reading, r) + RowStart + RowCells(xs, ys, probe, r, c)
  {
    RowsStep(xs, ys, probe, reading, r);
    c, results, powerValues, trace := ScanRow(xs, ys, probe, reading, interrupt, r, results0, powerValues0, trace0 + RowStart);
    if c == |xs| && !firstLineComplete {
      assert powerValues == RowValues(ys, reading, 0, |xs|) by {
        FirstRowValues(xs, ys, reading);
      }
      trace := trace + [SummaryOf(powerValues, |xs|)];
    }
  }

  /** The row specifications one complete row further on; the first row adds its summary. */
  lemma RowsStep(xs: seq<real>, ys: seq<real>, probe: Probe, reading: (nat, nat) -> Option<real>, r: nat)
    requires r < |ys|
    ensures RowsPoints(xs, ys, reading, r + 1) == RowsPoints(xs, ys, reading, r) + RowPoints(xs, ys, reading, r, |xs|)
    ensures RowsValues(xs, ys, reading, r + 1) == RowsValues(xs, ys, reading, r) + RowValues(ys, reading, r, |xs|)
    ensures RowsTrace(xs, ys, probe, reading, r + 1)
         == RowsTrace(xs, ys, probe, reading, r) + RowStart + RowCells(xs, ys, probe, r, |xs|)
            + (if r == 0 then [Summary(xs, ys, reading)] else [])
  {
  }

  /** The present readings of the first complete row are those of its cells. */
  lemma FirstRowValues(xs: seq<real>, ys: seq<real>, reading: (nat, nat) -> Option<real>)
    ensures RowsValues(xs, ys, reading, 1) == RowValues(ys, reading, 0, |xs|)
  {
    assert RowsValues(xs, ys, reading, 0) == [];
  }

  /** An interrupt before cell (r, c) leaves the first r rows and the first c cells of row r. */
  lemma StopsAt(xs: seq<real>, ys: seq<real>, probe: Probe, reading: (nat, nat) -> Option<real>,
                interrupt: Option<(nat, nat)>, r: nat, c: nat)
    requires r < |ys| && c < |xs| && c == RowStop(xs, r, interrupt)
    ensures Strikes(xs, ys, interrupt) && interrupt.value == (r, c)
    ensures ScanPoints(xs, ys, reading, interrupt) == RowsPoints(xs, ys, reading, r) + RowPoints(xs, ys, reading, r, c)
    ensures ScanValues(xs, ys, reading, interrupt) == RowsValues(xs, ys, reading, r) + RowValues(ys, reading, r, c)
    ensures ScanTrace(xs, ys, probe, reading, interrupt)
         == RowsTrace(xs, ys, probe, reading, r) + RowStart + RowCells(xs, ys, probe, r, c)
  {
  }

  /** The readings of the first c cells of row r, left to right. */
  function RowReadings(reading: (nat, nat) -> Option<real>, r: nat, c: nat): (rs: seq<Option<real>>)
    ensures |rs| == c && forall j :: 0 <= j < c ==> rs[j] == reading(r, j)
  {
    seq(c, j requires 0 <= j => reading(r, j))
  }

  /** The readings of the first r complete rows, in visiting order. */
  function GridReadings(xs: seq<real>, reading: (nat, nat) -> Option<real>, r: nat): (rs: seq<Option<real>>)
    ensures |rs| == r * |xs|
    decreases r
  {
    if r == 0 then []
    else
      var rs := GridReadings(xs, reading, r - 1) + RowReadings(reading, r - 1, |xs|);
      assert |rs| == (r - 1) * |xs| + |xs|;
      rs
  }

  /** The number of cells whose reading was taken. */
  function Visited(xs: seq<real>, ys: seq<real>, interrupt: Option<(nat, nat)>): (k: nat)
    ensures k <= |xs| * |ys|
  {
    if Strikes(xs, ys, interrupt) then
      GridAt(xs, ys, interrupt.value.0, interrupt.value.1);
      interrupt.value.0 * |xs| + interrupt.value.1
    else |xs| * |ys|
  }

  /** The readings of the visited cells, in visiting order. */
  function ScanReadings(xs: seq<real>, ys: seq<real>, reading: (nat, nat) -> Option<real>,
                        interrupt: Option<(nat, nat)>): (rs: seq<Option<real>>)
    ensures |rs| == Visited(xs, ys, interrupt)
  {
    if Strikes(xs, ys, interrupt) then
      var (r, c) := interrupt.value;
      GridReadings(xs, reading, r) + RowReadings(reading, r, c)
    else GridReadings(xs, reading, |ys|)
  }

  /** The points of the first c cells of row r filter that row's readings. */
  lemma {:induction false} RowInGridOrder(xs: seq<real>, ys: seq<real>, reading: (nat, nat) -> Option<real>, r: nat, c: nat)
    requires r < |ys| && c <= |xs|
    ensures RowPoints(xs, ys, reading, r, c) == Present(Row(xs, ys[r])[..c], RowReadings(reading, r, c))
    ensures RowValues(ys, reading, r, c) == Values(RowReadings(reading, r, c))
    decreases c
  {
    if c > 0 {
      RowInGridOrder(xs, ys, reading, r, c - 1);
      var cells, rs := Row(xs, ys[r])[..c], RowReadings(reading, r, c);
      assert cells[..c - 1] == Row(xs, ys[r])[..c - 1];
      assert rs[..c - 1] == RowReadings(reading, r, c - 1);
      assert cells[c - 1] == (xs[c - 1], ys[r]);
    }
  }

  /** The points of the first r rows filter the readings of the grid of those rows. */
  lemma {:induction false} RowsInGridOrder(xs: seq<real>, ys: seq<real>, reading: (nat, nat) -> Option<real>, r: nat)
    requires r <= |ys|
    ensures RowsPoints(xs, ys, reading, r) == Present(Grid(xs, ys[..r]), GridReadings(xs, reading, r))
    ensures RowsValues(xs, ys, reading, r) == Values(GridReadings(xs, reading, r))
    decreases r
  {
    if r > 0 {
      RowsInGridOrder(xs, ys, reading, r - 1);
      RowInGridOrder(xs, ys, reading, r - 1, |xs|);
      var init := ys[..r];
      assert init[..r - 1] == ys[..r - 1];
      assert init[r - 1] == ys[r - 1];
      assert Grid(xs, init) == Grid(xs, ys[..r - 1]) + Row(xs, ys[r - 1]);
      assert Row(xs, ys[r - 1])[..|xs|] == Row(xs, ys[r - 1]);
      PresentValuesConcat(Grid(xs, ys[..r - 1]), GridReadings(xs, reading, r - 1),
                    Row(xs, ys[r - 1]), RowReadings(reading, r - 1, |xs|));
    }
  }

  /** The first r*|xs| + c cells of the grid: r complete rows, then c cells of row r. */
  lemma GridRowsPrefix(xs: seq<real>, ys: seq<real>, r: nat, c: nat)
    requires r < |ys| && c <= |xs|
    ensures r * |xs| + c <= |xs| * |ys|
    ensures Grid(xs, ys)[..r * |xs| + c] == Grid(xs, ys[..r]) + Row(xs, ys[r])[..c]
  {
    var m := |xs|;
    var a, b, g := Grid(xs, ys[..r]), Row(xs, ys[r]), Grid(xs, ys);
    var e := (r + 1) * m;
    assert e <= |g| && g[..e] == a + b by {
      GridPrefix(xs, ys, r + 1);
      GridLastRow(xs, ys, r);
    }
    assert |a| == r * m && |g| == m * |ys| by {
      assert |ys[..r]| == r;
      RowArith(r, c, m, |ys|);
    }
    PrefixOfRows(g, a, b, e, c);
  }

  /** Cutting a prefix that is a + b inside b. */
  lemma PrefixOfRows<T>(g: seq<T>, a: seq<T>, b: seq<T>, e: nat, c: nat)
    requires e <= |g| && g[..e] == a + b && c <= |b|
    ensures |a| + c <= |g| && g[..|a| + c] == a + b[..c]
  {
    assert g[..|a| + c] == g[..e][..|a| + c];
    SliceOfConcat(a, b, c);
  }

  /** Row r of a grid with m columns ends at (r + 1) * m, within the grid. */
  lemma RowArith(r: nat, c: nat, m: nat, rows: nat)
    requires r < rows && c <= m
    ensures (r + 1) * m == r * m + m && r * m + c <= (r + 1) * m <= m * rows && m * r == r * m
  {
  }

  /** The grid of the first r + 1 rows is that of the first r rows followed by row r. */
  lemma GridLastRow(xs: seq<real>, ys: seq<real>, r: nat)
    requires r < |ys|
    ensures Grid(xs, ys[..r + 1]) == Grid(xs, ys[..r]) + Row(xs, ys[r])
  {
    var init := ys[..r + 1];
    assert init[..r] == ys[..r];
    assert init[r] == ys[r];
  }

  lemma SliceOfConcat<T>(a: seq<T>, b: seq<T>, c: nat)
    requires c <= |b|
    ensures (a + b)[..|a| + c] == a + b[..c]
  {
  }

  /**
   * The scan stores the points of the visited cells in grid order, one per present
   * reading, and its power values are exactly those readings: with PresentIsSubsequence,
   * the results are an order-preserving subsequence of the grid with no entry for an
   * absent reading.
   */
  lemma ScanInGridOrder(xs: seq<real>, ys: seq<real>, reading: (nat, nat) -> Option<real>, interrupt: Option<(nat, nat)>)
    ensures var k, rs := Visited(xs, ys, interrupt), ScanReadings(xs, ys, reading, interrupt);
      && ScanPoints(xs, ys, reading, interrupt) == Present(Grid(xs, ys)[..k], rs)
      && ScanValues(xs, ys, reading, interrupt) == Values(rs)
  {
    if Strikes(xs, ys, interrupt) {
      var (r, c) := interrupt.value;
      RowsInGridOrder(xs, ys, reading, r);
      RowInGridOrder(xs, ys, reading, r, c);
      GridRowsPrefix(xs, ys, r, c);
      PresentValuesConcat(Grid(xs, ys[..r]), GridReadings(xs, reading, r), Row(xs, ys[r])[..c], RowReadings(reading, r, c));
    } else {
      RowsInGridOrder(xs, ys, reading, |ys|);
      assert ys[..|ys|] == ys;
      assert Grid(xs, ys)[..|xs| * |ys|] == Grid(xs, ys);
    }
  }

  /** The probe positions of a sequence of cells, in millimetres with the head offsets. */
  function ProbeTargets(cells: seq<(real, real)>, probe: Probe): (t: seq<(real, real)>)
    ensures |t| == |cells|
  {
    seq(|cells|, i requires 0 <= i < |cells| => (cells[i].0 * 10.0 + probe.xOffset, cells[i].1 * 10.0 + probe.yOffset))
  }

  lemma ProbeTargetsConcat(a: seq<(real, real)>, b: seq<(real, real)>, probe: Probe)
    ensures ProbeTargets(a + b, probe) == ProbeTargets(a, probe) + ProbeTargets(b, probe)
  {
  }

  /** A cell's events send the probe to that cell and nowhere else. */
  lemma CellTargets(xs: seq<real>, ys: seq<real>, probe: Probe, r: nat, c: nat)
    requires r < |ys| && c < |xs|
    ensures Targets(CellEvents(xs, ys, probe, r, c)) == [Target(xs, ys, probe, r, c)]
  {
    var t := Target(xs, ys, probe, r, c);
    var move := MoveProbe(t.0, t.1, Some(probe.zHeight), MoveFeed);
    var rest := [Cmd(M400)] + Repeat(FlushRead, FlushReads(probe)) + [Settle, Measure];
    assert CellEvents(xs, ys, probe, r, c) == move + rest;
    NoMoveTargets(rest);
    MoveProbeTargets(t.0, t.1, Some(probe.zHeight), MoveFeed);
    TargetsConcat(move, rest);
  }

  lemma RowStartTargets()
    ensures Targets(RowStart) == []
  {
    NoMoveTargets(RowStart);
  }

  /** The first c cells of row r are probed left to right. */
  lemma {:induction false} RowTargets(xs: seq<real>, ys: seq<real>, probe: Probe, r: nat, c: nat)
    requires r < |ys| && c <= |xs|
    ensures Targets(RowCells(xs, ys, probe, r, c)) == ProbeTargets(Row(xs, ys[r])[..c], probe)
    decreases c
  {
    if c > 0 {
      RowTargets(xs, ys, probe, r, c - 1);
      CellTargets(xs, ys, probe, r, c - 1);
      TargetsConcat(RowCells(xs, ys, probe, r, c - 1), CellEvents(xs, ys, probe, r, c - 1));
      var row := Row(xs, ys[r]);
      assert row[..c] == row[..c - 1] + [row[c - 1]];
      ProbeTargetsConcat(row[..c - 1], [row[c - 1]], probe);
    }
  }

  /** The first r rows are probed row after row. */
  lemma {:induction false} RowsTargets(xs: seq<real>, ys: seq<real>, probe: Probe, reading: (nat, nat) -> Option<real>, r: nat)
    requires r <= |ys|
    ensures Targets(RowsTrace(xs, ys, probe, reading, r)) == ProbeTargets(Grid(xs, ys[..r]), probe)
    decreases r
  {
    if r > 0 {
      RowsTargets(xs, ys, probe, reading, r - 1);
      RowTargets(xs, ys, probe, r - 1, |xs|);
      var before := RowsTrace(xs, ys, probe, reading, r - 1);
      var cells := RowCells(xs, ys, probe, r - 1, |xs|);
      var after: seq<ScanEvent> := if r == 1 then [Summary(xs, ys, reading)] else [];
      RowStartTargets();
      NoMoveTargets(after);
      Sandwich(before, RowStart, cells, after);
      GridLastRow(xs, ys, r - 1);
      assert Row(xs, ys[r - 1])[..|xs|] == Row(xs, ys[r - 1]);
      ProbeTargetsConcat(Grid(xs, ys[..r - 1]), Row(xs, ys[r - 1]), probe);
    }
  }

  /**
   * The probe visits the cells row-major, ys outer and xs inner: the moves of a scan
   * target exactly the visited cells of the grid, in grid order, at x*10 + xOffset and
   * y*10 + yOffset.
   */
  lemma ScanMovesRowMajor(xs: seq<real>, ys: seq<real>, probe: Probe, reading: (nat, nat) -> Option<real>,
                          interrupt: Option<(nat, nat)>)
    ensures Targets(ScanTrace(xs, ys, probe, reading, interrupt))
         == ProbeTargets(Grid(xs, ys)[..Visited(xs, ys, interrupt)], probe)
  {
    if Strikes(xs, ys, interrupt) {
      var (r, c) := interrupt.value;
      var before := RowsTrace(xs, ys, probe, reading, r);
      RowsTargets(xs, ys, probe, reading, r);
      RowTargets(xs, ys, probe, r, c);
      RowStartTargets();
      Sandwich(before, RowStart, RowCells(xs, ys, probe, r, c), []);
      assert before + RowStart + RowCells(xs, ys, probe, r, c) + [] == before + RowStart + RowCells(xs, ys, probe, r, c);
      GridRowsPrefix(xs, ys, r, c);
      ProbeTargetsConcat(Grid(xs, ys[..r]), Row(xs, ys[r])[..c], probe);
    } else {
      RowsTargets(xs, ys, probe, reading, |ys|);
      assert ys[..|ys|] == ys;
      assert Grid(xs, ys)[..|xs| * |ys|] == Grid(xs, ys);
    }
  }

  /** How often event e occurs in trace t. */
  function Occurrences(t: seq<ScanEvent>, e: ScanEvent): nat
    decreases |t|
  {
    if |t| == 0 then 0 else Occurrences(t[..|t| - 1], e) + (if t[|t| - 1] == e then 1 else 0)
  }

  /** How many first-row summaries, whatever their content, trace t holds. */
  function Summaries(t: seq<ScanEvent>): nat
    decreases |t|
  {
    if |t| == 0 then 0 else Summaries(t[..|t| - 1]) + (if t[|t| - 1].FirstRowSummary? then 1 else 0)
  }

  /** Counting distributes over concatenation. */
  lemma {:induction false} OccurrencesConcat(a: seq<ScanEvent>, b: seq<ScanEvent>, e: ScanEvent)
    ensures Occurrences(a + b, e) == Occurrences(a, e) + Occurrences(b, e)
    ensures Summaries(a + b) == Summaries(a) + Summaries(b)
    decreases |b|
  {
    if |b| == 0 {
      assert a + b == a;
    } else {
      assert (a + b)[..|a + b| - 1] == a + b[..|b| - 1];
      OccurrencesConcat(a, b[..|b| - 1], e);
    }
  }

  /** The counts of a concatenation of four traces. */
  lemma OccurrencesConcat4(a: seq<ScanEvent>, b: seq<ScanEvent>, c: seq<ScanEvent>, d: seq<ScanEvent>, e: ScanEvent)
    ensures Occurrences(a + b + c + d, e) == Occurrences(a, e) + Occurrences(b, e) + Occurrences(c, e) + Occurrences(d, e)
    ensures Summaries(a + b + c + d) == Summaries(a) + Summaries(b) + Summaries(c) + Summaries(d)
  {
    OccurrencesConcat(a, b, e);
    OccurrencesConcat(a + b, c, e);
    OccurrencesConcat(a + b + c, d, e);
  }

  /** An event that does not occur is counted zero times. */
  lemma {:induction false} OccurrencesAbsent(t: seq<ScanEvent>, e: ScanEvent)
    requires forall k :: 0 <= k < |t| ==> t[k] != e
    ensures Occurrences(t, e) == 0
    decreases |t|
  {
    if |t| > 0 {
      OccurrencesAbsent(t[..|t| - 1], e);
    }
  }

  /** A trace counts no summary twice: the occurrences of one summary are among all summaries. */
  lemma {:induction false} OccurrencesAtMostSummaries(t: seq<ScanEvent>, s: ScanEvent)
    requires s.FirstRowSummary?
    ensures Occurrences(t, s) <= Summaries(t)
    decreases |t|
  {
    if |t| > 0 {
      OccurrencesAtMostSummaries(t[..|t| - 1], s);
    }
  }

  /** n copies of e hold e n times, and no summary unless e is one. */
  lemma {:induction false} RepeatOccurrences(e: ScanEvent, n: nat)
    requires !e.FirstRowSummary?
    ensures Occurrences(Repeat(e, n), e) == n && Summaries(Repeat(e, n)) == 0
    decreases n
  {
    if n > 0 {
      assert Repeat(e, n)[..n - 1] == Repeat(e, n - 1);
      RepeatOccurrences(e, n - 1);
    }
  }

  lemma Distrib(x: nat, y: nat, f: nat)
    ensures (x + y) * f == x * f + y * f
  {
  }

  /** A visit takes one kept reading, the given number of discarded ones, and no pause or summary. */
  lemma VisitCounts(t: (real, real), z: real, flushes: nat)
    ensures var v := Visit(t, z, flushes);
      && Occurrences(v, Measure) == 1 && Occurrences(v, FlushRead) == flushes
      && Occurrences(v, LineWait) == 0 && Summaries(v) == 0
  {
    var head := MoveProbe(t.0, t.1, Some(z), MoveFeed);
    var b := Repeat(FlushRead, flushes);
    var tail := [Settle, Measure];
    assert Visit(t, z, flushes) == head + [Cmd(M400)] + b + tail;
    RepeatOccurrences(FlushRead, flushes);
    OccurrencesAbsent(b, Measure);
    OccurrencesAbsent(b, LineWait);
    assert head[..1] == [head[0]] && [head[0]][..0] == [];
    assert tail[..1] == [Settle] && [Settle][..0] == [];
    OccurrencesConcat4(head, [Cmd(M400)], b, tail, Measure);
    OccurrencesConcat4(head, [Cmd(M400)], b, tail, FlushRead);
    OccurrencesConcat4(head, [Cmd(M400)], b, tail, LineWait);
  }

  /** The first c cells of a row take c kept readings and c * FlushReads discarded ones. */
  lemma {:induction false} RowCounts(xs: seq<real>, ys: seq<real>, probe: Probe, r: nat, c: nat)
    requires r < |ys| && c <= |xs|
    ensures var t := RowCells(xs, ys, probe, r, c);
      && Occurrences(t, Measure) == c && Occurrences(t, FlushRead) == c * FlushReads(probe)
      && Occurrences(t, LineWait) == 0 && Summaries(t) == 0
    decreases c
  {
    if c > 0 {
      RowCounts(xs, ys, probe, r, c - 1);
      var f := FlushReads(probe);
      VisitCounts(Target(xs, ys, probe, r, c - 1), probe.zHeight, f);
      var a, b := RowCells(xs, ys, probe, r, c - 1), CellEvents(xs, ys, probe, r, c - 1);
      assert RowCells(xs, ys, probe, r, c) == a + b;
      OccurrencesConcat(a, b, Measure);
      OccurrencesConcat(a, b, FlushRead);
      OccurrencesConcat(a, b, LineWait);
      Distrib(c - 1, 1, f);
    }
  }

  /** The arithmetic of one more complete row. */
  lemma RowArithStep(r: nat, m: nat, f: nat)
    requires r > 0
    ensures (r - 1) * m + m == r * m
    ensures (r - 1) * m * f + m * f == r * m * f
  {
    Distrib(r - 1, 1, m);
    Distrib((r - 1) * m, m, f);
  }

  /** The row-start events hold one pause and nothing else that is counted. */
  lemma RowStartCounts(s: ScanEvent)
    requires s.FirstRowSummary?
    ensures Occurrences(RowStart, Measure) == 0 && Occurrences(RowStart, FlushRead) == 0
    ensures Occurrences(RowStart, LineWait) == 1 && Occurrences(RowStart, s) == 0 && Summaries(RowStart) == 0
  {
    assert RowStart[..1] == [LineWait];
    assert [LineWait][..0] == [];
  }

  /** The counts of the single summary after the first row, or of nothing after the others. */
  lemma AfterRowCounts(d: seq<ScanEvent>, s: ScanEvent, first: bool)
    requires s.FirstRowSummary?
    requires d == if first then [s] else []
    ensures Occurrences(d, Measure) == 0 && Occurrences(d, FlushRead) == 0 && Occurrences(d, LineWait) == 0
    ensures Occurrences(d, s) == Summaries(d) == (if first then 1 else 0)
  {
    if first {
      assert d[..0] == [];
    }
  }

  /**
   * The counted events of a trace: `kept` kept readings, `flushes` discarded flush
   * readings, `pauses` line pauses, and `summaries` first-row summaries, all of them s.
   */
  predicate Tally(t: seq<ScanEvent>, s: ScanEvent, kept: nat, flushes: nat, pauses: nat, summaries: nat) {
    && Occurrences(t, Measure) == kept && Occurrences(t, FlushRead) == flushes
    && Occurrences(t, LineWait) == pauses
    && Occurrences(t, s) == Summaries(t) == summaries
  }

  /** The counts of a trace extended by one more complete row, from the counts of its parts. */
  lemma AppendRowCounts(a: seq<ScanEvent>, b: seq<ScanEvent>, d: seq<ScanEvent>, s: ScanEvent,
                        r: nat, m: nat, f: nat)
    requires r > 0 && s.FirstRowSummary?
    requires Tally(a, s, (r - 1) * m, (r - 1) * m * f, r - 1, if r - 1 >= 1 then 1 else 0)
    requires Occurrences(b, Measure) == m && Occurrences(b, FlushRead) == m * f
    requires Occurrences(b, LineWait) == 0 && Summaries(b) == 0
    requires d == if r == 1 then [s] else []
    ensures Tally(a + RowStart + b + d, s, r * m, r * m * f, r, 1)
  {
    RowStartCounts(s);
    AfterRowCounts(d, s, r == 1);
    OccurrencesConcat4(a, RowStart, b, d, Measure);
    OccurrencesConcat4(a, RowStart, b, d, FlushRead);
    OccurrencesConcat4(a, RowStart, b, d, LineWait);
    OccurrencesConcat4(a, RowStart, b, d, s);
    OccurrencesAtMostSummaries(b, s);
    RowArithStep(r, m, f);
  }

  /** The counts of complete rows followed by a started row cut after c cells, from the counts of its parts. */
  lemma PartialRowCounts(a: seq<ScanEvent>, b: seq<ScanEvent>, s: ScanEvent, r: nat, c: nat, m: nat, f: nat)
    requires s.FirstRowSummary?
    requires Tally(a, s, r * m, r * m * f, r, if r >= 1 then 1 else 0)
    requires Occurrences(b, Measure) == c && Occurrences(b, FlushRead) == c * f
    requires Occurrences(b, LineWait) == 0 && Summaries(b) == 0
    ensures Tally(a + RowStart + b, s, r * m + c, (r * m + c) * f, r + 1, if r >= 1 then 1 else 0)
  {
    RowStartCounts(s);
    AfterRowCounts([], s, false);
    assert a + RowStart + b + [] == a + RowStart + b;
    OccurrencesConcat4(a, RowStart, b, [], Measure);
    OccurrencesConcat4(a, RowStart, b, [], FlushRead);
    OccurrencesConcat4(a, RowStart, b, [], LineWait);
    OccurrencesConcat4(a, RowStart, b, [], s);
    OccurrencesAtMostSummaries(b, s);
    Distrib(r * m, c, f);
  }

  /** The first r complete rows: r*|xs| readings, r line pauses, and one summary once r >= 1. */
  lemma {:induction false} RowsCounts(xs: seq<real>, ys: seq<real>, probe: Probe, reading: (nat, nat) -> Option<real>, r: nat)
    requires r <= |ys|
    ensures Tally(RowsTrace(xs, ys, probe, reading, r), Summary(xs, ys, reading),
                  r * |xs|, r * |xs| * FlushReads(probe), r, if r >= 1 then 1 else 0)
    decreases r
  {
    if r > 0 {
      var s := Summary(xs, ys, reading);
      RowsCounts(xs, ys, probe, reading, r - 1);
      RowCounts(xs, ys, probe, r - 1, |xs|);
      var a, b := RowsTrace(xs, ys, probe, reading, r - 1), RowCells(xs, ys, probe, r - 1, |xs|);
      var d: seq<ScanEvent> := if r == 1 then [s] else [];
      assert RowsTrace(xs, ys, probe, reading, r) == a + RowStart + b + d;
      AppendRowCounts(a, b, d, s, r, |xs|, FlushReads(probe));
    }
  }

  /** Rows whose scan was started, and rows completed. */
  function RowsStarted(xs: seq<real>, ys: seq<real>, interrupt: Option<(nat, nat)>): nat {
    if Strikes(xs, ys, interrupt) then interrupt.value.0 + 1 else |ys|
  }

  function RowsCompleted(xs: seq<real>, ys: seq<real>, interrupt: Option<(nat, nat)>): nat {
    if Strikes(xs, ys, interrupt) then interrupt.value.0 else |ys|
  }

  /**
   * Exactly one kept reading per visited cell and BUFFER_FLUSH_COUNT discarded ones
   * before each when flushing, one pause per started row, and one first-row summary,
   * the one over the first row's readings, if and only if the first row was completed.
   */
  lemma ScanCounts(xs: seq<real>, ys: seq<real>, probe: Probe, reading: (nat, nat) -> Option<real>,
                   interrupt: Option<(nat, nat)>)
    ensures var t, k := ScanTrace(xs, ys, probe, reading, interrupt), Visited(xs, ys, interrupt);
      && Occurrences(t, Measure) == k
      && Occurrences(t, FlushRead) == k * FlushReads(probe)
      && Occurrences(t, LineWait) == RowsStarted(xs, ys, interrupt)
      && Occurrences(t, Summary(xs, ys, reading)) == Summaries(t)
      && Summaries(t) == (if RowsCompleted(xs, ys, interrupt) >= 1 then 1 else 0)
  {
    if Strikes(xs, ys, interrupt) {
      var (r, c) := interrupt.value;
      RowsCounts(xs, ys, probe, reading, r);
      RowCounts(xs, ys, probe, r, c);
      var a, b := RowsTrace(xs, ys, probe, reading, r), RowCells(xs, ys, probe, r, c);
      assert ScanTrace(xs, ys, probe, reading, interrupt) == a + RowStart + b;
      PartialRowCounts(a, b, Summary(xs, ys, reading), r, c, |xs|, FlushReads(probe));
    } else {
      RowsCounts(xs, ys, probe, reading, |ys|);
    }
  }
}

/**
 * scan_field: the three-orientation sequence around scan_single_orientation, with the radio
 * and printer initialisations, the operator's rotation checkpoints, the combination of the
 * 0° and 90° scans, and the disconnect in `finally`.
 */
module Sequencer {
  import opened Wrappers
  import opened Numeric
  import opened PyStrings
  import opened FileUtils
  import opened Raster
  import opened ScanUtils
  import PlotUtils

  /** The files one run writes, derived from the name the operator gave. */
  datatype ScanFiles = ScanFiles(file0: string, file45: string, file90: string, combined: string)

  /** file_name.replace('.json', suffix) for the four suffixes: every ".json" is replaced. */
  function DerivedNames(fileName: string): ScanFiles {
    ScanFiles(ReplaceAll(fileName, ".json", "_0d.json"), ReplaceAll(fileName, ".json", "_45d.json"),
              ReplaceAll(fileName, ".json", "_90d.json"), ReplaceAll(fileName, ".json", "_combined.json"))
  }

  /** ".json" cannot overlap itself: its first character occurs nowhere else in it. */
  lemma JsonUnbordered()
    ensures Unbordered(".json")
  {
    UniqueHeadUnbordered(".json");
  }

  /** A name "<base>.json" whose base holds no other ".json" gets the four suffixed names. */
  lemma DerivedNamesOfJsonName(base: string)
    requires !Contains(base, ".json")
    ensures DerivedNames(base + ".json")
         == ScanFiles(base + "_0d.json", base + "_45d.json", base + "_90d.json", base + "_combined.json")
  {
    JsonUnbordered();
    ReplaceAllSuffix(base, ".json", "_0d.json");
    ReplaceAllSuffix(base, ".json", "_45d.json");
    ReplaceAllSuffix(base, ".json", "_90d.json");
    ReplaceAllSuffix(base, ".json", "_combined.json");
  }

  /** A name without ".json" is left as it is: all three scans and the combination share one file. */
  lemma DerivedNamesWithoutExtension(fileName: string)
    requires !Contains(fileName, ".json")
    ensures DerivedNames(fileName) == ScanFiles(fileName, fileName, fileName, fileName)
  {
    ReplaceAllAbsent(fileName, ".json", "_0d.json");
    ReplaceAllAbsent(fileName, ".json", "_45d.json");
    ReplaceAllAbsent(fileName, ".json", "_90d.json");
    ReplaceAllAbsent(fileName, ".json", "_combined.json");
  }

  /** Every occurrence is replaced, not only the extension: "<base>.json.json" gives "<base>_0d.json_0d.json". */
  lemma DerivedNamesReplaceEveryOccurrence(base: string)
    requires !Contains(base, ".json")
    ensures DerivedNames(base + ".json.json").file0 == base + "_0d.json_0d.json"
  {
    var pat, rep := ".json", "_0d.json";
    JsonUnbordered();
    ShortAbsent([], pat);
    assert base + ".json.json" == base + pat + pat;
    ReplaceAllAfter(base, pat, rep, pat);
    ReplaceAllSuffix([], pat, rep);
    assert [] + pat == pat;
    assert base + rep + ([] + rep) == base + "_0d.json_0d.json";
  }

  /**
   * For the files one scan_field run writes, the selector's combined path is the one the
   * run saved its combination under.
   */
  lemma CombinedPathMatchesRun(base: string)
    requires !Contains(base, ".json")
    ensures var names := DerivedNames(base + ".json");
      PlotUtils.CombinedPath(names.file0) == names.combined
  {
    DerivedNamesOfJsonName(base);
    if Contains(base, "_0d.json") {
      assert "_0d" + ".json" == "_0d.json";
      ContainsSuffixOf(base, "_0d", ".json");
    }
    UniqueHeadUnbordered("_0d.json");
    ReplaceAllSuffix(base, "_0d.json", "_combined.json");
    assert base + "_0d.json" == base + "_0d.json";
  }

  /** What scan_field is told by the hardware and the operator. */
  datatype Session = Session(
    simulateUsrp: bool,      // SIMULATE_USRP: no radio is initialised and no flush is done
    radioReady: bool,        // initialize_radio returned both handles
    printerConnected: bool,  // connect() succeeded and the connection is up
    head: (real, real, real),// the (x_offset, y_offset, z_height) adjust_head returned
    flushCount: nat,         // BUFFER_FLUSH_COUNT
    writable: bool)          // whether the scan files can be written

  /** One orientation's readings and the cell before which a keyboard interrupt strikes, if any. */
  datatype Pass = Pass(reading: (nat, nat) -> Option<real>, interrupt: Option<(nat, nat)>)

  /** The phases outside the scans in which a keyboard interrupt ends the sequence. */
  datatype Phase = Adjusting | Rotating45 | Rotating90 | Plotting

  /** The steps of scan_field, in the order they happen. */
  datatype Step =
    | InitRadio                                            // initialize_radio
    | ConnectPrinter                                       // PrinterConnection(...).connect()
    | InitializePrinter                                    // homing: the first printer motion
    | AdjustHead                                           // the operator positions the probe
    | OrientationPass(file: string, trace: seq<ScanEvent>) // scan_single_orientation
    | RotateDialog(angle: nat)                             // the operator rotates the probe
    | CombineFiles                                         // combine_scans(file_0d, file_90d)
    | SaveCombined                                         // save_scan_results of the combination
    | ShowResults                                          // plot_with_selector
    | DisconnectPrinter                                    // printer.disconnect() in `finally`

  /** How scan_field ends. */
  datatype Outcome = RadioInitFailed | PrinterConnectFailed | Interrupted | Raised(error: Error) | Finished

  /** The outcome, the steps taken and the files left behind. */
  datatype Run = Run(outcome: Outcome, steps: seq<Step>, files: FileStore)

  /** The probe settings every scan uses: the adjusted offsets, and flushing only with a real radio. */
  function ProbeOf(s: Session): Probe {
    Probe(s.head.0, s.head.1, s.head.2, !s.simulateUsrp, s.flushCount)
  }

  /** The steps before the printer is touched. */
  function RadioSteps(simulateUsrp: bool): seq<Step> {
    if simulateUsrp then [] else [InitRadio]
  }

  /** The file store after one orientation's scan: saved only when some point was stored. */
  function AfterPass(fs: FileStore, file: string, xs: seq<real>, ys: seq<real>, s: Session, p: Pass): FileStore {
    var points := ScanPoints(xs, ys, p.reading, p.interrupt);
    if |points| > 0 then SaveScanResults(fs, file, points, Some(ScanMetadata()), s.writable) else fs
  }

  /** The trace of one orientation's scan. */
  function PassTrace(xs: seq<real>, ys: seq<real>, s: Session, p: Pass): seq<ScanEvent> {
    ScanTrace(xs, ys, ProbeOf(s), p.reading, p.interrupt)
  }

  /** The fixed order of the phases once both connections are up. */
  function Phases(names: ScanFiles, t0: seq<ScanEvent>, t45: seq<ScanEvent>, t90: seq<ScanEvent>): (p: seq<Step>)
    ensures |p| == 10
  {
    [InitializePrinter, AdjustHead, OrientationPass(names.file0, t0), RotateDialog(45),
     OrientationPass(names.file45, t45), RotateDialog(90), OrientationPass(names.file90, t90),
     CombineFiles, SaveCombined, ShowResults]
  }

  /** What scan_field does, given the hardware's and the operator's answers. */
  function Sequence(t: Transcendental, fs: FileStore, fileName: string, xs: seq<real>, ys: seq<real>,
                    s: Session, p0: Pass, p45: Pass, p90: Pass, abortAt: Option<Phase>): Run
  {
    var pre := RadioSteps(s.simulateUsrp);
    if !s.simulateUsrp && !s.radioReady then Run(RadioInitFailed, pre, fs)
    else if !s.printerConnected then Run(PrinterConnectFailed, pre + [ConnectPrinter], fs)
    else
      var inner := Phased(t, fs, DerivedNames(fileName), xs, ys, s, p0, p45, p90, abortAt);
      Run(inner.outcome, pre + [ConnectPrinter] + inner.steps + [DisconnectPrinter], inner.files)
  }

  /** The `try` block of scan_field: the phases up to the one an interrupt or an exception ends. */
  function Phased(t: Transcendental, fs: FileStore, names: ScanFiles, xs: seq<real>, ys: seq<real>,
                  s: Session, p0: Pass, p45: Pass, p90: Pass, abortAt: Option<Phase>): Run
  {
    var st := [InitializePrinter, AdjustHead];
    if abortAt == Some(Adjusting) then Run(Interrupted, st, fs)
    else
      var fs0 := AfterPass(fs, names.file0, xs, ys, s, p0);
      var st0 := st + [OrientationPass(names.file0, PassTrace(xs, ys, s, p0)), RotateDialog(45)];
      if abortAt == Some(Rotating45) then Run(Interrupted, st0, fs0)
      else
        var fs45 := AfterPass(fs0, names.file45, xs, ys, s, p45);
        var st45 := st0 + [OrientationPass(names.file45, PassTrace(xs, ys, s, p45)), RotateDialog(90)];
        if abortAt == Some(Rotating90) then Run(Interrupted, st45, fs45)
        else
          var fs90 := AfterPass(fs45, names.file90, xs, ys, s, p90);
          var st90 := st45 + [OrientationPass(names.file90, PassTrace(xs, ys, s, p90)), CombineFiles];
          var combined := Combine(t, fs90, names.file0, names.file90);
          if combined.Err? then Run(Raised(combined.error), st90, fs90)
          else
            var saved := SaveScanResults(fs90, names.combined, combined.value.results, Some(combined.value.metadata), s.writable);
            var shown := PlotUtils.Selector(t, saved, names.file0, names.file90, names.file45, s.writable);
            Run(PlotOutcome(shown.range, abortAt), st90 + [SaveCombined, ShowResults], shown.files)
  }

  /**
   * How the plotting phase ends: an exception of the selector propagates (only
   * KeyboardInterrupt is caught); otherwise an interrupt in the plot window or a normal
   * close.
   */
  function PlotOutcome(range: Result<PlotUtils.Range>, abortAt: Option<Phase>): (o: Outcome)
    ensures o == Finished <==> range.Ok? && abortAt != Some(Plotting)
    ensures range.Err? ==> o == Raised(range.error)
  {
    if range.Err? then Raised(range.error)
    else if abortAt == Some(Plotting) then Interrupted
    else Finished
  }

  /**
   * scan_field: a failed radio initialisation or printer connection returns at once;
   * otherwise the phases run in order inside try/finally, each scan catching its own
   * keyboard interrupt, and the printer is disconnected however the phases end.
   */
  method ScanField(t: Transcendental, fs: FileStore, fileName: string, xs: seq<real>, ys: seq<real>,
                   s: Session, p0: Pass, p45: Pass, p90: Pass, abortAt: Option<Phase>)
    returns (outcome: Outcome, steps: seq<Step>, fs': FileStore)
    ensures Run(outcome, steps, fs') == Sequence(t, fs, fileName, xs, ys, s, p0, p45, p90, abortAt)
  {
    var names := DerivedNames(fileName);
    steps, fs' := [], fs;
    if !s.simulateUsrp {
      steps := steps + [InitRadio];
      if !s.radioReady {
        return RadioInitFailed, steps, fs';
      }
    }
    steps := steps + [ConnectPrinter];
    if !s.printerConnected {
      return PrinterConnectFailed, steps, fs';
    }
    var st;
    outcome, st, fs' := RunPhases(t, fs, names, xs, ys, s, p0, p45, p90, abortAt);
    assert steps == RadioSteps(s.simulateUsrp) + [ConnectPrinter];
    steps := steps + st + [DisconnectPrinter];  // finally: printer.disconnect()
  }

  /** The `try` block of scan_field, phase by phase. */
  method RunPhases(t: Transcendental, fs: FileStore, names: ScanFiles, xs: seq<real>, ys: seq<real>,
                   s: Session, p0: Pass, p45: Pass, p90: Pass, abortAt: Option<Phase>)
    returns (outcome: Outcome, st: seq<Step>, fs': FileStore)
    ensures Run(outcome, st, fs') == Phased(t, fs, names, xs, ys, s, p0, p45, p90, abortAt)
  {
    var probe := ProbeOf(s);
    st, fs' := [InitializePrinter, AdjustHead], fs;
    if abortAt == Some(Adjusting) {
      return Interrupted, st, fs';
    }
    var points, values, trace;
    points, values, trace, fs' := ScanSingleOrientation(fs', names.file0, xs, ys, probe, p0.reading, p0.interrupt, s.writable);
    assert fs' == AfterPass(fs, names.file0, xs, ys, s, p0);
    st := st + [OrientationPass(names.file0, trace), RotateDialog(45)];
    if abortAt == Some(Rotating45) {
      return Interrupted, st, fs';
    }
    ghost var fs0 := fs';
    points, values, trace, fs' := ScanSingleOrientation(fs', names.file45, xs, ys, probe, p45.reading, p45.interrupt, s.writable);
    assert fs' == AfterPass(fs0, names.file45, xs, ys, s, p45);
    st := st + [OrientationPass(names.file45, trace), RotateDialog(90)];
    if abortAt == Some(Rotating90) {
      return Interrupted, st, fs';
    }
    ghost var fs45 := fs';
    points, values, trace, fs' := ScanSingleOrientation(fs', names.file90, xs, ys, probe, p90.reading, p90.interrupt, s.writable);
    assert fs' == AfterPass(fs45, names.file90, xs, ys, s, p90);
    st := st + [OrientationPass(names.file90, trace), CombineFiles];
    var combined := CombineScans(t, fs', names.file0, names.file90);
    if combined.Err? {
      return Raised(combined.error), st, fs';
    }
    fs' := SaveScanResults(fs', names.combined, combined.value.results, Some(combined.value.metadata), s.writable);
    st := st + [SaveCombined, ShowResults];
    var shown := PlotUtils.PlotWithSelector(t, fs', names.file0, names.file90, names.file45, s.writable);
    fs' := shown.files;
    outcome := PlotOutcome(shown.range, abortAt);
  }

  /** The printer is only touched after both initialisations succeeded; a failure leaves every file as it was. */
  lemma AbortBeforeMotion(t: Transcendental, fs: FileStore, fileName: string, xs: seq<real>, ys: seq<real>,
                          s: Session, p0: Pass, p45: Pass, p90: Pass, abortAt: Option<Phase>)
    requires (!s.simulateUsrp && !s.radioReady) || !s.printerConnected
    ensures var run := Sequence(t, fs, fileName, xs, ys, s, p0, p45, p90, abortAt);
      && run.files == fs
      && (run.outcome == RadioInitFailed || run.outcome == PrinterConnectFailed)
      && (run.outcome == RadioInitFailed <==> !s.simulateUsrp && !s.radioReady)
      && forall k :: 0 <= k < |run.steps| ==> run.steps[k] == InitRadio || run.steps[k] == ConnectPrinter
  {
  }

  /**
   * Once both connections are up, the steps are the fixed phase order cut where the
   * sequence ended, followed by exactly one disconnect, the last step: teardown is
   * unconditional. A completed run went through all ten phases.
   */
  lemma PhaseOrderAndTeardown(t: Transcendental, fs: FileStore, fileName: string, xs: seq<real>, ys: seq<real>,
                              s: Session, p0: Pass, p45: Pass, p90: Pass, abortAt: Option<Phase>)
    requires s.simulateUsrp || s.radioReady
    requires s.printerConnected
    ensures var run := Sequence(t, fs, fileName, xs, ys, s, p0, p45, p90, abortAt);
      var names := DerivedNames(fileName);
      var phases := Phases(names, PassTrace(xs, ys, s, p0), PassTrace(xs, ys, s, p45), PassTrace(xs, ys, s, p90));
      exists n :: n in {2, 4, 6, 8, 10}
        && run.steps == RadioSteps(s.simulateUsrp) + [ConnectPrinter] + phases[..n] + [DisconnectPrinter]
        && (run.outcome == Finished ==> n == 10)
    ensures var run := Sequence(t, fs, fileName, xs, ys, s, p0, p45, p90, abortAt);
      && |run.steps| > 0 && run.steps[|run.steps| - 1] == DisconnectPrinter
      && forall k :: 0 <= k < |run.steps| - 1 ==> run.steps[k] != DisconnectPrinter
  {
    var names := DerivedNames(fileName);
    var phases := Phases(names, PassTrace(xs, ys, s, p0), PassTrace(xs, ys, s, p45), PassTrace(xs, ys, s, p90));
    var inner := Phased(t, fs, names, xs, ys, s, p0, p45, p90, abortAt);
    var n :| n in {2, 4, 6, 8, 10} && inner.steps == phases[..n] && (inner.outcome == Finished ==> n == 10)
      by { PhasedIsPrefix(t, fs, names, xs, ys, s, p0, p45, p90, abortAt); }
    var run := Sequence(t, fs, fileName, xs, ys, s, p0, p45, p90, abortAt);
    ConnectedSequence(t, fs, fileName, xs, ys, s, p0, p45, p90, abortAt);
    assert run.steps == RadioSteps(s.simulateUsrp) + [ConnectPrinter] + phases[..n] + [DisconnectPrinter];
    assert DisconnectPrinter !in phases;
    DisconnectLast(RadioSteps(s.simulateUsrp), phases, n);
  }

  /** With both connections up, the run is the phases between the connect and the disconnect. */
  lemma ConnectedSequence(t: Transcendental, fs: FileStore, fileName: string, xs: seq<real>, ys: seq<real>,
                          s: Session, p0: Pass, p45: Pass, p90: Pass, abortAt: Option<Phase>)
    requires s.simulateUsrp || s.radioReady
    requires s.printerConnected
    ensures var inner := Phased(t, fs, DerivedNames(fileName), xs, ys, s, p0, p45, p90, abortAt);
      Sequence(t, fs, fileName, xs, ys, s, p0, p45, p90, abortAt)
        == Run(inner.outcome, RadioSteps(s.simulateUsrp) + [ConnectPrinter] + inner.steps + [DisconnectPrinter], inner.files)
  {
  }

  /** Appending the disconnect to steps that hold none makes it the one and only last step. */
  lemma DisconnectLast(pre: seq<Step>, phases: seq<Step>, n: nat)
    requires n <= |phases| && DisconnectPrinter !in phases && DisconnectPrinter !in pre
    ensures var st := pre + [ConnectPrinter] + phases[..n] + [DisconnectPrinter];
      st[|st| - 1] == DisconnectPrinter && forall k :: 0 <= k < |st| - 1 ==> st[k] != DisconnectPrinter
  {
    var head := pre + [ConnectPrinter] + phases[..n];
    var st := head + [DisconnectPrinter];
    forall k | 0 <= k < |st| - 1
      ensures st[k] != DisconnectPrinter
    {
      assert st[k] == head[k];
      if k < |pre| {
        assert head[k] == pre[k];
      } else if k > |pre| {
        assert head[k] == phases[k - |pre| - 1];
      }
    }
  }


  lemma PhasePrefixes(p: seq<Step>)
    requires |p| == 10
    ensures p[..2] == [p[0], p[1]]
    ensures p[..4] == p[..2] + [p[2], p[3]]
    ensures p[..6] == p[..4] + [p[4], p[5]]
    ensures p[..8] == p[..6] + [p[6], p[7]]
    ensures p[..10] == p[..8] + [p[8], p[9]]
  {
  }

  /** The steps of the `try` block are the fixed phase order, cut after 2, 4, 6, 8 or all 10 phases. */
  lemma PhasedIsPrefix(t: Transcendental, fs: FileStore, names: ScanFiles, xs: seq<real>, ys: seq<real>,
                       s: Session, p0: Pass, p45: Pass, p90: Pass, abortAt: Option<Phase>)
    ensures var inner := Phased(t, fs, names, xs, ys, s, p0, p45, p90, abortAt);
      var phases := Phases(names, PassTrace(xs, ys, s, p0), PassTrace(xs, ys, s, p45), PassTrace(xs, ys, s, p90));
      exists n :: n in {2, 4, 6, 8, 10} && inner.steps == phases[..n] && (inner.outcome == Finished ==> n == 10)
  {
    var inner := Phased(t, fs, names, xs, ys, s, p0, p45, p90, abortAt);
    var phases := Phases(names, PassTrace(xs, ys, s, p0), PassTrace(xs, ys, s, p45), PassTrace(xs, ys, s, p90));
    PhasePrefixes(phases);
    var n: nat;
    if abortAt == Some(Adjusting) {
      n := 2;
    } else if abortAt == Some(Rotating45) {
      n := 4;
    } else if abortAt == Some(Rotating90) {
      n := 6;
    } else {
      var fs90 := AfterPass(AfterPass(AfterPass(fs, names.file0, xs, ys, s, p0), names.file45, xs, ys, s, p45),
                            names.file90, xs, ys, s, p90);
      n := if Combine(t, fs90, names.file0, names.file90).Err? then 8 else 10;
    }
    assert n in {2, 4, 6, 8, 10} && inner.steps == phases[..n] && (inner.outcome == Finished ==> n == 10);
  }

  /**
   * A completed run saved the combination of the 0° and 90° files as they stood after
   * the 90° scan, under the combined name, with the 0° file's metadata.
   */
  lemma FinishedSavesCombination(t: Transcendental, fs: FileStore, fileName: string, xs: seq<real>, ys: seq<real>,
                                 s: Session, p0: Pass, p45: Pass, p90: Pass, abortAt: Option<Phase>)
    requires s.writable
    requires Sequence(t, fs, fileName, xs, ys, s, p0, p45, p90, abortAt).outcome == Finished
    ensures var names := DerivedNames(fileName);
      var fs90 := AfterPass(AfterPass(AfterPass(fs, names.file0, xs, ys, s, p0), names.file45, xs, ys, s, p45), names.file90, xs, ys, s, p90);
      var files := Sequence(t, fs, fileName, xs, ys, s, p0, p45, p90, abortAt).files;
      && Combine(t, fs90, names.file0, names.file90).Ok?
      && names.combined in files
      && files[names.combined] == Object(Some(fs90[names.file0].metadata.value),
                                         Some(Combine(t, fs90, names.file0, names.file90).value.results))
  {
    var names := DerivedNames(fileName);
    var fs90 := AfterPass(AfterPass(AfterPass(fs, names.file0, xs, ys, s, p0), names.file45, xs, ys, s, p45), names.file90, xs, ys, s, p90);
    var inner := Phased(t, fs, names, xs, ys, s, p0, p45, p90, abortAt);
    assert inner.outcome == Finished && inner.files == Sequence(t, fs, fileName, xs, ys, s, p0, p45, p90, abortAt).files;
    var combined := Combine(t, fs90, names.file0, names.file90);
    assert combined.Ok?;
    var saved := SaveScanResults(fs90, names.combined, combined.value.results, Some(combined.value.metadata), s.writable);
    assert inner.files == PlotUtils.Selector(t, saved, names.file0, names.file90, names.file45, s.writable).files;
    assert names.combined in saved;
    CombineShape(t, fs90, names.file0, names.file90);
  }

  /** A scan that cannot write leaves the store as it was. */
  lemma UnwritablePassKeeps(fs: FileStore, file: string, xs: seq<real>, ys: seq<real>, s: Session, p: Pass)
    requires !s.writable
    ensures AfterPass(fs, file, xs, ys, s, p) == fs
  {
  }

  /**
   * A session that cannot write never finishes. Its scans and its combination are not
   * saved, so unless an earlier run left the combined file behind, the selector raises
   * once the run reaches it: loading a missing scan, or writing the combination. The
   * files are left as they were.
   */
  lemma UnwritableRunRaisesAtSelector(t: Transcendental, fs: FileStore, fileName: string, xs: seq<real>, ys: seq<real>,
                                      s: Session, p0: Pass, p45: Pass, p90: Pass, abortAt: Option<Phase>)
    requires !s.writable
    requires PlotUtils.CombinedPath(DerivedNames(fileName).file0) !in fs
    ensures var run := Sequence(t, fs, fileName, xs, ys, s, p0, p45, p90, abortAt);
      && run.outcome != Finished
      && run.files == fs
      && (ShowResults in run.steps ==> run.outcome.Raised?)
  {
    if (s.simulateUsrp || s.radioReady) && s.printerConnected {
      var names := DerivedNames(fileName);
      ConnectedSequence(t, fs, fileName, xs, ys, s, p0, p45, p90, abortAt);
      UnwritablePhased(t, fs, names, xs, ys, s, p0, p45, p90, abortAt);
      var inner := Phased(t, fs, names, xs, ys, s, p0, p45, p90, abortAt);
      var run := Sequence(t, fs, fileName, xs, ys, s, p0, p45, p90, abortAt);
      assert run.steps == RadioSteps(s.simulateUsrp) + [ConnectPrinter] + inner.steps + [DisconnectPrinter];
      assert ShowResults in run.steps ==> ShowResults in inner.steps;
    }
  }

  /** The `try` block of an unwritable session: the same facts before the disconnect. */
  lemma UnwritablePhased(t: Transcendental, fs: FileStore, names: ScanFiles, xs: seq<real>, ys: seq<real>,
                         s: Session, p0: Pass, p45: Pass, p90: Pass, abortAt: Option<Phase>)
    requires !s.writable
    requires PlotUtils.CombinedPath(names.file0) !in fs
    ensures var inner := Phased(t, fs, names, xs, ys, s, p0, p45, p90, abortAt);
      && inner.outcome != Finished
      && inner.files == fs
      && (ShowResults in inner.steps ==> inner.outcome.Raised?)
  {
    UnwritablePassKeeps(fs, names.file0, xs, ys, s, p0);
    UnwritablePassKeeps(fs, names.file45, xs, ys, s, p45);
    UnwritablePassKeeps(fs, names.file90, xs, ys, s, p90);
    var phases := Phases(names, PassTrace(xs, ys, s, p0), PassTrace(xs, ys, s, p45), PassTrace(xs, ys, s, p90));
    PhasePrefixes(phases);
    if abortAt !in {Some(Adjusting), Some(Rotating45), Some(Rotating90)} {
      var combined := Combine(t, fs, names.file0, names.file90);
      if combined.Ok? {
        var saved := SaveScanResults(fs, names.combined, combined.value.results, Some(combined.value.metadata), s.writable);
        assert saved == fs;
        var shown := PlotUtils.Selector(t, fs, names.file0, names.file90, names.file45, s.writable);
        assert shown.range.Err? && shown.files == fs;
      }
    }
  }

  /** PrinterConnection.connect() has no return statement on any path: its value is None. */
  const ConnectReturn: Option<bool> := None

  /**
   * scan_field with its connection check as written: `not connection_status or not
   * printer.connected` applied to what connect() returned. `not None` holds, so the
   * check returns at once, and `or` never reads `connected`, an attribute the connection
   * never sets.
   */
  function SequenceAsWritten(t: Transcendental, fs: FileStore, fileName: string, xs: seq<real>, ys: seq<real>,
                             s: Session, p0: Pass, p45: Pass, p90: Pass, abortAt: Option<Phase>): Run
  {
    var pre := RadioSteps(s.simulateUsrp);
    if !s.simulateUsrp && !s.radioReady then Run(RadioInitFailed, pre, fs)
    else if ConnectReturn != Some(true) then Run(PrinterConnectFailed, pre + [ConnectPrinter], fs)
    else Sequence(t, fs, fileName, xs, ys, s, p0, p45, p90, abortAt)
  }

  /**
   * As written, every session that gets past the radio returns right after connecting:
   * the printer is never homed, nothing is scanned and nothing is disconnected, even when
   * the connection is up and the intended sequence would run.
   */
  lemma ConnectCheckAlwaysReturns(t: Transcendental, fs: FileStore, fileName: string, xs: seq<real>, ys: seq<real>,
                                  s: Session, p0: Pass, p45: Pass, p90: Pass, abortAt: Option<Phase>)
    requires s.simulateUsrp || s.radioReady
    ensures SequenceAsWritten(t, fs, fileName, xs, ys, s, p0, p45, p90, abortAt)
         == Run(PrinterConnectFailed, RadioSteps(s.simulateUsrp) + [ConnectPrinter], fs)
    ensures s.printerConnected ==>
      InitializePrinter in Sequence(t, fs, fileName, xs, ys, s, p0, p45, p90, abortAt).steps
      && InitializePrinter !in SequenceAsWritten(t, fs, fileName, xs, ys, s, p0, p45, p90, abortAt).steps
  {
    if s.printerConnected {
      ConnectedSequence(t, fs, fileName, xs, ys, s, p0, p45, p90, abortAt);
      var run := Sequence(t, fs, fileName, xs, ys, s, p0, p45, p90, abortAt);
      var pre := RadioSteps(s.simulateUsrp) + [ConnectPrinter];
      assert run.steps[|pre|] == InitializePrinter;
    }
  }
}
