/**
 * The older stand-alone scanner: its own grid built with numpy's arange and a two-point
 * fallback, and its single scan loop over the flattened grid.
 */
module Scanner {
  import opened Wrappers
  import opened Numeric
  import opened FileUtils
  import opened Raster
  import Config

  /** This scanner's own board (3 cm by 2 cm) and resolution (50 points per centimetre). */
  const PcbWidth: real := 3.0
  const PcbHeight: real := 2.0
  const Resolution: real := 50.0

  /** The module-level grid axes x_values and y_values over the board, one step per 1/RESOLUTION cm. */
  const XValues: seq<real> := ScannerAxis(PcbWidth, 1.0 / Resolution)
  const YValues: seq<real> := ScannerAxis(PcbHeight, 1.0 / Resolution)

  /** Where the bare result list is written. */
  const OutputFile: string := "scan_results.json"

  /** The default feed rate of move_probe and the slower one used around the perimeter. */
  const ScanFeed: nat := 3000
  const PerimeterFeed: nat := 800

  /** numpy's arange length: ceil((stop - start) / step), or 0 when that is not positive. */
  function ArangeCount(start: real, stop: real, step: real): nat
    requires step != 0.0
  {
    if Ceil((stop - start) / step) > 0 then Ceil((stop - start) / step) else 0
  }

  /** numpy's arange(start, stop, step): start, start + step, ... while short of stop. */
  function Arange(start: real, stop: real, step: real): (a: seq<real>)
    requires step != 0.0
  {
    seq(ArangeCount(start, stop, step), i => start + i as real * step)
  }

  /** The scanner's axis: arange(0, width + step, step), replaced by [0, width] when shorter than 2. */
  function ScannerAxis(width: real, step: real): (a: seq<real>)
    requires step != 0.0
    ensures |a| >= 2 && a[0] == 0.0
  {
    var r := Arange(0.0, width + step, step);
    if |r| < 2 then [0.0, width] else r
  }

  /** (width + step) / step is one more than width / step. */
  lemma ShiftedQuotient(width: real, step: real)
    requires step != 0.0
    ensures (width + step - 0.0) / step == width / step + 1.0
  {
    var q := (width + step - 0.0) / step;
    assert q * step == width + step;
    assert (width / step + 1.0) * step == width + step;
    MulCancel(q, width / step + 1.0, step);
  }

  /** Equal products with the same non-zero factor have equal cofactors. */
  lemma MulCancel(a: real, b: real, c: real)
    requires c != 0.0 && a * c == b * c
    ensures a == b
  {
    assert (a - b) * c == 0.0;
  }

  /** Without the fallback, the axis starts at 0, rises by one step and stays below width + step. */
  lemma {:induction false} ScannerAxisBounds(width: real, step: real)
    requires step > 0.0 && width > 0.0
    ensures ScannerAxis(width, step) == Arange(0.0, width + step, step)
    ensures var a := ScannerAxis(width, step);
      forall i :: 0 <= i < |a| ==> a[i] == i as real * step && 0.0 <= a[i] < width + step
  {
    var q := width / step;
    ShiftedQuotient(width, step);
    var n := Ceil(q + 1.0);
    assert q + 1.0 <= n as real < q + 2.0;
    assert q > 0.0 by {
      assert q * step == width;
    }
    assert n >= 2;
    var a := ScannerAxis(width, step);
    assert |a| == n;
    assert (q + 1.0) * step == width + step by {
      assert (q + 1.0) * step == q * step + step;
      assert q * step == width;
    }
    forall i | 0 <= i < |a|
      ensures a[i] == i as real * step && 0.0 <= a[i] < width + step
    {
      assert a[i] == 0.0 + i as real * step;
      assert (i as real) < q + 1.0;
      PointBelow(i, q, step, width);
    }
  }

  /** The i-th multiple of the step, for i below q + 1, lies in [0, (q + 1) * step). */
  lemma PointBelow(i: nat, q: real, step: real, width: real)
    requires step > 0.0 && (i as real) < q + 1.0 && (q + 1.0) * step == width + step
    ensures 0.0 <= i as real * step < width + step
  {
    Config.ScaleStrict(i as real, q + 1.0, step);
    Config.ScaleMonotone(0.0, i as real, step);
  }

  /** A board of width 0 falls back to the two points [0, 0]. */
  lemma ScannerAxisZeroWidth(step: real)
    requires step != 0.0
    ensures ScannerAxis(0.0, step) == [0.0, 0.0]
  {
    ShiftedQuotient(0.0, step);
    assert Ceil(1.0) == 1;
  }

  /** A board narrower than one step gets [0, step], its second point beyond the board's edge. */
  lemma ScannerAxisNarrowBoard(width: real, step: real)
    requires step > 0.0 && 0.0 < width < step
    ensures ScannerAxis(width, step) == [0.0, step]
    ensures step > width
  {
    var q := width / step;
    ShiftedQuotient(width, step);
    assert 0.0 < q < 1.0 by {
      assert q * step == width;
      if q >= 1.0 {
        Config.ScaleMonotone(1.0, q, step);
      }
    }
    assert Ceil(q + 1.0) == 2;
  }

  /** When the width is a whole number of steps, both grid constructions agree. */
  lemma {:induction false} ScannerAxisOnMultiple(n: nat, step: real)
    requires step > 0.0 && n >= 1
    ensures ScannerAxis(n as real * step, step) == Config.Axis(n as real * step, step)
  {
    var width := n as real * step;
    assert width / step == n as real;
    ShiftedQuotient(width, step);
    assert Ceil(n as real + 1.0) == n + 1;
    assert Trunc(n as real) == n;
    ScannerAxisBounds(width, step);
    assert |Config.Axis(width, step)| == n + 1;
  }

  /**
   * Otherwise the arange axis has one point more than the truncating one, and that last
   * point lies beyond the board's edge.
   */
  lemma {:induction false} ScannerAxisOvershoot(width: real, step: real)
    requires step > 0.0 && width > 0.0
    requires (width / step).Floor as real != width / step
    ensures var c := Config.Axis(width, step);
      ScannerAxis(width, step) == c + [|c| as real * step] && |c| as real * step > width
  {
    OvershootCount(width, step);
    Config.AxisShape(width, step);
    Config.AxisWithinWidth(width, step);
    ScannerAxisBounds(width, step);
    var c := Config.Axis(width, step);
    var a := ScannerAxis(width, step);
    var e := c + [|c| as real * step];
    assert |a| == |e|;
    forall i | 0 <= i < |a|
      ensures a[i] == e[i]
    {
      if i < |c| {
        assert e[i] == c[i];
      } else {
        assert i == |c| && e[i] == |c| as real * step;
      }
    }
    assert a == e;
    assert |c| as real * step > width;
  }

  /** Off a whole number of steps, arange has int(width / step) + 2 points. */
  lemma OvershootCount(width: real, step: real)
    requires step > 0.0 && width > 0.0
    requires (width / step).Floor as real != width / step
    ensures |ScannerAxis(width, step)| == (width / step).Floor + 2
  {
    var q := width / step;
    var f := q.Floor;
    ShiftedQuotient(width, step);
    assert q > 0.0 by {
      assert q * step == width;
    }
    assert f as real < q < f as real + 1.0;
    assert Ceil(q + 1.0) == f + 2;
  }

  /** This scanner's board gets 151 points across and 101 down. */
  lemma ConfiguredScannerAxes()
    ensures |ScannerAxis(PcbWidth, 1.0 / Resolution)| == 151
    ensures |ScannerAxis(PcbHeight, 1.0 / Resolution)| == 101
  {
    var step := 1.0 / Resolution;
    ShiftedQuotient(PcbWidth, step);
    ShiftedQuotient(PcbHeight, step);
    assert PcbWidth / step == 150.0;
    assert PcbHeight / step == 100.0;
    assert Ceil(151.0) == 151;
    assert Ceil(101.0) == 101;
    ScannerAxisBounds(PcbWidth, step);
    ScannerAxisBounds(PcbHeight, step);
  }

  /** The five perimeter moves around the board, corner to corner, at the slow feed rate. */
  function PerimeterTrace(width: real, height: real): (t: seq<ScanEvent>)
    ensures |t| == 10
    ensures Targets(t) == [(0.0, 0.0), (width * 10.0, 0.0), (width * 10.0, height * 10.0), (0.0, height * 10.0), (0.0, 0.0)]
  {
    var corners := [(0.0, 0.0), (width * 10.0, 0.0), (width * 10.0, height * 10.0), (0.0, height * 10.0), (0.0, 0.0)];
    var t := MovesTrace(corners, None, PerimeterFeed);
    MovesTraceTargets(corners, None, PerimeterFeed);
    t
  }

  /** move_probe to each point in turn. */
  function MovesTrace(points: seq<(real, real)>, z: Option<real>, feed: nat): (t: seq<ScanEvent>)
    ensures |t| == 2 * |points|
    decreases |points|
  {
    if |points| == 0 then []
    else
      var p := points[|points| - 1];
      MovesTrace(points[..|points| - 1], z, feed) + MoveProbe(p.0, p.1, z, feed)
  }

  lemma {:induction false} MovesTraceTargets(points: seq<(real, real)>, z: Option<real>, feed: nat)
    ensures Targets(MovesTrace(points, z, feed)) == points
    decreases |points|
  {
    if |points| > 0 {
      var p := points[|points| - 1];
      var init := points[..|points| - 1];
      MovesTraceTargets(init, z, feed);
      MoveProbeTargets(p.0, p.1, z, feed);
      TargetsConcat(MovesTrace(init, z, feed), MoveProbe(p.0, p.1, z, feed));
    }
  }

  /** Where the interrupt stops a loop over n cells: before the move of the given cell, if any. */
  function Stop(interrupt: Option<nat>, n: nat): (stop: nat)
    ensures stop <= n
    ensures stop < n <==> interrupt.Some? && interrupt.value < n
  {
    if interrupt.Some? && interrupt.value < n then interrupt.value else n
  }

  /** What visiting cell k adds to the trace: the move, the reading, and every tenth cell a redraw. */
  function CellEvents(cells: seq<(real, real)>, reading: nat -> Option<real>,
                      simulatedPrinter: bool, k: nat): seq<ScanEvent>
    requires k < |cells|
  {
    var c := cells[k];
    (if simulatedPrinter then [] else MoveProbe(c.0 * 10.0, c.1 * 10.0, None, ScanFeed))
      + [Measure]
      + (if (k + 1) % 10 == 0 then [Refresh(|Present(cells[..k + 1], Readings(reading, k + 1))|)] else [])
  }

  /** The trace of the first n cells, in visiting order. */
  function CellsTrace(cells: seq<(real, real)>, reading: nat -> Option<real>,
                      simulatedPrinter: bool, n: nat): seq<ScanEvent>
    requires n <= |cells|
  {
    if n == 0 then []
    else CellsTrace(cells, reading, simulatedPrinter, n - 1) + CellEvents(cells, reading, simulatedPrinter, n - 1)
  }

  /** How scan_field ends. */
  datatype Outcome =
    | RadioInitFailed    // returned before the printer was created
    | PrinterUnavailable // returned before any scanning
    | Interrupted        // the interrupt propagated; nothing was saved
    | WriteFailed        // the scan finished but opening the output file raised; nothing was written
    | Completed          // the bare list of points was written

  /**
   * The scan loop of scan_field over the cells in np.ndindex order: move (unless
   * simulated), read, store a present reading, redraw every tenth cell; it ends early at
   * the interrupt.
   */
  method VisitCells(cells: seq<(real, real)>, simulatedPrinter: bool,
                    reading: nat -> Option<real>, interrupt: Option<nat>)
    returns (visited: nat, results: seq<Point>, events: seq<ScanEvent>)
    ensures visited == Stop(interrupt, |cells|)
    ensures results == Present(cells[..visited], Readings(reading, visited))
    ensures events == CellsTrace(cells, reading, simulatedPrinter, visited)
  {
    results, events := [], [];
    visited := 0;
    while visited < |cells|
      invariant 0 <= visited <= Stop(interrupt, |cells|)
      invariant results == Present(cells[..visited], Readings(reading, visited))
      invariant events == CellsTrace(cells, reading, simulatedPrinter, visited)
    {
      if interrupt == Some(visited) {
        break;
      }
      var i := visited;
      VisitStep(cells, reading, simulatedPrinter, i);
      var x, y := cells[i].0, cells[i].1;
      var step: seq<ScanEvent> := [];
      if !simulatedPrinter {
        step := MoveProbe(x * 10.0, y * 10.0, None, ScanFeed);
      }
      step := step + [Measure];
      var fieldStrength := reading(i);
      if fieldStrength.Some? {
        results := results + [Point(x, y, fieldStrength)];
      }
      if (i + 1) % 10 == 0 {
        step := step + [Refresh(|results|)];
      }
      assert step == CellEvents(cells, reading, simulatedPrinter, i);
      events := events + step;
      visited := i + 1;
    }
  }

  /** Visiting cell i appends its entry to the stored points and its events to the trace. */
  lemma VisitStep(cells: seq<(real, real)>, reading: nat -> Option<real>, simulatedPrinter: bool, i: nat)
    requires i < |cells|
    ensures Present(cells[..i + 1], Readings(reading, i + 1))
         == Present(cells[..i], Readings(reading, i)) + Entry(cells[i], reading(i))
    ensures CellsTrace(cells, reading, simulatedPrinter, i + 1)
         == CellsTrace(cells, reading, simulatedPrinter, i) + CellEvents(cells, reading, simulatedPrinter, i)
  {
    assert cells[..i + 1][..i] == cells[..i];
    assert Readings(reading, i + 1)[..i] == Readings(reading, i);
    assert Readings(reading, i + 1)[i] == reading(i);
  }

  /**
   * scan_field of the stand-alone scanner. The radio and printer initialisations are
   * given as their outcomes, the reading of cell k (an exception counts as absent) as
   * `reading(k)`, and a keyboard interrupt as the cell before whose move it strikes.
   * The cells are visited in np.ndindex order over (y, x), which is Grid(XValues, YValues).
   * `writable` says whether the unguarded open of the output file succeeds.
   */
  method ScanField(fs: FileStore, simulatedRadio: bool, radioReady: bool,
                   printerSocket: bool, simulatedPrinter: bool,
                   reading: nat -> Option<real>, interrupt: Option<nat>, writable: bool)
    returns (outcome: Outcome, results: seq<Point>, trace: seq<ScanEvent>, fs': FileStore)
    ensures outcome.RadioInitFailed? <==> !simulatedRadio && !radioReady
    ensures outcome.PrinterUnavailable? <==> (simulatedRadio || radioReady) && !printerSocket
    ensures outcome.RadioInitFailed? || outcome.PrinterUnavailable? ==> trace == [] && results == [] && fs' == fs
    ensures !outcome.RadioInitFailed? && !outcome.PrinterUnavailable? ==>
      var cells := Grid(XValues, YValues);
      var stop := Stop(interrupt, |cells|);
      && results == Present(cells[..stop], Readings(reading, stop))
      && trace == (if simulatedPrinter then [] else [InitPrinter] + PerimeterTrace(PcbWidth, PcbHeight))
                  + CellsTrace(cells, reading, simulatedPrinter, stop)
                  + (if simulatedPrinter then [] else [Disconnect])
      && (outcome.Interrupted? <==> stop < |cells|)
      && (outcome.Completed? <==> stop == |cells| && writable)
      && (outcome.Completed? ==> fs' == fs[OutputFile := Array(results)])
      && (!outcome.Completed? ==> fs' == fs)
  {
    results, trace, fs' := [], [], fs;
    if !simulatedRadio && !radioReady {
      return RadioInitFailed, results, trace, fs';
    }
    if !printerSocket {
      return PrinterUnavailable, results, trace, fs';
    }
    if !simulatedPrinter {
      trace := [InitPrinter] + PerimeterTrace(PcbWidth, PcbHeight);
    }
    var cells := Grid(XValues, YValues);
    var visited, events;
    visited, results, events := VisitCells(cells, simulatedPrinter, reading, interrupt);
    trace := trace + events;
    if !simulatedPrinter {
      trace := trace + [Disconnect];
    }
    if visited < |cells| {
      return Interrupted, results, trace, fs';
    }
    if !writable {
      return WriteFailed, results, trace, fs';
    }
    fs' := fs[OutputFile := Array(results)];
    outcome := Completed;
  }

  /** The cells' coordinates in millimetres (the probe's units: centimetres times ten). */
  function Millimetres(cells: seq<(real, real)>): (mm: seq<(real, real)>)
    ensures |mm| == |cells|
    ensures forall k :: 0 <= k < |cells| ==> mm[k] == (cells[k].0 * 10.0, cells[k].1 * 10.0)
    decreases |cells|
  {
    if |cells| == 0 then []
    else
      var c := cells[|cells| - 1];
      Millimetres(cells[..|cells| - 1]) + [(c.0 * 10.0, c.1 * 10.0)]
  }

  /**
   * The probe is sent to each visited cell in turn, in millimetres; with the grid's
   * cells, that is row by row with x varying fastest (GridAt).
   */
  lemma {:induction false} ScanMovesInOrder(cells: seq<(real, real)>, reading: nat -> Option<real>, n: nat)
    requires n <= |cells|
    ensures Targets(CellsTrace(cells, reading, false, n)) == Millimetres(cells[..n])
  {
    if n > 0 {
      ScanMovesInOrder(cells, reading, n - 1);
      CellEventsTargets(cells, reading, n - 1);
      TargetsConcat(CellsTrace(cells, reading, false, n - 1), CellEvents(cells, reading, false, n - 1));
      MillimetresStep(cells, n);
    }
  }

  /** One more cell adds its own target, in millimetres. */
  lemma MillimetresStep(cells: seq<(real, real)>, n: nat)
    requires 0 < n <= |cells|
    ensures Millimetres(cells[..n]) == Millimetres(cells[..n - 1]) + [(cells[n - 1].0 * 10.0, cells[n - 1].1 * 10.0)]
  {
    assert cells[..n][..n - 1] == cells[..n - 1];
  }

  /** The printer-driven events of cell k send the probe to that cell and nowhere else. */
  lemma CellEventsTargets(cells: seq<(real, real)>, reading: nat -> Option<real>, k: nat)
    requires k < |cells|
    ensures Targets(CellEvents(cells, reading, false, k)) == [(cells[k].0 * 10.0, cells[k].1 * 10.0)]
  {
    var c := cells[k];
    var move := MoveProbe(c.0 * 10.0, c.1 * 10.0, None, ScanFeed);
    var tail := [Measure]
      + (if (k + 1) % 10 == 0 then [Refresh(|Present(cells[..k + 1], Readings(reading, k + 1))|)] else []);
    assert CellEvents(cells, reading, false, k) == move + tail;
    NoMoveTargets(tail);
    CellTargets(c, tail);
  }

  /** A cell's events target that cell only, in millimetres. */
  lemma CellTargets(c: (real, real), tail: seq<ScanEvent>)
    requires Targets(tail) == []
    ensures Targets(MoveProbe(c.0 * 10.0, c.1 * 10.0, None, ScanFeed) + tail) == [(c.0 * 10.0, c.1 * 10.0)]
  {
    var move := MoveProbe(c.0 * 10.0, c.1 * 10.0, None, ScanFeed);
    MoveProbeTargets(c.0 * 10.0, c.1 * 10.0, None, ScanFeed);
    assert Targets(move) == [(c.0 * 10.0, c.1 * 10.0)];
    TargetsConcat(move, tail);
    assert Targets(move + tail) == Targets(move) + Targets(tail);
  }

  predicate IsRefresh(e: ScanEvent) { e.Refresh? }

  predicate IsMeasure(e: ScanEvent) { e.Measure? }

  /** Cell k takes one reading and redraws the plot iff it is a tenth cell. */
  lemma CellEventCounts(cells: seq<(real, real)>, reading: nat -> Option<real>, simulatedPrinter: bool, k: nat)
    requires k < |cells|
    ensures Count(CellEvents(cells, reading, simulatedPrinter, k), IsRefresh) == if (k + 1) % 10 == 0 then 1 else 0
    ensures Count(CellEvents(cells, reading, simulatedPrinter, k), IsMeasure) == 1
  {
    var c := cells[k];
    var move: seq<ScanEvent> := if simulatedPrinter then [] else MoveProbe(c.0 * 10.0, c.1 * 10.0, None, ScanFeed);
    var redraw: seq<ScanEvent> :=
      if (k + 1) % 10 == 0 then [Refresh(|Present(cells[..k + 1], Readings(reading, k + 1))|)] else [];
    assert CellEvents(cells, reading, simulatedPrinter, k) == move + [Measure] + redraw;
    CountCell(move, redraw, (k + 1) % 10 == 0);
  }

  /** Counting over one cell's events: the moves hold no reading and no redraw. */
  lemma CountCell(move: seq<ScanEvent>, redraw: seq<ScanEvent>, tenth: bool)
    requires move == [] || (|move| == 2 && move[0].Cmd? && move[1].Cmd?)
    requires (tenth && |redraw| == 1 && redraw[0].Refresh?) || (!tenth && redraw == [])
    ensures Count(move + [Measure] + redraw, IsRefresh) == if tenth then 1 else 0
    ensures Count(move + [Measure] + redraw, IsMeasure) == 1
  {
    CountConcat(move + [Measure], redraw, IsRefresh);
    CountConcat(move, [Measure], IsRefresh);
    CountConcat(move + [Measure], redraw, IsMeasure);
    CountConcat(move, [Measure], IsMeasure);
    if move != [] {
      assert move[..1] == [move[0]] && move[..1][..0] == [];
    }
    if tenth {
      assert redraw[..0] == [];
    }
    assert [Measure][..0] == [];
  }

  /** The plot is redrawn after every tenth visited cell, whatever the readings were. */
  lemma {:induction false} ScanRefreshCount(cells: seq<(real, real)>, reading: nat -> Option<real>,
                                            simulatedPrinter: bool, n: nat)
    requires n <= |cells|
    ensures Count(CellsTrace(cells, reading, simulatedPrinter, n), IsRefresh) == n / 10
    ensures Count(CellsTrace(cells, reading, simulatedPrinter, n), IsMeasure) == n
  {
    if n > 0 {
      ScanRefreshCount(cells, reading, simulatedPrinter, n - 1);
      var before := CellsTrace(cells, reading, simulatedPrinter, n - 1);
      var ev := CellEvents(cells, reading, simulatedPrinter, n - 1);
      CountConcat(before, ev, IsRefresh);
      CountConcat(before, ev, IsMeasure);
      CellEventCounts(cells, reading, simulatedPrinter, n - 1);
      TenthStep(n);
    }
  }

  /** One more cell adds a tenth exactly when it is a multiple of ten. */
  lemma TenthStep(n: nat)
    requires n > 0
    ensures n / 10 == (n - 1) / 10 + (if n % 10 == 0 then 1 else 0)
  {
  }
}
