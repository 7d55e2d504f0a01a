/**
 * The row-major raster shared by both scan loops, the G-code a probe move sends, and the
 * filtering of a scan's readings into stored points (absent readings leave no entry).
 */
module Raster {
  import opened Wrappers
  import opened Numeric
  import opened FileUtils

  /** A printer command: a linear move (G1) or the wait for all moves to finish (M400). */
  datatype GCode = G1(x: real, y: real, z: Option<real>, feed: nat) | M400

  /** move_probe: the G1 command to (x, y), with z when given, at the feed rate, then its own M400. */
  function MoveProbe(x: real, y: real, z: Option<real>, feed: nat): seq<ScanEvent> {
    [Cmd(G1(x, y, z, feed)), Cmd(M400)]
  }

  /** One move_probe sends the probe to exactly its own target and ends by waiting for the move. */
  lemma MoveProbeTargets(x: real, y: real, z: Option<real>, feed: nat)
    ensures Targets(MoveProbe(x, y, z, feed)) == [(x, y)]
    ensures var t := MoveProbe(x, y, z, feed); t[|t| - 1] == Cmd(M400)
  {
    var first := [Cmd(G1(x, y, z, feed))];
    var t := MoveProbe(x, y, z, feed);
    assert t[..1] == first && first[..0] == [];
    assert Targets(first) == Targets([]) + [(x, y)];
  }

  /** The statistics printed once the first row is done, or the warning printed instead. */
  datatype RowReport =
    | RowStats(mean: real, min: real, max: real, valid: nat, outOf: nat)
    | NoValidReadings

  /** sum/len, min and max of the first row's readings, counted out of the row's length. */
  function Report(values: seq<real>, rowLength: nat): (r: RowReport)
    ensures r.NoValidReadings? <==> |values| == 0
    ensures r.RowStats? ==> r.valid == |values| && r.outOf == rowLength
    ensures r.RowStats? ==> r.mean * |values| as real == Sum(values)
    ensures r.RowStats? ==> r.min in values && r.max in values
    ensures r.RowStats? ==> forall i :: 0 <= i < |values| ==> r.min <= values[i] <= r.max
  {
    if |values| == 0 then NoValidReadings
    else RowStats(Mean(values).value, SeqMin(values), SeqMax(values), |values|, rowLength)
  }

  /** What a scan loop does, step by step, as far as it can be observed. */
  datatype ScanEvent =
    | Cmd(g: GCode)                      // a command sent to the printer
    | LineWait                           // the pause at the start of a row
    | LineProbe                          // the extra reading at the start of a row, only printed
    | FlushRead                          // a discarded reading that empties the receive buffer
    | Settle                             // the pause before the kept reading
    | Measure                            // the reading that is kept when present
    | FirstRowSummary(report: RowReport) // printed once, after the first row
    | Refresh(points: nat)               // the live plot redrawn from that many stored points
    | InitPrinter                        // power on, home, fast Z move
    | Disconnect                         // the printer connection is closed

  /** The number of elements of s that satisfy p. */
  function Count<T>(s: seq<T>, p: T -> bool): nat
    decreases |s|
  {
    if |s| == 0 then 0 else Count(s[..|s| - 1], p) + (if p(s[|s| - 1]) then 1 else 0)
  }

  lemma {:induction false} CountConcat<T>(a: seq<T>, b: seq<T>, p: T -> bool)
    ensures Count(a + b, p) == Count(a, p) + Count(b, p)
    decreases |b|
  {
    if |b| == 0 {
      assert a + b == a;
    } else {
      assert (a + b)[..|a + b| - 1] == a + b[..|b| - 1];
      CountConcat(a, b[..|b| - 1], p);
    }
  }

  /** The (x, y) targets of the G1 moves in a trace, in the order they are sent. */
  function Targets(t: seq<ScanEvent>): seq<(real, real)>
    decreases |t|
  {
    if |t| == 0 then []
    else
      var last := t[|t| - 1];
      Targets(t[..|t| - 1]) + (if last.Cmd? && last.g.G1? then [(last.g.x, last.g.y)] else [])
  }

  lemma {:induction false} TargetsConcat(a: seq<ScanEvent>, b: seq<ScanEvent>)
    ensures Targets(a + b) == Targets(a) + Targets(b)
    decreases |b|
  {
    if |b| == 0 {
      assert a + b == a;
    } else {
      assert (a + b)[..|a + b| - 1] == a + b[..|b| - 1];
      TargetsConcat(a, b[..|b| - 1]);
    }
  }

  /** Move-free stretches around and between parts of a trace add no targets. */
  lemma Sandwich(a: seq<ScanEvent>, b: seq<ScanEvent>, c: seq<ScanEvent>, d: seq<ScanEvent>)
    requires Targets(b) == [] && Targets(d) == []
    ensures Targets(a + b + c + d) == Targets(a) + Targets(c)
  {
    TargetsConcat(a, b);
    TargetsConcat(a + b, c);
    TargetsConcat(a + b + c, d);
  }

  /** Events that are not G1 moves contribute no target. */
  lemma {:induction false} NoMoveTargets(t: seq<ScanEvent>)
    requires forall k :: 0 <= k < |t| ==> !(t[k].Cmd? && t[k].g.G1?)
    ensures Targets(t) == []
    decreases |t|
  {
    if |t| > 0 {
      NoMoveTargets(t[..|t| - 1]);
    }
  }

  /** The cells of one row, left to right. */
  function Row(xs: seq<real>, y: real): (row: seq<(real, real)>)
    ensures |row| == |xs|
    ensures forall j :: 0 <= j < |xs| ==> row[j] == (xs[j], y)
  {
    seq(|xs|, j requires 0 <= j < |xs| => (xs[j], y))
  }

  /** All cells: row ys[0] from the first x to the last, then row ys[1], and so on. */
  function Grid(xs: seq<real>, ys: seq<real>): (g: seq<(real, real)>)
    ensures |g| == |xs| * |ys|
    decreases |ys|
  {
    if |ys| == 0 then []
    else
      var g := Grid(xs, ys[..|ys| - 1]) + Row(xs, ys[|ys| - 1]);
      assert |g| == |xs| * (|ys| - 1) + |xs|;
      g
  }

  /** Cell (row i, column j) sits at flat index i*|xs| + j: x varies fastest. */
  lemma {:induction false} GridAt(xs: seq<real>, ys: seq<real>, i: nat, j: nat)
    requires i < |ys| && j < |xs|
    ensures i * |xs| + j < |xs| * |ys|
    ensures Grid(xs, ys)[i * |xs| + j] == (xs[j], ys[i])
    decreases |ys|
  {
    var init := ys[..|ys| - 1];
    assert |Grid(xs, init)| == |xs| * (|ys| - 1);
    if i == |ys| - 1 {
      assert i * |xs| + j == |xs| * (|ys| - 1) + j;
    } else {
      GridAt(xs, init, i, j);
      assert i * |xs| + j < |xs| * (|ys| - 1);
    }
  }

  /** The first r rows of the raster are the raster of the first r y values. */
  lemma {:induction false} GridPrefix(xs: seq<real>, ys: seq<real>, r: nat)
    requires r <= |ys|
    ensures r * |xs| <= |xs| * |ys|
    ensures Grid(xs, ys)[..r * |xs|] == Grid(xs, ys[..r])
    decreases |ys|
  {
    if r < |ys| {
      var init := ys[..|ys| - 1];
      assert |Grid(xs, init)| == |xs| * (|ys| - 1);
      GridPrefix(xs, init, r);
      assert init[..r] == ys[..r];
      assert r * |xs| <= |xs| * (|ys| - 1);
    } else {
      assert ys[..r] == ys;
    }
  }

  /** The readings of the first n visited cells, the k-th cell's reading being `reading(k)`. */
  function Readings(reading: nat -> Option<real>, n: nat): (r: seq<Option<real>>)
    ensures |r| == n
  {
    seq(n, k requires 0 <= k => reading(k))
  }

  /** The stored point for a reading, if the reading is present. */
  function Entry(cell: (real, real), reading: Option<real>): seq<Point> {
    if reading.Some? then [Point(cell.0, cell.1, reading)] else []
  }

  /** The points a scan stores for its visited cells: one per present reading, in visiting order. */
  function Present(cells: seq<(real, real)>, readings: seq<Option<real>>): seq<Point>
    requires |cells| == |readings|
    decreases |cells|
  {
    if |cells| == 0 then []
    else
      Present(cells[..|cells| - 1], readings[..|cells| - 1]) + Entry(cells[|cells| - 1], readings[|cells| - 1])
  }

  /** The present readings, in order (the power values a scan collects). */
  function Values(readings: seq<Option<real>>): seq<real>
    decreases |readings|
  {
    if |readings| == 0 then []
    else
      Values(readings[..|readings| - 1])
        + (if readings[|readings| - 1].Some? then [readings[|readings| - 1].value] else [])
  }

  /** The positions of the present readings, in increasing order. */
  function SomeIndices(readings: seq<Option<real>>): seq<nat>
    decreases |readings|
  {
    if |readings| == 0 then []
    else
      SomeIndices(readings[..|readings| - 1])
        + (if readings[|readings| - 1].Some? then [|readings| - 1] else [])
  }

  /** Visiting one more cell appends at most that cell's point. */
  lemma PresentStep(cells: seq<(real, real)>, readings: seq<Option<real>>, k: nat)
    requires |cells| == |readings| && k < |cells|
    ensures Present(cells[..k + 1], readings[..k + 1])
         == Present(cells[..k], readings[..k]) + Entry(cells[k], readings[k])
    ensures Values(readings[..k + 1])
         == Values(readings[..k]) + (if readings[k].Some? then [readings[k].value] else [])
  {
    assert cells[..k + 1][..k] == cells[..k];
    assert readings[..k + 1][..k] == readings[..k];
  }

  /**
   * The stored points are an order-preserving subsequence of the visited cells: entry k
   * is the cell of the k-th present reading, and every present reading has its entry.
   */
  lemma PresentIsSubsequence(cells: seq<(real, real)>, readings: seq<Option<real>>)
    requires |cells| == |readings|
    ensures var res, idx := Present(cells, readings), SomeIndices(readings);
      |res| == |idx|
      && (forall k :: 0 <= k < |idx| ==>
            idx[k] < |cells| && readings[idx[k]].Some? && res[k] == Point(cells[idx[k]].0, cells[idx[k]].1, readings[idx[k]]))
      && (forall k, l :: 0 <= k < l < |idx| ==> idx[k] < idx[l])
      && (forall i :: 0 <= i < |readings| && readings[i].Some? ==> i in idx)
  {
    SomeIndicesSorted(readings);
    PresentAtIndices(cells, readings);
  }

  /** The positions of the present readings: in range, present, increasing, and all of them. */
  lemma {:induction false} SomeIndicesSorted(readings: seq<Option<real>>)
    ensures forall k :: 0 <= k < |SomeIndices(readings)| ==>
      SomeIndices(readings)[k] < |readings| && readings[SomeIndices(readings)[k]].Some?
    ensures forall k, l :: 0 <= k < l < |SomeIndices(readings)| ==> SomeIndices(readings)[k] < SomeIndices(readings)[l]
    ensures forall i :: 0 <= i < |readings| && readings[i].Some? ==> i in SomeIndices(readings)
    decreases |readings|
  {
    if |readings| > 0 {
      var n := |readings| - 1;
      var rs := readings[..n];
      SomeIndicesSorted(rs);
      var idx0, idx := SomeIndices(rs), SomeIndices(readings);
      assert idx == idx0 + (if readings[n].Some? then [n] else []);
      forall k | 0 <= k < |idx|
        ensures idx[k] < |readings| && readings[idx[k]].Some?
      {
        if k < |idx0| {
          assert idx[k] == idx0[k] && rs[idx0[k]] == readings[idx0[k]];
        }
      }
      forall k, l | 0 <= k < l < |idx|
        ensures idx[k] < idx[l]
      {
        assert idx[k] == idx0[k] < n;
        if l < |idx0| {
          assert idx[l] == idx0[l];
        }
      }
      forall i | 0 <= i < |readings| && readings[i].Some?
        ensures i in idx
      {
        if i < n {
          assert rs[i] == readings[i];
          assert i in idx0;
        }
      }
    }
  }

  /** Entry k of the stored points is the cell and reading at the k-th present position. */
  lemma {:induction false} PresentAtIndices(cells: seq<(real, real)>, readings: seq<Option<real>>)
    requires |cells| == |readings|
    ensures var res, idx := Present(cells, readings), SomeIndices(readings);
      |res| == |idx|
      && forall k :: 0 <= k < |idx| ==>
           idx[k] < |cells| && res[k] == Point(cells[idx[k]].0, cells[idx[k]].1, readings[idx[k]])
    decreases |cells|
  {
    if |cells| > 0 {
      var n := |cells| - 1;
      var cs, rs := cells[..n], readings[..n];
      PresentAtIndices(cs, rs);
      SomeIndicesSorted(rs);
      var res0, idx0 := Present(cs, rs), SomeIndices(rs);
      var res, idx := Present(cells, readings), SomeIndices(readings);
      assert res == res0 + Entry(cells[n], readings[n]);
      assert idx == idx0 + (if readings[n].Some? then [n] else []);
      forall k | 0 <= k < |idx|
        ensures idx[k] < |cells| && res[k] == Point(cells[idx[k]].0, cells[idx[k]].1, readings[idx[k]])
      {
        if k < |idx0| {
          assert idx[k] == idx0[k] && res[k] == res0[k];
          assert rs[idx0[k]] == readings[idx0[k]] && cs[idx0[k]] == cells[idx0[k]];
        }
      }
    }
  }

  /** The strengths of the stored points are exactly the collected power values. */
  lemma {:induction false} PresentStrengths(cells: seq<(real, real)>, readings: seq<Option<real>>)
    requires |cells| == |readings|
    ensures Strengths(Present(cells, readings)) == Ok(Values(readings))
    decreases |cells|
  {
    if |cells| > 0 {
      var n := |cells| - 1;
      PresentStrengths(cells[..n], readings[..n]);
      var e := Entry(cells[n], readings[n]);
      if readings[n].Some? {
        assert e[0].fieldStrength.Some?;
        assert Strengths(e).Ok? && |Strengths(e).value| == 1;
        assert Strengths(e).value[0] == readings[n].value;
        assert Strengths(e).value == [readings[n].value];
      } else {
        assert e == [];
      }
      StrengthsConcat(Present(cells[..n], readings[..n]), Entry(cells[n], readings[n]));
    }
  }

  lemma {:induction false} StrengthsConcat(a: seq<Point>, b: seq<Point>)
    requires Strengths(a).Ok? && Strengths(b).Ok?
    ensures Strengths(a + b) == Ok(Strengths(a).value + Strengths(b).value)
  {
    var s := Strengths(a + b);
    assert s.Ok?;
    assert s.value == Strengths(a).value + Strengths(b).value;
  }

  /** Filtering distributes over concatenation. */
  lemma {:induction false} PresentConcat(a: seq<(real, real)>, ra: seq<Option<real>>,
                                         b: seq<(real, real)>, rb: seq<Option<real>>)
    requires |a| == |ra| && |b| == |rb|
    ensures Present(a + b, ra + rb) == Present(a, ra) + Present(b, rb)
    decreases |b|
  {
    if |b| == 0 {
      assert a + b == a && ra + rb == ra;
    } else {
      var n := |b| - 1;
      PresentConcat(a, ra, b[..n], rb[..n]);
      var ab, rab := a + b, ra + rb;
      assert ab[..|ab| - 1] == a + b[..n];
      assert rab[..|ab| - 1] == ra + rb[..n];
      assert ab[|ab| - 1] == b[n] && rab[|ab| - 1] == rb[n];
      assert Present(ab, rab) == Present(a + b[..n], ra + rb[..n]) + Entry(b[n], rb[n]);
      assert Present(b, rb) == Present(b[..n], rb[..n]) + Entry(b[n], rb[n]);
      AppendAssoc(Present(a, ra), Present(b[..n], rb[..n]), Entry(b[n], rb[n]));
    }
  }

  lemma AppendAssoc<T>(a: seq<T>, b: seq<T>, c: seq<T>)
    ensures a + b + c == a + (b + c)
  {
  }

  lemma {:induction false} ValuesConcat(ra: seq<Option<real>>, rb: seq<Option<real>>)
    ensures Values(ra + rb) == Values(ra) + Values(rb)
    decreases |rb|
  {
    if |rb| == 0 {
      assert ra + rb == ra;
    } else {
      var n := |rb| - 1;
      ValuesConcat(ra, rb[..n]);
      var rab := ra + rb;
      assert rab[..|rab| - 1] == ra + rb[..n];
      assert rab[|rab| - 1] == rb[n];
    }
  }

  /** Both filters distribute over concatenation. */
  lemma PresentValuesConcat(a: seq<(real, real)>, ra: seq<Option<real>>,
                            b: seq<(real, real)>, rb: seq<Option<real>>)
    requires |a| == |ra| && |b| == |rb|
    ensures Present(a + b, ra + rb) == Present(a, ra) + Present(b, rb)
    ensures Values(ra + rb) == Values(ra) + Values(rb)
  {
    PresentConcat(a, ra, b, rb);
    ValuesConcat(ra, rb);
  }

  /** A scan stores as many points as it collected power values. */
  lemma PresentLength(cells: seq<(real, real)>, readings: seq<Option<real>>)
    requires |cells| == |readings|
    ensures |Present(cells, readings)| == |Values(readings)|
  {
    PresentStrengths(cells, readings);
  }

  /** Readings taken later never change the points stored for the earlier cells. */
  lemma {:induction false} PresentPrefix(cells: seq<(real, real)>, readings: seq<Option<real>>, m: nat)
    requires |cells| == |readings| && m <= |cells|
    ensures Present(cells[..m], readings[..m]) <= Present(cells, readings)
    decreases |cells| - m
  {
    if m < |cells| {
      PresentPrefix(cells, readings, m + 1);
      PresentStep(cells, readings, m);
    } else {
      assert cells[..m] == cells && readings[..m] == readings;
    }
  }
}
