/**
 * The scan configuration: the board size, the resolution, the step between grid points
 * and the two grid axes built from them by truncating list comprehensions.
 */
module Config {
  import opened Numeric

  /** Board width and height in centimetres. */
  const PcbWidth: real := 2.165
  const PcbHeight: real := 1.53

  /** Grid points per centimetre. */
  const Resolution: real := 30.0

  /** Receiver settings stored in every scan's metadata. */
  const CenterFrequency: real := 400000000.0
  const EquivalentBandwidth: real := 10000000.0
  const RxGain: real := 76.0
  const NbAverage: real := 100.0

  /** STEP_SIZE = 1 / RESOLUTION: the step is the exact reciprocal of the resolution. */
  function StepSize(resolution: real): (step: real)
    requires resolution != 0.0
    ensures step * resolution == 1.0
    ensures resolution > 0.0 ==> step > 0.0
  {
    1.0 / resolution
  }

  /** The number of grid points: int(width / step) + 1, or none when that is not positive. */
  function AxisCount(width: real, step: real): (n: nat)
    requires step != 0.0
  {
    if Trunc(width / step) + 1 > 0 then Trunc(width / step) + 1 else 0
  }

  /** [i * step for i in range(int(width / step) + 1)]. */
  function Axis(width: real, step: real): (a: seq<real>)
    requires step != 0.0
  {
    seq(AxisCount(width, step), i => i as real * step)
  }

  /** The axis has int(width/step) + 1 points and its i-th point is i * step. */
  lemma AxisShape(width: real, step: real)
    requires step > 0.0 && width >= 0.0
    ensures |Axis(width, step)| == (width / step).Floor + 1
    ensures forall i :: 0 <= i < |Axis(width, step)| ==> Axis(width, step)[i] == i as real * step
  {
    assert width / step >= 0.0;
  }

  /** The grid starts at 0 and rises by exactly one step from each point to the next. */
  lemma AxisEvenlySpaced(width: real, step: real)
    requires step > 0.0 && width >= 0.0
    ensures |Axis(width, step)| >= 1 && Axis(width, step)[0] == 0.0
    ensures forall i :: 0 <= i < |Axis(width, step)| - 1 ==>
      Axis(width, step)[i + 1] == Axis(width, step)[i] + step && Axis(width, step)[i] < Axis(width, step)[i + 1]
  {
    assert width / step >= 0.0;
  }

  /** Multiplying a bound by a positive step keeps the order. */
  lemma ScaleMonotone(a: real, b: real, step: real)
    requires step > 0.0 && a <= b
    ensures a * step <= b * step
  {
  }

  /** Multiplying by a positive step keeps a strict order. */
  lemma ScaleStrict(a: real, b: real, step: real)
    requires step > 0.0 && a < b
    ensures a * step < b * step
  {
    assert (b - a) * step > 0.0;
  }

  /**
   * Truncation keeps every point on the board: no point exceeds the width, and the next
   * multiple of the step, the first one left out, does.
   */
  lemma {:induction false} AxisWithinWidth(width: real, step: real)
    requires step > 0.0 && width >= 0.0
    ensures forall i :: 0 <= i < |Axis(width, step)| ==> Axis(width, step)[i] <= width
    ensures |Axis(width, step)| as real * step > width
  {
    var q := width / step;
    var n := q.Floor;
    assert q >= 0.0;
    assert |Axis(width, step)| == n + 1;
    assert q * step == width;
    forall i | 0 <= i < |Axis(width, step)|
      ensures Axis(width, step)[i] <= width
    {
      assert Axis(width, step)[i] == i as real * step;
      assert i as real <= q;
      ScaleMonotone(i as real, q, step);
    }
    assert q < (n + 1) as real;
    ScaleStrict(q, (n + 1) as real, step);
    assert |Axis(width, step)| as real * step == (n + 1) as real * step;
  }

  /** There is no two-point fallback: a board narrower than one step gets the single point 0. */
  lemma AxisNoFallback(width: real, step: real)
    requires step > 0.0 && 0.0 <= width < step
    ensures Axis(width, step) == [0.0]
  {
    var q := width / step;
    assert q < 1.0 by {
      assert q * step == width;
      if q >= 1.0 {
        ScaleMonotone(1.0, q, step);
      }
    }
    assert q.Floor == 0;
  }

  /** The configured board gets 65 points across and 46 down (64.95 and 45.9 truncated). */
  lemma ConfiguredAxes()
    ensures StepSize(Resolution) == 1.0 / 30.0
    ensures |Axis(PcbWidth, StepSize(Resolution))| == 65
    ensures |Axis(PcbHeight, StepSize(Resolution))| == 46
  {
    var step := StepSize(Resolution);
    assert PcbWidth / step == 64.95;
    assert PcbHeight / step == 45.9;
    assert (64.95).Floor == 64;
    assert (45.9).Floor == 45;
  }
}
