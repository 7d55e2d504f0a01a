/**
 * Numbers as the scanner's Python code sees them: doubles modelled as reals plus NaN,
 * numpy's mean, Python's int() truncation and ceil, min and max of a list, and the
 * transcendental functions, which are passed in rather than defined.
 */
module Numeric {

  /** A double as modelled here: a real number or NaN (numpy's result for mean([])). */
  datatype Float = NaN | Num(value: real)

  /** The guard added before every log10 of a power (1e-12). */
  const Epsilon: real := 0.000000000001

  /**
   * The transcendental functions the code calls (numpy's log10, 10**x, sqrt, arctan2).
   * They are left uninterpreted: every property proved here holds for any choice of them,
   * unless a lemma states the algebraic law it needs as a precondition.
   */
  datatype Transcendental = Transcendental(
    log10: real -> real,
    pow10: real -> real,
    sqrt: real -> real,
    atan2: (real, real) -> real)

  /** 10 ** (dBm / 10): a dBm value as linear power. */
  function Linear(t: Transcendental, dbm: real): real {
    t.pow10(dbm / 10.0)
  }

  /** sqrt(a^2 + b^2): the magnitude of two orthogonal components. */
  function Magnitude(t: Transcendental, a: real, b: real): real {
    t.sqrt(a * a + b * b)
  }

  function Sum(s: seq<real>): real {
    if |s| == 0 then 0.0 else s[0] + Sum(s[1..])
  }

  lemma {:induction false} SumConcat(a: seq<real>, b: seq<real>)
    ensures Sum(a + b) == Sum(a) + Sum(b)
  {
    if |a| > 0 {
      assert (a + b)[1..] == a[1..] + b;
      SumConcat(a[1..], b);
    } else {
      assert a + b == b;
    }
  }

  /** A sum depends only on the multiset of its terms. */
  lemma {:induction false} SumPermutation(a: seq<real>, b: seq<real>)
    requires multiset(a) == multiset(b)
    ensures Sum(a) == Sum(b)
  {
    if |a| > 0 {
      assert a[0] in multiset(b);
      var k :| 0 <= k < |b| && b[k] == a[0];
      RemoveAt(b, k);
      assert a == [a[0]] + a[1..];
      assert multiset(a[1..]) == multiset(a) - multiset{a[0]};
      SumPermutation(a[1..], b[..k] + b[k + 1..]);
    } else {
      assert |multiset(b)| == 0;
    }
  }

  /** Taking out the element at k leaves the other terms and removes exactly that term from the sum. */
  lemma RemoveAt(b: seq<real>, k: nat)
    requires k < |b|
    ensures multiset(b[..k] + b[k + 1..]) == multiset(b) - multiset{b[k]}
    ensures Sum(b) == b[k] + Sum(b[..k] + b[k + 1..])
  {
    var front, back := b[..k], b[k + 1..];
    SplitAt(b, k);
    RemovedMultiset(front, b[k], back);
    RemovedSum(front, b[k], back);
  }

  /** A sequence is its part before k, its k-th element and its part after k. */
  lemma SplitAt<T>(b: seq<T>, k: nat)
    requires k < |b|
    ensures b == b[..k] + [b[k]] + b[k + 1..]
  {
    assert b[k..] == [b[k]] + b[k + 1..];
    assert b == b[..k] + b[k..];
  }

  lemma RemovedMultiset(front: seq<real>, x: real, back: seq<real>)
    ensures multiset(front + back) == multiset(front + [x] + back) - multiset{x}
  {
    assert multiset(front + [x] + back) == multiset(front) + multiset{x} + multiset(back);
  }

  lemma RemovedSum(front: seq<real>, x: real, back: seq<real>)
    ensures Sum(front + [x] + back) == x + Sum(front + back)
  {
    SumConcat(front + [x], back);
    SumConcat(front, [x]);
    SumConcat(front, back);
    assert Sum([x]) == x;
  }

  /** numpy's mean: the arithmetic mean, or NaN for an empty list. */
  function Mean(s: seq<real>): (r: Float)
    ensures r.NaN? <==> |s| == 0
    ensures r.Num? ==> r.value * |s| as real == Sum(s)
  {
    if |s| == 0 then NaN else Num(Sum(s) / |s| as real)
  }

  /** A mean depends only on the multiset of the averaged values, not on their order. */
  lemma MeanPermutation(a: seq<real>, b: seq<real>)
    requires multiset(a) == multiset(b)
    ensures Mean(a) == Mean(b)
  {
    assert |a| == |multiset(a)| == |multiset(b)| == |b|;
    SumPermutation(a, b);
  }

  /** The received-power conversion shared by every radio routine: 10*log10(p + 1e-12) + 30 - gain. */
  function ToDbm(t: Transcendental, linear: real, gain: real): real {
    10.0 * t.log10(linear + Epsilon) + 30.0 - gain
  }

  /** The same conversion applied to a double, where NaN stays NaN. */
  function FloatToDbm(t: Transcendental, f: Float, gain: real): (r: Float)
    ensures r.NaN? <==> f.NaN?
    ensures f.Num? ==> r.value == ToDbm(t, f.value, gain)
  {
    match f
    case NaN => NaN
    case Num(p) => Num(ToDbm(t, p, gain))
  }

  /** Python's min() of a non-empty list. */
  function SeqMin(s: seq<real>): (m: real)
    requires |s| > 0
    ensures m in s
    ensures forall i :: 0 <= i < |s| ==> m <= s[i]
  {
    if |s| == 1 then s[0]
    else
      var rest := SeqMin(s[1..]);
      if s[0] <= rest then s[0] else rest
  }

  /** Python's max() of a non-empty list. */
  function SeqMax(s: seq<real>): (m: real)
    requires |s| > 0
    ensures m in s
    ensures forall i :: 0 <= i < |s| ==> s[i] <= m
  {
    if |s| == 1 then s[0]
    else
      var rest := SeqMax(s[1..]);
      if rest <= s[0] then s[0] else rest
  }

  /** Python's int() of a float: truncation toward zero. */
  function Trunc(r: real): (n: int)
    ensures 0.0 <= r ==> 0 <= n && n as real <= r < n as real + 1.0
    ensures r < 0.0 ==> n <= 0 && n as real - 1.0 < r <= n as real
  {
    if r >= 0.0 then r.Floor else -((-r).Floor)
  }

  /** The ceiling of a real (the element count numpy's arange computes). */
  function Ceil(r: real): (n: int)
    ensures r <= n as real < r + 1.0
  {
    -((-r).Floor)
  }
}
