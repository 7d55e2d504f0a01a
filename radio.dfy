/**
 * radio_utils: received power from the software-defined radio. The hardware is reduced to
 * the receptions it delivers; each reception is the list of |s|^2 of the samples `recv`
 * wrote into the front of the caller's buffer, or the exception `recv` raised.
 */
module Radio {
  import opened Wrappers
  import opened Numeric

  /** The fixed buffer measure_field_strength receives into. */
  const FieldBufferLength: nat := 1024

  /** One call of streamer.recv(buffer, metadata). */
  datatype Reception =
    | Samples(powers: seq<real>)  // |s|^2 of each sample written, from index 0 on
    | Raises(error: Error)        // the exception recv raised

  /** n zero powers: np.zeros, or the part of a zeroed buffer recv did not write. */
  function Zeros(n: nat): (z: seq<real>)
    ensures |z| == n && forall k :: 0 <= k < n ==> z[k] == 0.0
  {
    seq(n, _ => 0.0)
  }

  lemma {:induction false} SumZeros(n: nat)
    ensures Sum(Zeros(n)) == 0.0
  {
    if n > 0 {
      assert Zeros(n)[1..] == Zeros(n - 1);
      SumZeros(n - 1);
    }
  }

  /** What a RuntimeError becomes (None) and what any other exception stays (raised). */
  function Caught<T>(e: Error): (r: Result<Option<T>>)
    ensures e == RuntimeError <==> r == Ok(None)
    ensures e != RuntimeError <==> r == Err(e)
  {
    if e == RuntimeError then Ok(None) else Err(e)
  }

  /**
   * measure_field_strength: one reception into a zeroed 1024-sample buffer, whose mean
   * |s|^2 is converted to dBm. The mean is over the whole buffer, so samples recv did not
   * deliver count as zeros: the linear power is the delivered sum divided by 1024.
   */
  function FieldStrength(t: Transcendental, rx: Reception, rxGain: real): (r: Result<Option<real>>)
    requires rx.Samples? ==> |rx.powers| <= FieldBufferLength
    ensures rx.Raises? ==> r == Caught(rx.error)
    ensures rx.Samples? ==> r == Ok(Some(ToDbm(t, Sum(rx.powers) / 1024.0, rxGain)))
  {
    match rx
    case Raises(e) => Caught(e)
    case Samples(p) =>
      var buffer := p + Zeros(FieldBufferLength - |p|);
      SumConcat(p, Zeros(FieldBufferLength - |p|));
      SumZeros(FieldBufferLength - |p|);
      Ok(Some(ToDbm(t, Mean(buffer).value, rxGain)))
  }

  /** The index of the first reception among the first n that raised, if any. */
  function FirstRaise(recv: nat -> Reception, n: nat): (k: Option<nat>)
    ensures k.Some? ==> k.value < n && recv(k.value).Raises?
    ensures k.Some? ==> forall j :: 0 <= j < k.value ==> recv(j).Samples?
    ensures k.None? ==> forall j :: 0 <= j < n ==> recv(j).Samples?
  {
    if n == 0 then None
    else
      var earlier := FirstRaise(recv, n - 1);
      if earlier.Some? then earlier
      else if recv(n - 1).Raises? then Some(n - 1)
      else None
  }

  /** The linear powers the first n receptions contribute: one per reception that delivered samples. */
  function Contributions(recv: nat -> Reception, n: nat): (c: seq<real>)
    requires forall j :: 0 <= j < n ==> recv(j).Samples?
    ensures |c| <= n
  {
    if n == 0 then []
    else
      var p := recv(n - 1).powers;
      Contributions(recv, n - 1) + (if |p| > 0 then [Mean(p).value] else [])
  }

  /**
   * get_power_dBm as a value: an exception from any of the num_averages receptions
   * ends it (a RuntimeError as None); otherwise the contributions are averaged in the
   * linear domain and then converted, and no contribution at all gives NaN, not None.
   */
  function PowerDbm(t: Transcendental, recv: nat -> Reception, rxGain: real, numAverages: nat): (r: Result<Option<Float>>)
  {
    var raised := FirstRaise(recv, numAverages);
    if raised.Some? then Caught(recv(raised.value).error)
    else Ok(Some(FloatToDbm(t, Mean(Contributions(recv, numAverages)), rxGain)))
  }

  /**
   * get_power_dBm: num_averages receptions into one reused buffer of num_samples; each
   * reception that delivered samples contributes the mean |s|^2 of the samples it wrote,
   * whatever the buffer still holds behind them. `calls` counts the recv calls made.
   */
  method GetPowerDbm(t: Transcendental, recv: nat -> Reception, rxGain: real, numSamples: nat, numAverages: nat)
    returns (r: Result<Option<Float>>, calls: nat)
    requires forall j :: recv(j).Samples? ==> |recv(j).powers| <= numSamples
    ensures r == PowerDbm(t, recv, rxGain, numAverages)
    ensures calls == match FirstRaise(recv, numAverages) case Some(k) => k + 1 case None => numAverages
  {
    var buffer := new real[numSamples](_ => 0.0);
    var powerLinear: seq<real> := [];
    calls := 0;
    for i := 0 to numAverages
      invariant calls == i
      invariant FirstRaise(recv, i).None?
      invariant powerLinear == Contributions(recv, i)
    {
      calls := calls + 1;
      match recv(i)
      case Raises(e) =>
        assert FirstRaise(recv, i + 1) == Some(i);
        FirstRaiseStops(recv, i + 1, numAverages);
        return Caught(e), calls;
      case Samples(p) =>
        forall j | 0 <= j < |p| {
          buffer[j] := p[j];
        }
        var n := |p|;
        if n > 0 {
          assert buffer[..n] == p;
          powerLinear := powerLinear + [Mean(buffer[..n]).value];
        }
    }
    r := Ok(Some(FloatToDbm(t, Mean(powerLinear), rxGain)));
  }

  /** The first raise among the first n receptions is the first among any longer run. */
  lemma {:induction false} FirstRaiseStops(recv: nat -> Reception, n: nat, m: nat)
    requires n <= m
    requires FirstRaise(recv, n).Some?
    ensures FirstRaise(recv, m) == FirstRaise(recv, n)
    decreases m - n
  {
    if n < m {
      FirstRaiseStops(recv, n + 1, m);
    }
  }

  /**
   * Each contribution is the mean of exactly the samples its reception delivered, and
   * receptions that delivered nothing contribute nothing.
   */
  lemma {:induction false} ContributionsAreDeliveredMeans(recv: nat -> Reception, n: nat)
    requires forall j :: 0 <= j < n ==> recv(j).Samples?
    ensures |Contributions(recv, n)| == |NonEmpty(recv, n)|
    ensures forall i :: 0 <= i < |Contributions(recv, n)| ==>
              Mean(recv(NonEmpty(recv, n)[i]).powers) == Num(Contributions(recv, n)[i])
  {
    if n > 0 {
      ContributionsAreDeliveredMeans(recv, n - 1);
      var c, ks := Contributions(recv, n - 1), NonEmpty(recv, n - 1);
      var p := recv(n - 1).powers;
      if |p| > 0 {
        assert Contributions(recv, n) == c + [Mean(p).value];
        assert NonEmpty(recv, n) == ks + [n - 1];
        forall i | 0 <= i < |c| + 1
          ensures Mean(recv((ks + [n - 1])[i]).powers) == Num((c + [Mean(p).value])[i])
        {
          if i < |c| {
            assert (ks + [n - 1])[i] == ks[i] && (c + [Mean(p).value])[i] == c[i];
          }
        }
      } else {
        assert Contributions(recv, n) == c + [];
        assert NonEmpty(recv, n) == ks + [];
      }
    }
  }

  /** The indices, in call order, of the first n receptions that delivered samples. */
  function NonEmpty(recv: nat -> Reception, n: nat): (ks: seq<nat>)
    requires forall j :: 0 <= j < n ==> recv(j).Samples?
    ensures forall i :: 0 <= i < |ks| ==> ks[i] < n && |recv(ks[i]).powers| > 0
  {
    if n == 0 then []
    else NonEmpty(recv, n - 1) + (if |recv(n - 1).powers| > 0 then [n - 1] else [])
  }

  /** When no reception delivers a sample the result is NaN dBm, never None. */
  lemma SilentRadioGivesNaN(t: Transcendental, recv: nat -> Reception, rxGain: real, numAverages: nat)
    requires forall j :: 0 <= j < numAverages ==> recv(j) == Samples([])
    ensures PowerDbm(t, recv, rxGain, numAverages) == Ok(Some(NaN))
  {
    SilentContributions(recv, numAverages);
  }

  lemma {:induction false} SilentContributions(recv: nat -> Reception, n: nat)
    requires forall j :: 0 <= j < n ==> recv(j) == Samples([])
    ensures FirstRaise(recv, n).None? && Contributions(recv, n) == []
  {
    if n > 0 {
      SilentContributions(recv, n - 1);
    }
  }

  /**
   * Averaging happens in the linear domain: with no exception, the result is the
   * conversion of the plain mean of the contributions, whatever their order, so two
   * runs whose contributions are a permutation of each other agree.
   */
  lemma PowerDependsOnContributionMultiset(t: Transcendental, recv1: nat -> Reception, recv2: nat -> Reception,
                                           rxGain: real, numAverages: nat)
    requires forall j :: 0 <= j < numAverages ==> recv1(j).Samples? && recv2(j).Samples?
    requires multiset(Contributions(recv1, numAverages)) == multiset(Contributions(recv2, numAverages))
    ensures PowerDbm(t, recv1, rxGain, numAverages) == PowerDbm(t, recv2, rxGain, numAverages)
    ensures var c := Contributions(recv1, numAverages);
      |c| > 0 ==> PowerDbm(t, recv1, rxGain, numAverages) == Ok(Some(Num(ToDbm(t, Sum(c) / |c| as real, rxGain))))
  {
    MeanPermutation(Contributions(recv1, numAverages), Contributions(recv2, numAverages));
  }

  /**
   * The two routines agree on one full buffer but not on a partial one: measure_field_strength
   * divides the delivered sum by 1024, get_power_dBm by the number of samples delivered.
   */
  lemma SingleReceptionCompared(t: Transcendental, recv: nat -> Reception, rxGain: real)
    requires recv(0).Samples? && 0 < |recv(0).powers| <= FieldBufferLength
    ensures var p := recv(0).powers;
      && FieldStrength(t, recv(0), rxGain) == Ok(Some(ToDbm(t, Sum(p) / 1024.0, rxGain)))
      && PowerDbm(t, recv, rxGain, 1) == Ok(Some(Num(ToDbm(t, Sum(p) / |p| as real, rxGain))))
    ensures |recv(0).powers| == FieldBufferLength ==>
      FieldStrength(t, recv(0), rxGain).value.value == PowerDbm(t, recv, rxGain, 1).value.value.value
  {
    var p := recv(0).powers;
    var m := Sum(p) / |p| as real;
    assert FirstRaise(recv, 1).None?;
    assert Mean(p) == Num(m);
    assert Contributions(recv, 1) == [m] by {
      assert Contributions(recv, 1) == Contributions(recv, 0) + [m];
    }
    assert Sum([m]) == m;
    assert Mean([m]) == Num(m);
    assert PowerDbm(t, recv, rxGain, 1) == Ok(Some(FloatToDbm(t, Mean([m]), rxGain)));
    if |p| == FieldBufferLength {
      assert Sum(p) / 1024.0 == Sum(p) / |p| as real;
    }
  }
}
