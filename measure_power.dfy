/**
 * measure_power: receive_frame's stream commands around one reception, and get_power_dBm's
 * retry loop of up to three attempts with a reset after the first failed attempt and a
 * re-initialisation of the radio after the later ones. What each frame request and each
 * re-initialisation yields is given as an oracle.
 */
module MeasurePower {
  import opened Wrappers
  import opened Numeric

  /** The commands receive_frame sends to the streamer. */
  datatype StreamEvent = StartCont | Recv | StopCont

  /** Where in receive_frame an exception was raised. */
  datatype Stage =
    | Preparing   // get_max_num_samps or the buffer allocation
    | Starting    // issuing start_cont
    | Receiving   // recv itself
    | Stopping    // issuing stop_cont

  /** What the streamer does for one receive_frame call. */
  datatype FrameReply =
    | Delivered(row: seq<real>)  // |s|^2 of the whole first row of the buffer, no error code
    | ErrorCode                  // recv returned with an error code other than `none`
    | Raises(stage: Stage)       // an exception at the given stage

  /** The frame receive_frame returns: the row only when recv reported no error and stop_cont went out. */
  function FrameOf(reply: FrameReply): (f: Option<seq<real>>)
    ensures f.Some? <==> reply.Delivered?
  {
    if reply.Delivered? then Some(reply.row) else None
  }

  /** The commands sent, including the one during which an exception was raised. */
  function FrameEvents(reply: FrameReply): seq<StreamEvent> {
    match reply
    case Delivered(_) => [StartCont, Recv, StopCont]
    case ErrorCode => [StartCont, Recv]
    case Raises(Preparing) => []
    case Raises(Starting) => [StartCont]
    case Raises(Receiving) => [StartCont, Recv]
    case Raises(Stopping) => [StartCont, Recv, StopCont]
  }

  /**
   * receive_frame: start the stream, receive, give up on an error code, stop the stream
   * and return the row; any exception gives None.
   */
  method ReceiveFrame(reply: FrameReply) returns (frame: Option<seq<real>>, events: seq<StreamEvent>)
    ensures frame == FrameOf(reply) && events == FrameEvents(reply)
  {
    frame, events := None, [];
    if reply == Raises(Preparing) {
      return;
    }
    events := events + [StartCont];
    if reply == Raises(Starting) {
      return;
    }
    events := events + [Recv];
    if reply == Raises(Receiving) || reply == ErrorCode {
      return;
    }
    events := events + [StopCont];
    if reply == Raises(Stopping) {
      return;
    }
    frame := if reply.Delivered? then Some(reply.row) else None;
  }

  /**
   * stop_cont is only sent once recv reported no error, so a failed reception leaves a
   * started stream running; and a frame is returned exactly when stop_cont went out
   * without an exception.
   */
  lemma StopOnlyAfterCleanReception(reply: FrameReply)
    ensures StopCont in FrameEvents(reply) <==> reply.Delivered? || reply == Raises(Stopping)
    ensures (reply == ErrorCode || reply == Raises(Receiving) || reply == Raises(Starting)) ==>
              StartCont in FrameEvents(reply) && StopCont !in FrameEvents(reply)
    ensures FrameOf(reply).Some? <==> StopCont in FrameEvents(reply) && reply != Raises(Stopping)
    ensures forall i :: 0 <= i < |FrameEvents(reply)| ==> FrameEvents(reply)[i] == [StartCont, Recv, StopCont][i]
  {
  }

  /** numpy's mean of a list of doubles: NaN for an empty list or one holding a NaN. */
  function FloatMean(fs: seq<Float>): (r: Float)
    ensures r.NaN? <==> |fs| == 0 || exists i :: 0 <= i < |fs| && fs[i].NaN?
  {
    if |fs| == 0 || exists i :: 0 <= i < |fs| && fs[i].NaN? then NaN
    else Mean(seq(|fs|, i requires 0 <= i < |fs| => fs[i].value))
  }

  /** The linear powers attempt `a` gathers from its first n frame requests; the first failure ends it. */
  function AttemptPowers(frames: (nat, nat) -> FrameReply, a: nat, n: nat): (p: seq<Float>)
    ensures |p| <= n
  {
    if n == 0 then []
    else
      var prev := AttemptPowers(frames, a, n - 1);
      var f := FrameOf(frames(a, n - 1));
      if |prev| == n - 1 && f.Some? then prev + [Mean(f.value)] else prev
  }

  /** How many frames attempt `a` requests: all of them, or up to and including the first failure. */
  function Requested(frames: (nat, nat) -> FrameReply, a: nat, nbAvera: nat): (k: nat)
    ensures k <= nbAvera
  {
    var p := AttemptPowers(frames, a, nbAvera);
    if |p| == nbAvera then nbAvera else |p| + 1
  }

  /** What get_power_dBm does, in order. */
  datatype PowerEvent =
    | Frame(attempt: nat, stream: seq<StreamEvent>)  // one receive_frame call
    | Reset                                          // reset_radio after the first failed attempt
    | Reinit(attempt: nat)                           // initialize_radio after a later failed attempt

  /** The frame requests of attempt `a`. */
  function AttemptEvents(frames: (nat, nat) -> FrameReply, a: nat, nbAvera: nat): (e: seq<PowerEvent>)
    ensures |e| == Requested(frames, a, nbAvera)
  {
    seq(Requested(frames, a, nbAvera), k requires 0 <= k => Frame(a, FrameEvents(frames(a, k))))
  }

  /** The returned power and the events leading to it. */
  datatype Measurement = Measurement(power: Option<Float>, events: seq<PowerEvent>)

  /**
   * get_power_dBm from attempt `a` on: the first attempt that gathered any power returns
   * the dBm of its mean, even if it stopped early; attempt 0's failure resets the radio,
   * a later one re-initialises it, and a failed re-initialisation or a third failed
   * attempt gives None.
   */
  function Retry(t: Transcendental, frames: (nat, nat) -> FrameReply, reinitOk: nat -> bool,
                 gain: real, nbAvera: nat, a: nat): Measurement
    requires a <= 3
    decreases 3 - a
  {
    if a == 3 then Measurement(None, [])
    else
      var p := AttemptPowers(frames, a, nbAvera);
      var e := AttemptEvents(frames, a, nbAvera);
      if |p| > 0 then Measurement(Some(FloatToDbm(t, FloatMean(p), gain)), e)
      else if a == 0 then
        var rest := Retry(t, frames, reinitOk, gain, nbAvera, a + 1);
        Measurement(rest.power, e + [Reset] + rest.events)
      else if !reinitOk(a) then Measurement(None, e + [Reinit(a)])
      else
        var rest := Retry(t, frames, reinitOk, gain, nbAvera, a + 1);
        Measurement(rest.power, e + [Reinit(a)] + rest.events)
  }

  /** One attempt of get_power_dBm's inner loop: frames until nb_avera successes or the first failure. */
  method RunAttempt(frames: (nat, nat) -> FrameReply, a: nat, nbAvera: nat, linearPowers: seq<Float>)
    returns (powers: seq<Float>, events: seq<PowerEvent>)
    ensures powers == linearPowers + AttemptPowers(frames, a, nbAvera)
    ensures events == AttemptEvents(frames, a, nbAvera)
  {
    powers, events := linearPowers, [];
    var k := 0;
    while k < nbAvera
      invariant k <= nbAvera
      invariant powers == linearPowers + AttemptPowers(frames, a, k) && |AttemptPowers(frames, a, k)| == k
      invariant events == seq(k, j requires 0 <= j => Frame(a, FrameEvents(frames(a, j))))
    {
      var frame, stream := ReceiveFrame(frames(a, k));
      events := events + [Frame(a, stream)];
      if frame.None? {
        AttemptPowersStop(frames, a, k, nbAvera);
        return;
      }
      powers := powers + [Mean(frame.value)];
      k := k + 1;
    }
  }

  /** Once a frame request fails, the attempt gathers nothing more. */
  lemma {:induction false} AttemptPowersStop(frames: (nat, nat) -> FrameReply, a: nat, k: nat, n: nat)
    requires k < n
    requires |AttemptPowers(frames, a, k)| == k && FrameOf(frames(a, k)).None?
    ensures AttemptPowers(frames, a, n) == AttemptPowers(frames, a, k)
    ensures |AttemptPowers(frames, a, n)| == k
    decreases n - k
  {
    if n > k + 1 {
      AttemptPowersStop(frames, a, k, n - 1);
    }
  }

  /**
   * get_power_dBm: up to three attempts over the same linear_powers list, which is empty
   * at the start of every attempt because any attempt that gathered a power returns.
   */
  method GetPowerDbm(t: Transcendental, frames: (nat, nat) -> FrameReply, reinitOk: nat -> bool,
                     gain: real, nbAvera: nat)
    returns (power: Option<Float>, events: seq<PowerEvent>)
    ensures Measurement(power, events) == Retry(t, frames, reinitOk, gain, nbAvera, 0)
  {
    var linearPowers: seq<Float> := [];
    events := [];
    for attempt := 0 to 3
      invariant linearPowers == []
      invariant Retry(t, frames, reinitOk, gain, nbAvera, 0)
             == Measurement(Retry(t, frames, reinitOk, gain, nbAvera, attempt).power,
                            events + Retry(t, frames, reinitOk, gain, nbAvera, attempt).events)
    {
      var done, attemptEvents;
      ghost var before := events;
      linearPowers, done, power, attemptEvents := Attempt(t, frames, reinitOk, gain, nbAvera, attempt, linearPowers);
      events := events + attemptEvents;
      if done {
        return;
      }
      assert before + (attemptEvents + Retry(t, frames, reinitOk, gain, nbAvera, attempt + 1).events)
          == events + Retry(t, frames, reinitOk, gain, nbAvera, attempt + 1).events;
    }
    power := None;
  }

  /**
   * One pass of get_power_dBm's attempt loop: gather frames, return the power if any was
   * gathered, otherwise reset or re-initialise the radio; `done` says whether it returned.
   */
  method Attempt(t: Transcendental, frames: (nat, nat) -> FrameReply, reinitOk: nat -> bool,
                 gain: real, nbAvera: nat, attempt: nat, linearPowers: seq<Float>)
    returns (powers: seq<Float>, done: bool, power: Option<Float>, events: seq<PowerEvent>)
    requires attempt < 3 && linearPowers == []
    ensures var rest := Retry(t, frames, reinitOk, gain, nbAvera, attempt);
      var next := Retry(t, frames, reinitOk, gain, nbAvera, attempt + 1);
      if done then rest == Measurement(power, events)
      else powers == [] && rest == Measurement(next.power, events + next.events)
  {
    RetryStep(t, frames, reinitOk, gain, nbAvera, attempt);
    powers, events := RunAttempt(frames, attempt, nbAvera, linearPowers);
    assert powers == AttemptPowers(frames, attempt, nbAvera);
    if |powers| > 0 {
      return powers, true, Some(FloatToDbm(t, FloatMean(powers), gain)), events;
    }
    if attempt == 0 {
      events := events + [Reset];
    } else {
      events := events + [Reinit(attempt)];
      if !reinitOk(attempt) {
        return powers, true, None, events;
      }
    }
    done, power := false, None;
  }

  /** One attempt of Retry, with the rest of the protocol left folded. */
  lemma RetryStep(t: Transcendental, frames: (nat, nat) -> FrameReply, reinitOk: nat -> bool,
                  gain: real, nbAvera: nat, a: nat)
    requires a < 3
    ensures var p, e := AttemptPowers(frames, a, nbAvera), AttemptEvents(frames, a, nbAvera);
      var next := Retry(t, frames, reinitOk, gain, nbAvera, a + 1);
      Retry(t, frames, reinitOk, gain, nbAvera, a)
        == if |p| > 0 then Measurement(Some(FloatToDbm(t, FloatMean(p), gain)), e)
           else if a == 0 then Measurement(next.power, e + [Reset] + next.events)
           else if !reinitOk(a) then Measurement(None, e + [Reinit(a)])
           else Measurement(next.power, e + [Reinit(a)] + next.events)
  {
  }

  /**
   * The whole retry protocol spelled out: at most three attempts, a reset only after the
   * first, a re-initialisation after each later one, the average always over a single
   * attempt, and None after three failures whatever the last re-initialisation did.
   */
  lemma RetryProtocol(t: Transcendental, frames: (nat, nat) -> FrameReply, reinitOk: nat -> bool,
                      gain: real, nbAvera: nat)
    ensures var m := Retry(t, frames, reinitOk, gain, nbAvera, 0);
      var p0, p1, p2 := AttemptPowers(frames, 0, nbAvera), AttemptPowers(frames, 1, nbAvera), AttemptPowers(frames, 2, nbAvera);
      var e0, e1, e2 := AttemptEvents(frames, 0, nbAvera), AttemptEvents(frames, 1, nbAvera), AttemptEvents(frames, 2, nbAvera);
      if |p0| > 0 then m == Measurement(Some(FloatToDbm(t, FloatMean(p0), gain)), e0)
      else if |p1| > 0 then m == Measurement(Some(FloatToDbm(t, FloatMean(p1), gain)), e0 + [Reset] + e1)
      else if !reinitOk(1) then m == Measurement(None, e0 + [Reset] + e1 + [Reinit(1)])
      else if |p2| > 0 then m == Measurement(Some(FloatToDbm(t, FloatMean(p2), gain)), e0 + [Reset] + e1 + [Reinit(1)] + e2)
      else m == Measurement(None, e0 + [Reset] + e1 + [Reinit(1)] + e2 + [Reinit(2)])
  {
    var r1 := Retry(t, frames, reinitOk, gain, nbAvera, 1);
    var r2 := Retry(t, frames, reinitOk, gain, nbAvera, 2);
    var r3 := Retry(t, frames, reinitOk, gain, nbAvera, 3);
    var e0, e1, e2 := AttemptEvents(frames, 0, nbAvera), AttemptEvents(frames, 1, nbAvera), AttemptEvents(frames, 2, nbAvera);
    if |AttemptPowers(frames, 2, nbAvera)| == 0 && reinitOk(2) {
      assert r2.events == e2 + [Reinit(2)] + [];
    }
    if |AttemptPowers(frames, 1, nbAvera)| == 0 && reinitOk(1) {
      assert e0 + [Reset] + (e1 + [Reinit(1)] + r2.events) == e0 + [Reset] + e1 + [Reinit(1)] + r2.events;
    }
  }

  /** A request for zero frames per attempt never measures anything. */
  lemma NoAveragesNoPower(t: Transcendental, frames: (nat, nat) -> FrameReply, reinitOk: nat -> bool, gain: real)
    ensures Retry(t, frames, reinitOk, gain, 0, 0).power == None
    ensures Retry(t, frames, reinitOk, gain, 0, 0).events
         == (if reinitOk(1) then [Reset, Reinit(1), Reinit(2)] else [Reset, Reinit(1)])
  {
    RetryProtocol(t, frames, reinitOk, gain, 0);
  }

  /**
   * A single good frame followed by a failure is enough: the first attempt returns the
   * power of that one frame, and nothing after the failed request is asked for.
   */
  lemma PartialAttemptAccepted(t: Transcendental, frames: (nat, nat) -> FrameReply, reinitOk: nat -> bool,
                               gain: real, nbAvera: nat)
    requires nbAvera >= 2
    requires frames(0, 0).Delivered? && !frames(0, 1).Delivered?
    ensures Retry(t, frames, reinitOk, gain, nbAvera, 0)
         == Measurement(Some(FloatToDbm(t, Mean(frames(0, 0).row), gain)),
                        [Frame(0, FrameEvents(frames(0, 0))), Frame(0, FrameEvents(frames(0, 1)))])
  {
    var p := [Mean(frames(0, 0).row)];
    assert AttemptPowers(frames, 0, 1) == [] + p == p;
    AttemptPowersStop(frames, 0, 1, nbAvera);
    assert AttemptPowers(frames, 0, nbAvera) == p;
    assert Requested(frames, 0, nbAvera) == 2;
    assert AttemptEvents(frames, 0, nbAvera) == [Frame(0, FrameEvents(frames(0, 0))), Frame(0, FrameEvents(frames(0, 1)))];
    assert FloatMean(p) == Mean(frames(0, 0).row) by {
      if Mean(frames(0, 0).row).Num? {
        var v := Mean(frames(0, 0).row).value;
        assert seq(1, i requires 0 <= i < 1 => p[i].value) == [v];
        assert Sum([v]) == v;
      } else {
        assert p[0].NaN?;
      }
    }
    assert Retry(t, frames, reinitOk, gain, nbAvera, 0)
        == Measurement(Some(FloatToDbm(t, FloatMean(p), gain)), AttemptEvents(frames, 0, nbAvera));
  }

  /** The outcome of the third re-initialisation is never used. */
  lemma LastReinitUnused(t: Transcendental, frames: (nat, nat) -> FrameReply, reinit1: nat -> bool,
                         reinit2: nat -> bool, gain: real, nbAvera: nat)
    requires reinit1(1) == reinit2(1)
    ensures Retry(t, frames, reinit1, gain, nbAvera, 0) == Retry(t, frames, reinit2, gain, nbAvera, 0)
  {
    RetryProtocol(t, frames, reinit1, gain, nbAvera);
    RetryProtocol(t, frames, reinit2, gain, nbAvera);
  }
}
