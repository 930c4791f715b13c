/** The simulation object (`mainUi` without its widgets): two trains on the
    loop, the occupancy flags and codes of the eight blocks, and the tick that
    moves the trains, recomputes flags and codes and governs the speeds. */
module Simulation {
  import opened Track
  import opened Signals
  import opened Kinematics
  import opened Governor
  import opened Clock

  /** The state a tick reads and writes: both trains, `flag_1g..flag_8g`,
      `low_freq_signal_1g..8g` and `first_flag`. */
  datatype Core = Core(t0: TrainState, t1: TrainState, flags: seq<bool>, codes: seq<Code>, firstFlag: bool)

  /** Both heads in 1..8, tails where their heads put them, and eight flags and codes. */
  predicate WellFormed(c: Core)
  {
    TailConsistent(c.t0) && TailConsistent(c.t1) && |c.flags| == 8 && |c.codes| == 8
  }

  /** One more head or tail counted in block `b` (`track_status[b] += 1`). */
  function Count(status: seq<nat>, b: Block): seq<nat>
    requires |status| == 8
  {
    status[b - 1 := status[b - 1] + 1]
  }

  /** The flags computed by `update_train_location` from the heads and tails of
      the two trains: a block is flagged exactly when some head or tail is in it. */
  function Occupancy(h0: Block, tail0: Block, h1: Block, tail1: Block): (flags: seq<bool>)
    ensures |flags| == 8
    ensures forall i :: 0 <= i < 8 ==> (flags[i] <==> i + 1 in {h0, tail0, h1, tail1})
  {
    var status := Count(Count(Count(Count([0, 0, 0, 0, 0, 0, 0, 0], h0), tail0), h1), tail1);
    seq(8, i requires 0 <= i < 8 => status[i] > 0)
  }

  /** One call of `speed_control`: each train's speed is governed by the code
      under its head, then `first_flag` is cleared. */
  function SpeedControlStep(c: Core, kmh0: real, kmh1: real): (r: Core)
    requires 1 <= c.t0.head <= 8 && 1 <= c.t1.head <= 8 && |c.codes| == 8
    ensures WellFormed(c) ==> WellFormed(r)
    ensures !r.firstFlag && r.flags == c.flags && r.codes == c.codes
    ensures r.t0 == c.t0.(speed := GovernorStep(c.t0.speed, c.codes[c.t0.head - 1], MetresPerSecond(kmh0), c.firstFlag))
    ensures r.t1 == c.t1.(speed := GovernorStep(c.t1.speed, c.codes[c.t1.head - 1], MetresPerSecond(kmh1), c.firstFlag))
  {
    c.(t0 := c.t0.(speed := GovernorStep(c.t0.speed, c.codes[c.t0.head - 1], MetresPerSecond(kmh0), c.firstFlag)),
       t1 := c.t1.(speed := GovernorStep(c.t1.speed, c.codes[c.t1.head - 1], MetresPerSecond(kmh1), c.firstFlag)),
       firstFlag := false)
  }

  /** The movement half of a tick: both heads advance by `dt` seconds with
      their current speeds, then both tails are recomputed from them. */
  function Moved(c: Core, dt: real): (r: Core)
    requires WellFormed(c)
    ensures WellFormed(r)
    ensures r.flags == c.flags && r.codes == c.codes && r.firstFlag == c.firstFlag
    ensures r.t0.speed == c.t0.speed && r.t1.speed == c.t1.speed
  {
    c.(t0 := WithTail(Advance(c.t0, dt)), t1 := WithTail(Advance(c.t1, dt)))
  }

  /** `update_train_location` and `zpw_low_frequency_signal` without the
      governing: the flags are rebuilt from the heads and tails, and the codes
      from the flags; the trains are untouched. */
  function Located(c: Core): (r: Core)
    requires WellFormed(c)
    ensures WellFormed(r)
    ensures r.t0 == c.t0 && r.t1 == c.t1 && r.firstFlag == c.firstFlag
    ensures forall i :: 0 <= i < 8 ==> (r.flags[i] <==> i + 1 in {c.t0.head, c.t0.tailBlock, c.t1.head, c.t1.tailBlock})
    ensures r.codes == CodesOf(r.flags)
  {
    var f := Occupancy(c.t0.head, c.t0.tailBlock, c.t1.head, c.t1.tailBlock);
    c.(flags := f, codes := CodesOf(f))
  }

  /** One tick of `dt` simulated seconds with configured speeds `kmh0`, `kmh1`
      (km/h): move both heads with the speeds of the previous tick, recompute
      the tails, the flags and the codes, then govern the speeds twice (once
      from `railway_signal`, once from `update_simulation`). */
  function Tick(c: Core, dt: real, kmh0: real, kmh1: real): (r: Core)
    requires WellFormed(c)
    ensures WellFormed(r)
    ensures !r.firstFlag
  {
    SpeedControlStep(SpeedControlStep(Located(Moved(c, dt)), kmh0, kmh1), kmh0, kmh1)
  }

  /** Flags and codes are rebuilt from scratch: a tick does not depend on the
      flags and codes it starts from. */
  lemma TickForgetsSignals(c: Core, flags: seq<bool>, codes: seq<Code>, dt: real, kmh0: real, kmh1: real)
    requires WellFormed(c) && |flags| == 8 && |codes| == 8
    ensures Tick(c.(flags := flags, codes := codes), dt, kmh0, kmh1) == Tick(c, dt, kmh0, kmh1)
  {
  }

  /** After a tick a block is flagged exactly when a head or a tail is in it,
      and every code is the closed form of the new flags. */
  lemma TickSignalsExact(c: Core, dt: real, kmh0: real, kmh1: real)
    requires WellFormed(c)
    ensures var r := Tick(c, dt, kmh0, kmh1);
      && (forall k: Block :: Occupied(r.flags, k) <==> k in {r.t0.head, r.t0.tailBlock, r.t1.head, r.t1.tailBlock})
      && (forall k: Block :: r.codes[k - 1] == CodeSpec(r.flags, k))
  {
    var r := Tick(c, dt, kmh0, kmh1);
    forall k: Block
      ensures Occupied(r.flags, k) <==> k in {r.t0.head, r.t0.tailBlock, r.t1.head, r.t1.tailBlock}
    {
      assert r.flags[k - 1] <==> (k - 1) + 1 in {r.t0.head, r.t0.tailBlock, r.t1.head, r.t1.tailBlock};
    }
  }

  /** The same state with the two trains' roles exchanged. */
  function Swap(c: Core): (r: Core)
    ensures r.t0 == c.t1 && r.t1 == c.t0 && r.flags == c.flags && r.codes == c.codes && r.firstFlag == c.firstFlag
  {
    c.(t0 := c.t1, t1 := c.t0)
  }

  /** A tick treats both trains alike: exchanging them before the tick (with
      their configured speeds) exchanges them after it. So every `Tick*`
      lemma below, stated for train 0, holds for train 1 as well. */
  lemma TickSymmetric(c: Core, dt: real, kmh0: real, kmh1: real)
    requires WellFormed(c)
    ensures WellFormed(Swap(c))
    ensures Tick(Swap(c), dt, kmh1, kmh0) == Swap(Tick(c, dt, kmh0, kmh1))
  {
    var m := Moved(c, dt);
    assert Moved(Swap(c), dt) == Swap(m);
    assert Occupancy(m.t1.head, m.t1.tailBlock, m.t0.head, m.t0.tailBlock)
        == Occupancy(m.t0.head, m.t0.tailBlock, m.t1.head, m.t1.tailBlock);
    var l := Located(m);
    assert Located(Swap(m)) == Swap(l);
    var g := SpeedControlStep(l, kmh0, kmh1);
    assert SpeedControlStep(Swap(l), kmh1, kmh0) == Swap(g);
    assert SpeedControlStep(Swap(g), kmh1, kmh0) == Swap(SpeedControlStep(g, kmh0, kmh1));
  }

  /** The heads move with the speeds set in the previous tick, not with the
      ones governed in this tick (the one-tick control lag). */
  lemma TickMovesWithPreviousSpeed(c: Core, dt: real, kmh0: real, kmh1: real)
    requires WellFormed(c) && Moves(c.t0)
    ensures var r := Tick(c, dt, kmh0, kmh1);
      TrackPosition(r.t0.head, r.t0.remaining)
        == TrackPosition(c.t0.head, c.t0.remaining) + c.t0.speed * dt
           - (if c.t0.head == 8 && r.t0.head == 1 then LoopLength else 0.0)
  {
    var a := Advance(c.t0, dt);
    var r := Tick(c, dt, kmh0, kmh1);
    assert r.t0.head == a.head && r.t0.remaining == a.remaining;
    assert TrackPosition(r.t0.head, r.t0.remaining) == TrackPosition(a.head, a.remaining);
    AdvanceConservesDistance(c.t0, dt);
  }

  /** With speeds in [0, configured] before a tick they stay there after it. */
  lemma TickKeepsSpeedBounds(c: Core, dt: real, kmh0: real, kmh1: real)
    requires WellFormed(c)
    requires 0.0 <= c.t0.speed <= MetresPerSecond(kmh0)
    requires 0.0 <= c.t1.speed <= MetresPerSecond(kmh1)
    ensures var r := Tick(c, dt, kmh0, kmh1);
      && 0.0 <= r.t0.speed <= MetresPerSecond(kmh0)
      && 0.0 <= r.t1.speed <= MetresPerSecond(kmh1)
  {
    var a0 := WithTail(Advance(c.t0, dt));
    var a1 := WithTail(Advance(c.t1, dt));
    var flags := Occupancy(a0.head, a0.tailBlock, a1.head, a1.tailBlock);
    var coded := Core(a0, a1, flags, CodesOf(flags), c.firstFlag);
    var once := SpeedControlStep(coded, kmh0, kmh1);
    GovernorKeepsBounds(a0.speed, coded.codes[a0.head - 1], MetresPerSecond(kmh0), c.firstFlag);
    GovernorKeepsBounds(a1.speed, coded.codes[a1.head - 1], MetresPerSecond(kmh1), c.firstFlag);
    GovernorKeepsBounds(once.t0.speed, coded.codes[a0.head - 1], MetresPerSecond(kmh0), false);
    GovernorKeepsBounds(once.t1.speed, coded.codes[a1.head - 1], MetresPerSecond(kmh1), false);
  }

  /** A train whose next block is occupied (by either train) after the tick
      runs under H: a moving train has slowed down and a stopped one stays stopped. */
  lemma TickBrakesBehindOccupiedBlock(c: Core, dt: real, kmh0: real, kmh1: real)
    requires WellFormed(c) && 0.0 <= c.t0.speed
    ensures var r := Tick(c, dt, kmh0, kmh1);
      Occupied(r.flags, Next(r.t0.head)) ==>
        && r.codes[r.t0.head - 1] == H
        && r.t0.speed <= c.t0.speed
        && (c.t0.speed > 0.0 ==> r.t0.speed < c.t0.speed)
        && (c.t0.speed == 0.0 ==> r.t0.speed == 0.0)
  {
  }

  /** On the first tick after a start, a train still at its configured speed
      and above the target of its head's code is put at the target at once. */
  lemma TickFirstSnap(c: Core, dt: real, kmh0: real, kmh1: real)
    requires WellFormed(c) && c.firstFlag && c.t0.speed == MetresPerSecond(kmh0)
    ensures var r := Tick(c, dt, kmh0, kmh1);
      var target := TargetSpeed(r.codes[r.t0.head - 1], MetresPerSecond(kmh0));
      c.t0.speed > target ==> r.t0.speed == target
  {
  }

  /** After the first tick the governor runs exactly twice per tick under the
      code of the new head block: a train above its target brakes by up to two
      steps, one below it accelerates by up to two steps. */
  lemma TickGovernsTwice(c: Core, dt: real, kmh0: real, kmh1: real)
    requires WellFormed(c) && !c.firstFlag
    ensures var r := Tick(c, dt, kmh0, kmh1);
      var code := r.codes[r.t0.head - 1];
      var target := TargetSpeed(code, MetresPerSecond(kmh0));
      && r.t0.speed == GovernN(c.t0.speed, code, MetresPerSecond(kmh0), 2)
      && (c.t0.speed > target ==> r.t0.speed == RealMax(c.t0.speed - 2.0 * StepChange(Deceleration(code)), target))
      && (c.t0.speed < target ==> r.t0.speed == RealMin(c.t0.speed + 2.0 * StepChange(Acceleration), target))
  {
    var r := Tick(c, dt, kmh0, kmh1);
    var code := r.codes[r.t0.head - 1];
    var configured := MetresPerSecond(kmh0);
    var once := GovernorStep(c.t0.speed, code, configured, false);
    GovernorStepExact(c.t0.speed, code, configured);
    GovernorStepExact(once, code, configured);
  }

  /** One train: the `train*_...` fields of `mainUi`. */
  class Train {
    var head: int
    var remaining: real
    var remainingTime: real
    var speed: real
    var tailBlock: int
    var tailDistance: real
    var length: int

    ghost function Snapshot(): TrainState
      reads this
    {
      TrainState(head, remaining, remainingTime, speed, tailBlock, tailDistance, length)
    }

    /** A train of `length` metres placed `offset` metres into `block` at `kmh` km/h. */
    constructor (block: Block, offset: real, kmh: real, length: int)
      ensures Snapshot() == Placed(block, offset, kmh, length)
    {
      var startRemaining := BlockLength - offset;
      var startSpeed := kmh / 3.6;
      head := block;
      remaining := startRemaining;
      speed := startSpeed;
      remainingTime := if startSpeed > 0.0 then startRemaining / startSpeed else 0.0;
      this.length := length;
      var tail := TailPosition(block, startRemaining, length);
      tailBlock, tailDistance := tail.0, tail.1;
    }

    /** Puts the train back at the start of a run; its length is kept. */
    method Reset(block: Block, offset: real, kmh: real)
      modifies this
      ensures Snapshot() == Placed(block, offset, kmh, old(length))
    {
      head := block;
      remaining := BlockLength - offset;
      speed := kmh / 3.6;
      remainingTime := if speed > 0.0 then remaining / speed else 0.0;
      var tail := TailPosition(head, remaining, length);
      tailBlock, tailDistance := tail.0, tail.1;
    }

    /** Moves the head by one tick of `dt` simulated seconds. */
    method Move(dt: real)
      requires 1 <= head <= 8
      modifies this
      ensures Snapshot() == Advance(old(Snapshot()), dt)
    {
      if speed > 0.0 && remaining > 0.0 {
        var distanceMoved := speed * dt;
        remaining := remaining - distanceMoved;
        remainingTime := RealMax(remaining / speed, 0.0);
        if remaining <= 0.0 {
          head := head + 1;
          if head > 8 {
            head := 1;
          }
          remaining := remaining + BlockLength;
          remainingTime := remaining / speed;
        }
      } else if speed == 0.0 {
        remainingTime := 0.0;
      }
    }

    /** The half of `speed_control` for one train: brings the speed toward
        the target of `code` (the code under the head) for configured speed
        `kmh` km/h; `first` is `first_flag`. */
    method Govern(code: Code, kmh: real, first: bool)
      modifies this`speed
      ensures speed == GovernorStep(old(speed), code, MetresPerSecond(kmh), first)
    {
      var initial := kmh / 3.6;
      var target := TargetSpeed(code, initial);
      var deceleration := Deceleration(code);
      if speed > target && speed == initial && first {
        speed := target;
      } else {
        if speed > target {
          speed := RealMax(speed - StepChange(deceleration), target);
        } else if speed < target {
          speed := RealMin(speed + StepChange(Acceleration), target);
        }
      }
    }

    /** Recomputes the tail from the head (`calculate_tail_position`). */
    method UpdateTail()
      requires 1 <= head <= 8
      modifies this`tailBlock, this`tailDistance
      ensures Snapshot() == WithTail(old(Snapshot()))
    {
      var tail := TailPosition(head, remaining, length);
      tailBlock, tailDistance := tail.0, tail.1;
    }
  }

  /** The simulation part of `mainUi`. `timerActive` is whether the periodic
      timer is started and `timerInterval` the interval last handed to it. */
  class Simulator {
    const train0: Train
    const train1: Train
    var flags: seq<bool>
    var codes: seq<Code>
    var firstFlag: bool
    var isPaused: bool
    var simulationSpeed: real
    var timerInterval: int
    var timerActive: bool

    ghost function CoreState(): Core
      reads this, train0, train1
    {
      Core(train0.Snapshot(), train1.Snapshot(), flags, codes, firstFlag)
    }

    ghost predicate Valid()
      reads this, train0, train1
    {
      train0 != train1 && WellFormed(CoreState()) && simulationSpeed > 0.0
    }

    /** The window as built: trains placed from the configuration, no block
        flagged, every code H, normal speed, not paused, timer not started. */
    constructor (block0: Block, block1: Block, offset0: real, offset1: real, kmh0: real, kmh1: real,
                 length0: int, length1: int)
      requires length0 in {209, 302, 414, 440} && length1 in {209, 302, 414, 440}
      ensures Valid() && fresh(train0) && fresh(train1)
      ensures CoreState() == Core(Placed(block0, offset0, kmh0, length0), Placed(block1, offset1, kmh1, length1),
                                  [false, false, false, false, false, false, false, false],
                                  [H, H, H, H, H, H, H, H], false)
      ensures !isPaused && !timerActive && simulationSpeed == 1.0 && timerInterval == 0
    {
      train0 := new Train(block0, offset0, kmh0, length0);
      train1 := new Train(block1, offset1, kmh1, length1);
      flags := [false, false, false, false, false, false, false, false];
      codes := [H, H, H, H, H, H, H, H];
      firstFlag := false;
      isPaused := false;
      simulationSpeed := 1.0;
      timerInterval := 0;
      timerActive := false;
    }

    /** Sets the throttle and the timer interval from the slider value. */
    method UpdateSimulationSpeed(value: int)
      modifies this`simulationSpeed, this`timerInterval
      ensures simulationSpeed == Throttle(value)
      ensures timerInterval == TimerInterval(simulationSpeed)
    {
      if value > 0 {
        simulationSpeed := (value + 1) as real;
      } else if value < 0 {
        simulationSpeed := 1.0 / (-value) as real;
      } else {
        simulationSpeed := 1.0;
      }
      // int() truncates toward zero; the quotient is positive, so that is Floor.
      var adjustedInterval := (BaseIntervalMs / simulationSpeed).Floor;
      if adjustedInterval < 1 {
        adjustedInterval := 1;
      }
      timerInterval := adjustedInterval;
    }

    /** Starts a run: refused when both trains are to start in the same block;
        otherwise both trains are reset, the throttle is set from the slider,
        the one-shot snap is armed and the timer runs. */
    method StartSimulation(block0: Block, block1: Block, offset0: real, offset1: real,
                           kmh0: real, kmh1: real, slider: int) returns (started: bool)
      requires Valid()
      modifies this, train0, train1
      ensures Valid()
      ensures started <==> block0 != block1
      ensures !started ==> unchanged(this) && unchanged(train0) && unchanged(train1)
      ensures started ==> CoreState() == Core(Placed(block0, offset0, kmh0, old(train0.length)),
                                               Placed(block1, offset1, kmh1, old(train1.length)),
                                               old(flags), old(codes), true)
      ensures started ==> !isPaused && timerActive
      ensures started ==> simulationSpeed == Throttle(slider) && timerInterval == TimerInterval(simulationSpeed)
    {
      if block0 == block1 {
        return false;
      }
      isPaused := false;
      train0.Reset(block0, offset0, kmh0);
      train1.Reset(block1, offset1, kmh1);
      UpdateSimulationSpeed(slider);
      firstFlag := true;
      timerActive := true;
      started := true;
    }

    /** Pauses a running simulation or resumes a paused one; the trains are not touched. */
    method StopSimulation()
      modifies this`isPaused, this`timerActive
      ensures isPaused == !old(isPaused)
      ensures timerActive == !isPaused
    {
      if !isPaused {
        isPaused := true;
        timerActive := false;
      } else if isPaused {
        isPaused := false;
        timerActive := true;
      }
    }

    /** One timer tick (`update_simulation`) with the configured speeds
        `kmh0`, `kmh1` (km/h) as read from the speed fields. */
    method UpdateSimulation(kmh0: real, kmh1: real)
      requires Valid()
      modifies this`flags, this`codes, this`firstFlag, train0, train1
      ensures Valid()
      ensures CoreState() == Tick(old(CoreState()), TickSeconds(old(simulationSpeed)), kmh0, kmh1)
    {
      var timeInterval := TickSeconds(simulationSpeed);
      MoveTrains(timeInterval);
      LocateAndGovern(kmh0, kmh1);
    }

    /** The rest of a tick after the movement: `update_train_location`
        (which governs once through `railway_signal`), then `speed_control`. */
    method LocateAndGovern(kmh0: real, kmh1: real)
      requires train0 != train1 && WellFormed(CoreState())
      modifies this`flags, this`codes, this`firstFlag, train0`speed, train1`speed
      ensures WellFormed(CoreState())
      ensures CoreState() == SpeedControlStep(SpeedControlStep(Located(old(CoreState())), kmh0, kmh1), kmh0, kmh1)
    {
      UpdateTrainLocation(kmh0, kmh1);
      SpeedControl(kmh0, kmh1);
    }

    /** The movement half of a tick: both heads advance, then both tails are
        recomputed from them. */
    method MoveTrains(dt: real)
      requires train0 != train1 && WellFormed(CoreState())
      modifies train0, train1
      ensures WellFormed(CoreState())
      ensures CoreState() == Moved(old(CoreState()), dt)
    {
      AdvanceTrains(dt);
      UpdateTailPositions();
    }

    /** Moves both heads by one tick of `dt` simulated seconds. */
    method AdvanceTrains(dt: real)
      requires train0 != train1 && 1 <= train0.head <= 8 && 1 <= train1.head <= 8
      modifies train0, train1
      ensures train0.Snapshot() == Advance(old(train0.Snapshot()), dt)
      ensures train1.Snapshot() == Advance(old(train1.Snapshot()), dt)
    {
      train0.Move(dt);
      train1.Move(dt);
    }

    /** Recomputes both tails from their heads. */
    method UpdateTailPositions()
      requires train0 != train1 && 1 <= train0.head <= 8 && 1 <= train1.head <= 8
      requires |flags| == 8 && |codes| == 8
      modifies train0`tailBlock, train0`tailDistance, train1`tailBlock, train1`tailDistance
      ensures WellFormed(CoreState())
      ensures train0.Snapshot() == WithTail(old(train0.Snapshot()))
      ensures train1.Snapshot() == WithTail(old(train1.Snapshot()))
    {
      train0.UpdateTail();
      train1.UpdateTail();
    }

    /** Counts heads and tails per block into a fresh table, sets the flags
        from it, then recomputes the codes (which governs the speeds once). */
    method UpdateTrainLocation(kmh0: real, kmh1: real)
      requires train0 != train1 && WellFormed(CoreState())
      modifies this`flags, this`codes, this`firstFlag, train0`speed, train1`speed
      ensures WellFormed(CoreState())
      ensures CoreState() == SpeedControlStep(Located(old(CoreState())), kmh0, kmh1)
    {
      var trackStatus: seq<nat> := [0, 0, 0, 0, 0, 0, 0, 0];
      trackStatus := Count(trackStatus, train0.head);
      trackStatus := Count(trackStatus, train0.tailBlock);
      trackStatus := Count(trackStatus, train1.head);
      trackStatus := Count(trackStatus, train1.tailBlock);
      flags := seq(8, i requires 0 <= i < 8 => trackStatus[i] > 0);
      assert flags == Occupancy(train0.head, train0.tailBlock, train1.head, train1.tailBlock);
      ZpwLowFrequencySignal(kmh0, kmh1);
    }

    /** Recomputes the code of every block from the flags, then (as
        `railway_signal` does after lighting the signals) governs the speeds. */
    method ZpwLowFrequencySignal(kmh0: real, kmh1: real)
      requires train0 != train1 && WellFormed(CoreState())
      modifies this`codes, this`firstFlag, train0`speed, train1`speed
      ensures WellFormed(CoreState())
      ensures CoreState() == SpeedControlStep(old(CoreState()).(codes := CodesOf(old(flags))), kmh0, kmh1)
    {
      var signalValues := PropagateCodes(flags);
      codes := signalValues;
      SpeedControl(kmh0, kmh1);
    }

    /** `speed_control`: governs both trains by the code under their heads. */
    method SpeedControl(kmh0: real, kmh1: real)
      requires train0 != train1 && WellFormed(CoreState())
      modifies this`firstFlag, train0`speed, train1`speed
      ensures WellFormed(CoreState())
      ensures CoreState() == SpeedControlStep(old(CoreState()), kmh0, kmh1)
    {
      train0.Govern(codes[train0.head - 1], kmh0, firstFlag);
      train1.Govern(codes[train1.head - 1], kmh1, firstFlag);
      firstFlag := false;
    }
  }
}
