/** The speed governor of `speed_control`: the code under a train's head
    sets a target speed, and the speed moves toward it at a bounded rate. */
module Governor {
  import opened Signals
  import opened Kinematics

  /** The change of speed, in m/s, over one governor step at `rate` m/s^2.
      The step is a fixed 0.1 s, whatever the simulation throttle. */
  function StepChange(rate: real): (dv: real)
    ensures dv * 10.0 == rate
  {
    rate * 0.1
  }

  /** The one acceleration rate, in m/s^2. */
  const Acceleration: real := 1.28

  function RealMin(a: real, b: real): real
  {
    if a <= b then a else b
  }

  /** The speed a train is allowed under `code`, in m/s, given the configured
      speed `configured` (m/s): stop under H, unrestricted under L, capped at
      160 km/h under LU and 80 km/h under U. */
  function TargetSpeed(code: Code, configured: real): (v: real)
    ensures code == H ==> v == 0.0
    ensures code == L ==> v == configured
    ensures code != H ==> v <= configured
    ensures code == LU ==> v * 3.6 <= 160.0 && v <= configured && (v * 3.6 == 160.0 || v == configured)
    ensures code == U ==> v * 3.6 <= 80.0 && v <= configured && (v * 3.6 == 80.0 || v == configured)
    ensures configured >= 0.0 ==> 0.0 <= v <= configured
  {
    match code
    case H => 0.0
    case L => configured
    case LU => RealMin(160.0 / 3.6, configured)
    case U => RealMin(80.0 / 3.6, configured)
  }

  /** The braking rate, in m/s^2, under each code. */
  function Deceleration(code: Code): (a: real)
    ensures 0.5 <= a <= 2.5
  {
    match code
    case L => 0.5
    case LU => 0.8
    case U => 1.2
    case H => 2.5
  }

  /** A more restrictive code never allows a higher speed nor brakes more gently. */
  lemma RestrictionIsMonotone(a: Code, b: Code, configured: real)
    requires configured >= 0.0 && Rank(a) <= Rank(b)
    ensures TargetSpeed(b, configured) <= TargetSpeed(a, configured)
    ensures Deceleration(a) <= Deceleration(b)
  {
  }

  /** One call of the governor for one train. `first` is `first_flag`: while it
      is set, a train still at its configured speed and above its target is
      put at the target at once. */
  function GovernorStep(speed: real, code: Code, configured: real, first: bool): (r: real)
    ensures RealMin(speed, TargetSpeed(code, configured)) <= r <= RealMax(speed, TargetSpeed(code, configured))
  {
    var target := TargetSpeed(code, configured);
    if speed > target && speed == configured && first then
      target
    else if speed > target then
      var braked := speed - StepChange(Deceleration(code));
      if braked >= target then braked else target
    else if speed < target then
      RealMin(speed + StepChange(Acceleration), target)
    else
      speed
  }

  /** The governor moves the speed toward the target and never past it, by at
      most one braking step (except for the one-shot snap) or one
      acceleration step, and leaves a speed at its target alone. */
  lemma GovernorMovesTowardTarget(speed: real, code: Code, configured: real, first: bool)
    ensures var target := TargetSpeed(code, configured);
      var r := GovernorStep(speed, code, configured, first);
      && (speed > target ==> target <= r <= speed)
      && (speed < target ==> speed < r <= target)
      && (speed == target ==> r == speed)
      && (speed < target ==> r - speed <= StepChange(Acceleration))
      && (speed > target && !(first && speed == configured) ==> speed - r <= StepChange(Deceleration(code)))
      && (first && speed == configured && speed > target ==> r == target)
  {
  }

  /** The governor keeps a speed within [0, configured]. */
  lemma GovernorKeepsBounds(speed: real, code: Code, configured: real, first: bool)
    requires 0.0 <= speed <= configured
    ensures 0.0 <= GovernorStep(speed, code, configured, first) <= configured
  {
  }

  /** The governor reaches its target whenever one rate-limited step suffices,
      and otherwise moves by exactly one step. */
  lemma GovernorStepExact(speed: real, code: Code, configured: real)
    ensures var target := TargetSpeed(code, configured);
      var r := GovernorStep(speed, code, configured, false);
      && (speed > target ==> r == RealMax(speed - StepChange(Deceleration(code)), target))
      && (speed < target ==> r == RealMin(speed + StepChange(Acceleration), target))
  {
  }

  /** `n` governor calls in a row under the same code, after the first one. */
  function GovernN(speed: real, code: Code, configured: real, n: nat): real
    decreases n
  {
    if n == 0 then speed else GovernN(GovernorStep(speed, code, configured, false), code, configured, n - 1)
  }

  /** Under a fixed code the governor settles at the target: after n calls,
      if n steps of braking (or of acceleration) cover the gap, the speed is
      exactly the target. */
  lemma {:induction false} GovernorReachesTarget(speed: real, code: Code, configured: real, n: nat)
    requires var target := TargetSpeed(code, configured);
      && (speed >= target ==> speed - target <= n as real * StepChange(Deceleration(code)))
      && (speed <= target ==> target - speed <= n as real * StepChange(Acceleration))
    ensures GovernN(speed, code, configured, n) == TargetSpeed(code, configured)
    decreases n
  {
    var target := TargetSpeed(code, configured);
    if n > 0 {
      var next := GovernorStep(speed, code, configured, false);
      assert (n - 1) as real * StepChange(Deceleration(code))
          == n as real * StepChange(Deceleration(code)) - StepChange(Deceleration(code));
      assert (n - 1) as real * StepChange(Acceleration)
          == n as real * StepChange(Acceleration) - StepChange(Acceleration);
      GovernorReachesTarget(next, code, configured, n - 1);
    }
  }
}
