/** The simulation throttle set by the speed slider (`update_simulation_speed`)
    and the simulated time of one tick (`update_simulation`). */
module Clock {

  /** The timer's interval at normal speed, in milliseconds. */
  const BaseIntervalMs: real := 100.0

  /** Simulated seconds per tick at normal speed. */
  const BaseTickSeconds: real := 0.1

  /** The speed multiplier for slider value `v`: v + 1 above zero, 1/|v|
      below, 1 at zero. */
  function Throttle(v: int): (t: real)
    ensures t > 0.0
    ensures v > 0 ==> t - 1.0 == v as real
    ensures v == 0 ==> t == 1.0
    ensures v < 0 ==> t * (-v) as real == 1.0
    ensures v >= -1 <==> t >= 1.0
  {
    if v > 0 then (v + 1) as real
    else if v < 0 then 1.0 / (-v) as real
    else 1.0
  }

  /** Moving the slider right never slows the simulation down. */
  lemma ThrottleMonotone(v: int, w: int)
    requires v <= w
    ensures Throttle(v) <= Throttle(w)
    ensures Throttle(v) == Throttle(w) ==> v == w || (v == -1 && w == 0)
  {
    if w < 0 && v < w {
      var a, b := (-v) as real, (-w) as real;
      assert Throttle(v) == 1.0 / a && Throttle(w) == 1.0 / b;
      ReciprocalAntitone(a, b);
    }
  }

  lemma ReciprocalAntitone(a: real, b: real)
    requires 0.0 < b < a
    ensures 1.0 / a < 1.0 / b
  {
  }

  /** The timer interval, in milliseconds, for throttle `t`: 100 / t truncated
      to an integer, raised to 1 if it would be smaller. */
  function TimerInterval(t: real): (ms: int)
    requires t > 0.0
    ensures ms >= 1
    ensures ms == 1 || ms as real <= BaseIntervalMs / t
    ensures BaseIntervalMs / t < ms as real + 1.0
  {
    var raw := (BaseIntervalMs / t).Floor;
    if raw < 1 then 1 else raw
  }

  /** Over the slider's range -10..10 the interval is between 9 and 1000 ms,
      so the raise to 1 ms never takes effect. */
  lemma SliderIntervalRange(v: int)
    requires -10 <= v <= 10
    ensures 9 <= TimerInterval(Throttle(v)) <= 1000
  {
    var t := Throttle(v);
    if v > 0 {
      assert 2.0 <= t <= 11.0;
      assert 100.0 / 11.0 <= BaseIntervalMs / t;
    } else if v < 0 {
      var a := (-v) as real;
      assert t == 1.0 / a;
      assert BaseIntervalMs / t == BaseIntervalMs * a;
    }
  }

  /** Simulated seconds per tick for throttle `t`. */
  function TickSeconds(t: real): (dt: real)
    requires t > 0.0
    ensures dt > 0.0
  {
    BaseTickSeconds * t
  }

  /** The throttle scales both the simulated time per tick and the tick rate:
      without the truncation of the interval, simulated time runs t * t times
      as fast as wall-clock time. */
  lemma SpeedupIsThrottleSquared(t: real)
    requires t > 0.0
    ensures TickSeconds(t) / ((BaseIntervalMs / t) / 1000.0) == t * t
  {
  }
}
