# ZPW-2000 block-signalling simulation, modelled in Dafny

The program simulates two trains on a closed loop of eight track circuits,
01G to 08G, each 1500 m long. It runs as a PyQt6 window, class `mainUi`.
Each timer tick does the following:
- moves each train's head along the loop and recomputes its tail;
- flags every block that holds a head or a tail;
- codes each block with a low-frequency code, using a four-block look-ahead. The codes are L 11.4 Hz, LU 13.6 Hz, U 16.9 Hz and H 29.0 Hz;
- governs each train's speed from the code under its head.

A slider sets a throttle. The throttle scales the simulated time per tick and the timer rate.

The model has six modules, one file each:

- `Track` (track.dfy): block numbers 1..8, and stepping forward and back around the loop.
- `Signals` (signals.dfy): the code datatype `L | LU | U | H`, ordered by severity. It holds:
  - the eight look-ahead branches of `zpw_low_frequency_signal`, as the loop `PropagateCodes`;
  - their accumulation `CodeUpTo`;
  - the closed form `CodeSpec`, with the proof that the two agree.
- `Kinematics` (kinematics.dfy): the per-train record `TrainState`, head movement `Advance`, and the tail computation `TailPosition`.
- `Governor` (governor.dfy): target speeds, braking rates and one governor call, `GovernorStep`.
- `Clock` (clock.dfy): the throttle, the timer interval and the simulated seconds per tick.
- `Simulation` (simulation.dfy): the parts that change state.
  - `Train` is a class holding the `train*_...` fields.
  - `Simulator` is a class holding both trains, the flags, the codes, `first_flag`, `is_paused`, the throttle and the timer state. Its methods mirror those of `mainUi`.
  - Each state-changing method is proved equal to a pure function of the old state. The whole tick, for example, equals `Tick`, which the `Tick*` lemmas describe.

Within one tick the order follows the source:
1. Both heads move, using the speeds of the previous tick.
2. Both tails are recomputed.
3. The flags are rebuilt from a zeroed count, and the codes are rebuilt from the flags.
4. `speed_control` runs once from `railway_signal` and once more from `update_simulation`.

Both governor calls use the fixed 0.1 s step, whatever the throttle.

## Model

| member | source | states |
|---|---|---|
| Track.Next | main.py:273-275 | leaving block b enters b + 1, and 08G wraps to 01G: the result is one step ahead modulo 8 |
| Track.Prev | main.py:330 | the block behind b is b - 1, and 01G wraps to 08G: one step behind modulo 8 |
| Track.NextPrevInverse | main.py:273-275 | stepping forward and stepping back undo each other |
| Track.LookAheadDistinct | main.py:505-544 | the four blocks behind an occupied block are four different blocks |
| Signals.Max | main.py:502-503 | `update_signal` keeps the higher frequency, which is the more severe code and one of its two arguments |
| Signals.FreqOrdersLikeRank | main.py:502-544 | frequencies order the codes exactly as severity does, so taking the maximum frequency takes the most severe code |
| Signals.ContributionFromAhead | main.py:505-544 | an occupied block b asks for H in block k exactly when b is the next block after k, for U exactly when it is two ahead, and for LU exactly when it is three ahead |
| Signals.CodeUpToIsSpecUpTo | main.py:490-544 | after the branches for blocks 1..n, block k's code is the closed form restricted to occupied blocks numbered at most n |
| Signals.CodesClosedForm | main.py:490-544 | the eight branches together give block k: H if k+1 is occupied, else U if k+2 is, else LU if k+3 is, else L |
| Signals.CodesOnlyRise | main.py:502-503 | within one pass a block's code never becomes less severe |
| Signals.CodeBoundsContributions | main.py:505-544 | every final code is at least as severe as what each occupied block asks of that block |
| Signals.CodesMonotoneInOccupancy | main.py:490-544 | occupying more blocks never relaxes any code |
| Signals.CodeLevels | main.py:490-544 | H iff the next block is occupied; at least U iff one of the next two is; at least LU iff one of the next three is; L iff none of the three is |
| Signals.Raise | main.py:502-503 | one `update_signal` call changes only the one block, to the more severe of its old code and the code asked for |
| Signals.RaiseBehind | main.py:505-509 | one occupied block's branch never relaxes a code and always puts H on the block behind it |
| Signals.RaiseBehindAt | main.py:505-509 | one occupied block's branch raises each block to the maximum of its old code and what that block asks for |
| Signals.PropagateCodes | main.py:488-554 | starting every block at L and running the eight branches produces exactly `CodesOf(flags)`. The codes depend on the flags alone, so recomputing them is idempotent |
| Kinematics.MetresPerSecond | main.py:222-223 | a speed typed in km/h, times 3.6, gives back the km/h value |
| Kinematics.Advance | main.py:266-297 | the head moves only when speed > 0 and remaining > 0. Speed 0 keeps the position and zeroes the remaining time. When the remaining distance reaches 0 or less, the head enters the next block and the overshoot is kept by adding 1500. Head, remaining distance and remaining time are related as the source computes them |
| Kinematics.AdvanceMovesHead | main.py:266-280 | for a moving train: the head enters the next block exactly when the distance covered reaches the remaining distance; the new remaining distance is the old one less speed * dt, plus 1500 when a block boundary was crossed; time left * speed = distance left |
| Kinematics.AdvanceStaysInBlock | main.py:266-280 | if 0 < remaining <= 1500 and a tick covers at most 1500 m, then 0 < remaining <= 1500 still holds, and time left = distance left / speed |
| Kinematics.AdvanceConservesDistance | main.py:266-280 | the head covers exactly speed * dt metres of the loop; passing from 08G to 01G subtracts one lap |
| Kinematics.ExhaustedHeadNeverMoves | main.py:267 | a head with no remaining distance (start offset 1500 m or more) never moves again, over any number of ticks |
| Kinematics.AdvanceNStaysInBlock | main.py:266-280 | over any number of ticks at a held speed, the head stays strictly inside a block |
| Kinematics.TailPosition | main.py:314-331 | the tail is in the head's block exactly when remaining + length <= 1500, otherwise in the block behind; tail distance + 1500 * (stepped back) = remaining + length |
| Kinematics.TailBehindHead | main.py:322-331 | the tail lies exactly `length` metres behind the head along the loop |
| Kinematics.TailWithinBlock | main.py:322-331 | a train no longer than a block, with its head inside a block, has its tail inside a block too |
| Kinematics.WithTail | main.py:333-345 | recomputing the tail changes only the tail fields, and sets them from `calculate_tail_position` |
| Kinematics.Placed | main.py:210-235 | a train placed `offset` metres into a block is at loop position (block - 1) * 1500 + offset. Its speed is the configured km/h over 3.6, its remaining time is distance / speed (0 when not moving), and its tail is consistent |
| Governor.TargetSpeed | main.py:630-645 | H gives 0; L gives the configured speed; LU gives the smaller of 160 km/h and the configured speed, and U the smaller of 80 km/h and the configured speed; the target is never above the configured speed |
| Governor.Deceleration | main.py:617-622 | each braking rate lies between 0.5 and 2.5 m/s^2 |
| Governor.StepChange | main.py:628 | the speed change over one governor step is the rate times the fixed 0.1 s step |
| Governor.GovernorStep | main.py:659-672 | one governor call never leaves the interval between the old speed and the target: it neither overshoots the target nor moves away from it |
| Governor.RestrictionIsMonotone | main.py:609-622 | a more severe code allows no higher target and brakes no more gently |
| Governor.GovernorMovesTowardTarget | main.py:663-672 | the speed moves toward the target without overshooting it. Braking is at most decel * 0.1 except for the `first_flag` snap, and acceleration at most 1.28 * 0.1. A speed at the target is unchanged. With `first_flag` set, a train at its configured speed above target goes straight to the target |
| Governor.GovernorKeepsBounds | main.py:663-672 | a speed within [0, configured] stays there |
| Governor.GovernorStepExact | main.py:666-672 | outside the snap, above target the result is max(speed - decel * 0.1, target), and below target it is min(speed + 1.28 * 0.1, target) |
| Governor.GovernorReachesTarget | main.py:666-672 | under a fixed code, n governor calls land exactly on the target once n rate-limited steps cover the gap |
| Clock.Throttle | main.py:175-184 | the throttle is v + 1 for v > 0, 1/\|v\| for v < 0 and 1 at 0; it is always positive, and at least 1 exactly when v >= -1 |
| Clock.ThrottleMonotone | main.py:175-184 | moving the slider right never lowers the throttle. Different values give different throttles, except -1 and 0, which both give 1 |
| Clock.TimerInterval | main.py:190-193 | the interval is 100 / throttle truncated, and never below 1 ms |
| Clock.SliderIntervalRange | main.py:77-78 | over the slider's range -10..10 the interval lies between 9 and 1000 ms |
| Clock.TickSeconds | main.py:261-263 | a tick covers a positive number of simulated seconds |
| Clock.SpeedupIsThrottleSquared | main.py:190-193 | ignoring truncation, simulated time runs throttle squared times as fast as wall-clock time, because dt and the tick rate both scale |
| Simulation.Occupancy | main.py:400-450 | a block is flagged exactly when it holds the head or the tail of one of the two trains |
| Simulation.SpeedControlStep | main.py:604-691 | one `speed_control` call sets each train's speed to `GovernorStep` of its old speed under the code at its head, clears `first_flag`, and leaves flags, codes, positions, tails and lengths unchanged |
| Simulation.Moved | main.py:266-300 | moving both trains changes only their positions and tails: flags, codes, speeds and `first_flag` are kept |
| Simulation.Located | main.py:400-557 | rebuilding the signals marks exactly the blocks holding a head or a tail, and sets every code from those flags; the trains are untouched |
| Simulation.Tick | main.py:259-306 | a whole tick keeps the state well formed, and leaves `first_flag` cleared |
| Simulation.TickSymmetric | main.py:259-306 | the tick treats the two trains alike: swapping the trains (and their configured speeds) before a tick gives the swapped result. Every `Tick*` lemma below is stated for train 0 and holds for train 1 through this lemma |
| Simulation.TickForgetsSignals | main.py:400-450 | the flags and codes present before a tick do not affect its result |
| Simulation.TickSignalsExact | main.py:400-556 | after a tick the flags mark exactly the blocks holding a head or tail, and every code is the closed form of those flags |
| Simulation.TickMovesWithPreviousSpeed | main.py:266-280 | a tick moves the head by the speed held before the tick, not the speed governed during it |
| Simulation.TickKeepsSpeedBounds | main.py:302-306 | speeds within [0, configured] before a tick stay within it after both governor calls |
| Simulation.TickBrakesBehindOccupiedBlock | main.py:602-672 | a train whose next block is occupied runs under H: a moving train slows down, and a stopped one stays stopped |
| Simulation.TickFirstSnap | main.py:663-664 | on the first tick after a start, a train at its configured speed above its target is put at the target |
| Simulation.TickGovernsTwice | main.py:306 | after the first tick, the governor runs exactly twice per tick: braking by up to 2 * decel * 0.1, or accelerating by up to 2 * 1.28 * 0.1 |
| Simulation.Train.constructor | main.py:92-117 | a new train is `Placed` from its start block, offset, configured speed and length |
| Simulation.Train.Reset | main.py:210-235 | a restart re-places the train and keeps its length |
| Simulation.Train.Move | main.py:266-280 | the in-place field updates of one train's movement give exactly `Advance` of the old state |
| Simulation.Train.Govern | main.py:656-690 | one train's block of `speed_control` sets its speed to `GovernorStep` of the old speed, the code at its head and the configured speed |
| Simulation.Train.UpdateTail | main.py:338-340 | the tail fields become `calculate_tail_position` of the head |
| Simulation.Simulator.constructor | main.py:64-171 | trains placed from the configuration, every flag false, every code H, throttle 1, not paused, timer not running |
| Simulation.Simulator.UpdateSimulationSpeed | main.py:173-193 | the throttle is `Throttle(value)` and the timer interval is `TimerInterval` of it |
| Simulation.Simulator.StartSimulation | main.py:195-244 | refused, with nothing changed, exactly when both start blocks are equal. Otherwise: both trains re-placed, throttle set from the slider, `first_flag` set, not paused, timer running |
| Simulation.Simulator.StopSimulation | main.py:246-257 | toggles pause; the timer runs exactly when not paused; the trains are untouched |
| Simulation.Simulator.UpdateSimulation | main.py:259-306 | the new state is exactly `Tick` of the old state, with dt = 0.1 * throttle. Its `modifies` clause names only the trains, flags, codes and `first_flag`, so pause, throttle and timer are unchanged |
| Simulation.Simulator.MoveTrains | main.py:266-300 | the new state is `Moved` of the old one: both heads advance, then both tails are recomputed |
| Simulation.Simulator.LocateAndGovern | main.py:302-306 | the new state is the signals rebuilt (`Located`) followed by two `speed_control` calls, one from `railway_signal` and one from `update_simulation` |
| Simulation.Simulator.AdvanceTrains | main.py:266-297 | each train's fields become `Advance` of its old state |
| Simulation.Simulator.UpdateTailPositions | main.py:333-345 | each train's tail is recomputed from its head |
| Simulation.Simulator.UpdateTrainLocation | main.py:400-453 | the flags become `Occupancy` of the heads and tails, then the codes are rebuilt and the speeds governed once |
| Simulation.Simulator.ZpwLowFrequencySignal | main.py:488-557 | the codes become the closed form `CodesOf(flags)` of the flags (copied into the signal fields at main.py:547-554), then `railway_signal`'s `speed_control` call governs the speeds once (main.py:602) |
| Simulation.Simulator.SpeedControl | main.py:604-691 | the new state is `SpeedControlStep` of the old one: per-train governing under the head's code, then `first_flag` cleared |

## Left out

- `CustomWidget` is pure painting and is not part of this model.
- All widget output is presentation and is not modelled:
  - the colours in `update_train_location`;
  - the LED styles of `railway_signal`;
  - `update_flag_status`, `info_line_label` and `update_current_speed_display`;
  - `update_train_labels` and the limit labels of `speed_control`.
- QTimer scheduling and the Qt event loop: a tick is a method call. The timer is modelled only by the interval handed to it and by whether it is running.
- Widget reads become parameters:
  - the start block and the offset, passed to `StartSimulation`;
  - the configured speeds, in km/h, passed to every tick. The source re-reads the speed fields on every `speed_control` call.
- The start blocks are typed as 1..8. The spin boxes' range lies in the UI definition file, which is not part of this model.
- `QMessageBox` and `print` are I/O. A refused start is reported only as `started == false`.
- `update_train_length` is combo-box plumbing. Train lengths are constructor parameters from {209, 302, 414, 440}. The source wires only train 0's box (main.py:89). At main.py:381 train 1's 440 m is chosen by testing train 0's box. Neither quirk is modelled.
- Floating point: distances, speeds and frequencies are exact reals.
  - The `speed == initial_speed` test of the snap is an exact comparison.
  - The codes are a datatype, so no frequency other than the four can occur. That makes `get_deceleration`'s 0.5 default unreachable.
- Kinematics.TailPosition: follows the code (`remaining + length`, minus 1500 when it exceeds 1500). A description in terms of a remainder modulo 1500 would give 0 where the code gives 1500.
- Kinematics.ExhaustedHeadNeverMoves: an offset of 1500 m or more leaves remaining <= 0. That train never moves, because of the `remaining > 0` guard. The source behaves the same way.
- Simulation.Simulator.StopSimulation: pressing pause twice before any start starts the timer without `start_simulation` having run. The model keeps this behaviour.
