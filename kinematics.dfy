/** Head movement along the loop and the derived tail position of a train
    (`update_simulation`, `calculate_tail_position`). */
module Kinematics {
  import opened Track

  /** The per-train fields `train*_current_track`, `_remaining_distance`,
      `_remaining_time`, `_speed`, `_tail_track`, `_tail_distance`, `_length`.
      Distances are in metres, times in seconds, speeds in m/s. */
  datatype TrainState = TrainState(
    head: int,
    remaining: real,
    remainingTime: real,
    speed: real,
    tailBlock: int,
    tailDistance: real,
    length: int)

  /** A speed typed in km/h, in m/s. */
  function MetresPerSecond(kmh: real): (v: real)
    ensures v * 3.6 == kmh
  {
    kmh / 3.6
  }

  function RealMax(a: real, b: real): real
  {
    if a >= b then a else b
  }

  /** Whether a tick moves the head: only a positive speed with distance left does. */
  predicate Moves(t: TrainState)
  {
    t.speed > 0.0 && t.remaining > 0.0
  }

  /** The movement of one train's head during a tick of `dt` simulated seconds. */
  function Advance(t: TrainState, dt: real): (r: TrainState)
    requires 1 <= t.head <= 8
    ensures 1 <= r.head <= 8
    ensures r.speed == t.speed && r.length == t.length
    ensures r.tailBlock == t.tailBlock && r.tailDistance == t.tailDistance
    ensures !Moves(t) ==> r.head == t.head && r.remaining == t.remaining
    ensures !Moves(t) ==> r.remainingTime == if t.speed == 0.0 then 0.0 else t.remainingTime
    ensures Moves(t) ==> r.head == t.head || r.head == Next(t.head)
  {
    if t.speed > 0.0 && t.remaining > 0.0 then
      var left := t.remaining - t.speed * dt;
      if left <= 0.0 then
        var carried := left + BlockLength;
        t.(head := Next(t.head), remaining := carried, remainingTime := carried / t.speed)
      else
        t.(remaining := left, remainingTime := RealMax(left / t.speed, 0.0))
    else if t.speed == 0.0 then
      t.(remainingTime := 0.0)
    else
      t
  }

  /** A moving head covers speed * dt metres: it enters the next block exactly
      when that uses up its remaining distance, the overshoot is carried into
      the new block, and the time left is the distance left over the speed. */
  lemma AdvanceMovesHead(t: TrainState, dt: real)
    requires 1 <= t.head <= 8 && Moves(t)
    ensures var r := Advance(t, dt);
      && (r.head == Next(t.head) <==> t.remaining <= t.speed * dt)
      && r.remaining == t.remaining - t.speed * dt + (if r.head == t.head then 0.0 else BlockLength)
      && r.remainingTime * t.speed == r.remaining
  {
  }

  /** When a tick covers at most one block, a head that is inside its block
      stays inside a block: 0 < remaining <= 1500 is preserved, and the time
      to the next block is remaining distance over speed. */
  lemma AdvanceStaysInBlock(t: TrainState, dt: real)
    requires 1 <= t.head <= 8
    requires 0.0 < t.remaining <= BlockLength
    requires 0.0 <= dt && t.speed * dt <= BlockLength
    ensures 0.0 < Advance(t, dt).remaining <= BlockLength
    ensures t.speed > 0.0 ==> Advance(t, dt).remainingTime * t.speed == Advance(t, dt).remaining
  {
    if t.speed > 0.0 {
      assert 0.0 <= t.speed * dt;
      if t.remaining > 0.0 {
        AdvanceMovesHead(t, dt);
      }
    }
  }

  /** The head covers exactly speed * dt metres of the loop; the overshoot past
      a block end is carried into the next block, and leaving 08G for 01G
      wraps the loop position by one lap. */
  lemma AdvanceConservesDistance(t: TrainState, dt: real)
    requires 1 <= t.head <= 8 && Moves(t)
    ensures var r := Advance(t, dt);
      TrackPosition(r.head, r.remaining)
        == TrackPosition(t.head, t.remaining) + t.speed * dt
           - (if t.head == 8 && r.head == 1 then LoopLength else 0.0)
  {
    AdvanceMovesHead(t, dt);
  }

  /** `n` consecutive ticks of `dt` seconds with the speed held. */
  function AdvanceN(t: TrainState, dt: real, n: nat): (r: TrainState)
    requires 1 <= t.head <= 8
    ensures 1 <= r.head <= 8
    decreases n
  {
    if n == 0 then t else AdvanceN(Advance(t, dt), dt, n - 1)
  }

  /** A head that has no distance left (a start offset of 1500 m or more) is
      never moved again, whatever its speed and however many ticks pass. */
  lemma {:induction false} ExhaustedHeadNeverMoves(t: TrainState, dt: real, n: nat)
    requires 1 <= t.head <= 8 && t.remaining <= 0.0
    ensures AdvanceN(t, dt, n).head == t.head
    ensures AdvanceN(t, dt, n).remaining == t.remaining
    decreases n
  {
    if n > 0 {
      ExhaustedHeadNeverMoves(Advance(t, dt), dt, n - 1);
    }
  }

  /** With the speed held and each tick covering at most one block, the head
      stays strictly inside a block over any number of ticks. */
  lemma {:induction false} AdvanceNStaysInBlock(t: TrainState, dt: real, n: nat)
    requires 1 <= t.head <= 8
    requires 0.0 < t.remaining <= BlockLength
    requires 0.0 <= dt && t.speed * dt <= BlockLength
    ensures 0.0 < AdvanceN(t, dt, n).remaining <= BlockLength
    ensures AdvanceN(t, dt, n).speed == t.speed
    decreases n
  {
    if n > 0 {
      AdvanceStaysInBlock(t, dt);
      AdvanceNStaysInBlock(Advance(t, dt), dt, n - 1);
    }
  }

  /** Where the tail of a train of `length` metres is, given its head: in the
      head's block when it fits there, otherwise in the block before. */
  function TailPosition(head: Block, remaining: real, length: int): (r: (Block, real))
    ensures r.0 == head || r.0 == Prev(head)
    ensures r.0 == head <==> remaining + length as real <= BlockLength
    ensures r.1 + (if r.0 == head then 0.0 else BlockLength) == remaining + length as real
  {
    var tailDistance := remaining + length as real;
    if tailDistance <= BlockLength then
      (head, tailDistance)
    else
      (if head > 1 then head - 1 else 8, tailDistance - BlockLength)
  }

  /** The tail lies exactly `length` metres behind the head along the loop
      (one lap further on when the head is in 01G and the tail in 08G). */
  lemma TailBehindHead(head: Block, remaining: real, length: int)
    ensures var (tb, td) := TailPosition(head, remaining, length);
      TrackPosition(tb, td)
        == TrackPosition(head, remaining) - length as real
           + (if head == 1 && tb == 8 then LoopLength else 0.0)
  {
  }

  /** A train no longer than a block whose head is inside a block has its tail
      inside a block too. */
  lemma TailWithinBlock(head: Block, remaining: real, length: int)
    requires 0.0 < remaining <= BlockLength
    requires 0 <= length && length as real <= BlockLength
    ensures 0.0 < TailPosition(head, remaining, length).1 <= BlockLength
  {
  }

  /** The head and the tail recomputed from it. */
  function WithTail(t: TrainState): (r: TrainState)
    requires 1 <= t.head <= 8
    ensures 1 <= r.tailBlock <= 8
    ensures r.head == t.head && r.remaining == t.remaining && r.speed == t.speed
    ensures r.remainingTime == t.remainingTime && r.length == t.length
    ensures (r.tailBlock, r.tailDistance) == TailPosition(t.head, t.remaining, t.length)
  {
    var (tb, td) := TailPosition(t.head, t.remaining, t.length);
    t.(tailBlock := tb, tailDistance := td)
  }

  /** Whether the tail fields are those computed from the head. */
  predicate TailConsistent(t: TrainState)
  {
    1 <= t.head <= 8 && (t.tailBlock, t.tailDistance) == TailPosition(t.head, t.remaining, t.length)
  }

  /** A train placed `offset` metres into `block`, running at `kmh` km/h. */
  function Placed(block: Block, offset: real, kmh: real, length: int): (t: TrainState)
    ensures t.head == block && t.length == length && TailConsistent(t)
    ensures TrackPosition(t.head, t.remaining) == (block - 1) as real * 1500.0 + offset
    ensures t.speed * 3.6 == kmh
    ensures t.speed > 0.0 ==> t.remainingTime * t.speed == t.remaining
    ensures t.speed <= 0.0 ==> t.remainingTime == 0.0
  {
    var remaining := BlockLength - offset;
    var speed := MetresPerSecond(kmh);
    var (tb, td) := TailPosition(block, remaining, length);
    TrainState(block, remaining, if speed > 0.0 then remaining / speed else 0.0, speed, tb, td, length)
  }
}
