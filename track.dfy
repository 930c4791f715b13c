/** The closed loop of eight track circuits 01G..08G, all of the same length.
    A train runs in increasing block order and leaves 08G into 01G. */
module Track {

  /** Length of every track circuit, in metres (`track_length`). */
  const BlockLength: real := 1500.0

  /** Length of the whole loop, in metres. */
  const LoopLength: real := 8.0 * BlockLength

  /** A block number 1..8 (the "1" of "01G"). */
  type Block = b: int | 1 <= b <= 8 witness 1

  /** The block a train enters when it leaves `b`. */
  function Next(b: Block): (n: Block)
    ensures (n - b) % 8 == 1
  {
    if b + 1 > 8 then 1 else b + 1
  }

  /** The block a train leaves when it enters `b`. */
  function Prev(b: Block): (p: Block)
    ensures (b - p) % 8 == 1
  {
    if b > 1 then b - 1 else 8
  }

  /** Distance, in metres, from the start of 01G to the point that lies
      `remaining` metres before the end of block `b` (blocks are BlockLength
      = 1500 m long; the product is written with the literal). */
  function TrackPosition(b: Block, remaining: real): (x: real)
    ensures 0.0 <= remaining <= BlockLength ==> (b - 1) as real * 1500.0 <= x <= b as real * 1500.0
  {
    b as real * 1500.0 - remaining
  }

  /** Stepping forward and back are inverse to each other. */
  lemma NextPrevInverse(b: Block)
    ensures Prev(Next(b)) == b && Next(Prev(b)) == b
  {
  }

  /** The successor relation is one cycle through all eight blocks:
      the first four successors of a block are distinct from it and from
      each other, which is what makes the four-block look-ahead well defined. */
  lemma LookAheadDistinct(b: Block)
    ensures Next(b) != b && Next(Next(b)) != b && Next(Next(Next(b))) != b
    ensures Next(Next(Next(Next(b)))) != b
    ensures Next(Next(b)) != Next(b) && Next(Next(Next(b))) != Next(b)
    ensures Next(Next(Next(b))) != Next(Next(b))
  {
  }
}
