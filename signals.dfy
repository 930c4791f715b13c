/** Track-circuit low-frequency codes and their four-block look-ahead
    propagation (`zpw_low_frequency_signal`). */
module Signals {
  import opened Track

  /** The four codes, least restrictive first: L (clear), LU, U, H (stop). */
  datatype Code = L | LU | U | H

  /** Severity of a code; the source compares codes as frequencies. */
  function Rank(c: Code): nat
  {
    match c
    case L => 0
    case LU => 1
    case U => 2
    case H => 3
  }

  /** The low-frequency value, in Hz, that stands for each code. */
  function Freq(c: Code): real
  {
    match c
    case L => 11.4
    case LU => 13.6
    case U => 16.9
    case H => 29.0
  }

  /** The more restrictive of two codes; it is the source's `max` over frequencies. */
  function Max(a: Code, b: Code): (m: Code)
    ensures m == a || m == b
    ensures Rank(a) <= Rank(m) && Rank(b) <= Rank(m)
    ensures Freq(m) == if Freq(a) >= Freq(b) then Freq(a) else Freq(b)
  {
    if Rank(a) >= Rank(b) then a else b
  }

  /** Frequencies order the codes exactly as severity does, so a code is
      determined by its frequency. */
  lemma FreqOrdersLikeRank(a: Code, b: Code)
    ensures Rank(a) <= Rank(b) <==> Freq(a) <= Freq(b)
    ensures Freq(a) == Freq(b) ==> a == b
  {
  }

  /** The code that an occupied block `b` asks for in block `k`: H one block
      behind it, U two behind, LU three behind and L (no restriction) otherwise;
      the branch for `b` also writes L four behind, which never changes a value. */
  function Contribution(b: Block, k: Block): Code
  {
    if k == Prev(b) then H
    else if k == Prev(Prev(b)) then U
    else if k == Prev(Prev(Prev(b))) then LU
    else L
  }

  /** The code of block `k` after the branches for blocks 1..n have run,
      starting from L. */
  function CodeUpTo(flags: seq<bool>, n: nat, k: Block): Code
    requires |flags| == 8 && n <= 8
  {
    if n == 0 then L
    else Max(CodeUpTo(flags, n - 1, k), if flags[n - 1] then Contribution(n, k) else L)
  }

  /** Whether block `b` is occupied according to `flags` (flag_1g..flag_8g). */
  predicate Occupied(flags: seq<bool>, b: Block)
    requires |flags| == 8
  {
    flags[b - 1]
  }

  /** Closed form of the code of block `k`: H when the next block is occupied,
      otherwise U when the one after is, otherwise LU when the third is, else L. */
  function CodeSpec(flags: seq<bool>, k: Block): Code
    requires |flags| == 8
  {
    if Occupied(flags, Next(k)) then H
    else if Occupied(flags, Next(Next(k))) then U
    else if Occupied(flags, Next(Next(Next(k)))) then LU
    else L
  }

  /** The codes of all eight blocks, block k at index k - 1. */
  function CodesOf(flags: seq<bool>): (codes: seq<Code>)
    requires |flags| == 8
    ensures |codes| == 8
    ensures forall k: Block :: codes[k - 1] == CodeSpec(flags, k)
  {
    seq(8, i requires 0 <= i < 8 => CodeSpec(flags, i + 1))
  }

  /** The closed form restricted to the look-ahead blocks numbered at most `n`. */
  function CodeSpecUpTo(flags: seq<bool>, n: nat, k: Block): Code
    requires |flags| == 8 && n <= 8
  {
    if Next(k) <= n && Occupied(flags, Next(k)) then H
    else if Next(Next(k)) <= n && Occupied(flags, Next(Next(k))) then U
    else if Next(Next(Next(k))) <= n && Occupied(flags, Next(Next(Next(k)))) then LU
    else L
  }

  /** Which blocks ask for which code in `k`. */
  lemma ContributionFromAhead(b: Block, k: Block)
    ensures Contribution(b, k) == H <==> b == Next(k)
    ensures Contribution(b, k) == U <==> b == Next(Next(k))
    ensures Contribution(b, k) == LU <==> b == Next(Next(Next(k)))
  {
  }

  /** Running the branches for blocks 1..n gives the closed form restricted to those blocks. */
  lemma {:induction false} CodeUpToIsSpecUpTo(flags: seq<bool>, n: nat, k: Block)
    requires |flags| == 8 && n <= 8
    ensures CodeUpTo(flags, n, k) == CodeSpecUpTo(flags, n, k)
  {
    if n > 0 {
      CodeUpToIsSpecUpTo(flags, n - 1, k);
      ContributionFromAhead(n, k);
      LookAheadDistinct(k);
    }
  }

  /** The eight branches of the source together yield the closed form. */
  lemma CodesClosedForm(flags: seq<bool>, k: Block)
    requires |flags| == 8
    ensures CodeUpTo(flags, 8, k) == CodeSpec(flags, k)
  {
    CodeUpToIsSpecUpTo(flags, 8, k);
  }

  /** Within one pass a block's code only rises: the code after the branches
      for 1..m is at least as severe as after those for 1..n, n <= m. */
  lemma {:induction false} CodesOnlyRise(flags: seq<bool>, n: nat, m: nat, k: Block)
    requires |flags| == 8 && n <= m <= 8
    ensures Rank(CodeUpTo(flags, n, k)) <= Rank(CodeUpTo(flags, m, k))
  {
    if n < m {
      CodesOnlyRise(flags, n, m - 1, k);
    }
  }

  /** Every code is at least what each occupied block asks for. */
  lemma {:induction false} CodeBoundsContributions(flags: seq<bool>, n: nat, b: Block, k: Block)
    requires |flags| == 8 && b <= n <= 8 && flags[b - 1]
    ensures Rank(Contribution(b, k)) <= Rank(CodeUpTo(flags, n, k))
  {
    if b < n {
      CodeBoundsContributions(flags, n - 1, b, k);
    }
  }

  /** More occupied blocks never relax a code. */
  lemma CodesMonotoneInOccupancy(f: seq<bool>, g: seq<bool>, k: Block)
    requires |f| == 8 && |g| == 8
    requires forall b: Block :: Occupied(f, b) ==> Occupied(g, b)
    ensures Rank(CodeSpec(f, k)) <= Rank(CodeSpec(g, k))
  {
  }

  /** How severe the code of block `k` is, read from the blocks ahead of it:
      H exactly when the next block is occupied, at least U exactly when one
      of the next two is, at least LU exactly when one of the next three is,
      and L exactly when none of them is. */
  lemma CodeLevels(flags: seq<bool>, k: Block)
    requires |flags| == 8
    ensures CodeSpec(flags, k) == H <==> Occupied(flags, Next(k))
    ensures Rank(CodeSpec(flags, k)) >= Rank(U) <==>
      Occupied(flags, Next(k)) || Occupied(flags, Next(Next(k)))
    ensures Rank(CodeSpec(flags, k)) >= Rank(LU) <==>
      Occupied(flags, Next(k)) || Occupied(flags, Next(Next(k))) || Occupied(flags, Next(Next(Next(k))))
    ensures CodeSpec(flags, k) == L <==>
      !Occupied(flags, Next(k)) && !Occupied(flags, Next(Next(k))) && !Occupied(flags, Next(Next(Next(k))))
  {
  }

  /** `update_signal`: raise the code of block `b` to at least `c`. */
  function Raise(codes: seq<Code>, b: Block, c: Code): (r: seq<Code>)
    requires |codes| == 8
    ensures |r| == 8 && Rank(c) <= Rank(r[b - 1]) && Rank(codes[b - 1]) <= Rank(r[b - 1])
    ensures r[b - 1] == codes[b - 1] || r[b - 1] == c
    ensures forall i :: 0 <= i < 8 && i != b - 1 ==> r[i] == codes[i]
  {
    codes[b - 1 := Max(codes[b - 1], c)]
  }

  /** The four `update_signal` calls of the branch for an occupied block `b`. */
  function RaiseBehind(codes: seq<Code>, b: Block): (r: seq<Code>)
    requires |codes| == 8
    ensures |r| == 8
    ensures forall i :: 0 <= i < 8 ==> Rank(codes[i]) <= Rank(r[i])
    ensures r[Prev(b) - 1] == H
  {
    var p1 := Prev(b);
    var p2 := Prev(p1);
    var p3 := Prev(p2);
    var p4 := Prev(p3);
    Raise(Raise(Raise(Raise(codes, p4, L), p3, LU), p2, U), p1, H)
  }

  /** The branch for block `b` combines every block's code with what `b` asks for. */
  lemma RaiseBehindAt(codes: seq<Code>, b: Block, k: Block)
    requires |codes| == 8
    ensures |RaiseBehind(codes, b)| == 8
    ensures RaiseBehind(codes, b)[k - 1] == Max(codes[k - 1], Contribution(b, k))
  {
  }

  /** Computes the code of every block from the occupancy flags: start every
      block at L, then for each occupied block raise the four blocks behind it. */
  method PropagateCodes(flags: seq<bool>) returns (codes: seq<Code>)
    requires |flags| == 8
    ensures codes == CodesOf(flags)
  {
    codes := [L, L, L, L, L, L, L, L];
    var b := 1;
    while b <= 8
      invariant 1 <= b <= 9 && |codes| == 8
      invariant forall i :: 0 <= i < 8 ==> codes[i] == CodeUpTo(flags, b - 1, i + 1)
    {
      if flags[b - 1] {
        forall i | 0 <= i < 8
          ensures RaiseBehind(codes, b)[i] == CodeUpTo(flags, b, i + 1)
        {
          RaiseBehindAt(codes, b, i + 1);
        }
        codes := RaiseBehind(codes, b);
      }
      b := b + 1;
    }
    forall i | 0 <= i < 8
      ensures codes[i] == CodesOf(flags)[i]
    {
      CodesClosedForm(flags, i + 1);
    }
  }
}
