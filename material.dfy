/**
 * Material count (`PlayerAI::bitsize` and `PlayerAI::evaluate`).
 */
module Material {
  import opened Layout

  /** Bit `i` of `n`, as 0 or 1. */
  function Bit(n: bv32, i: bv32): nat
    requires i < 32
  {
    if (n >> i) & 1 == 1 then 1 else 0
  }

  /** The number of set bits among bits `0 .. k-1` of `n`. */
  function CountBelow(n: bv32, k: bv32): nat
    requires k <= 32
    decreases k
  {
    if k == 0 then 0 else CountBelow(n, k - 1) + Bit(n, k - 1)
  }

  /** The number of set bits of `n`, taken off the low end one at a time. */
  function PopCount(n: bv32): nat
    decreases n
  {
    if n == 0 then 0 else Bit(n, 0) + PopCount(n >> 1)
  }

  lemma BitShift(n: bv32, i: bv32)
    requires i < 31
    ensures Bit(n >> 1, i) == Bit(n, i + 1)
    ensures Bit(n >> 1, 31) == 0
  {
  }

  lemma {:induction false} CountBelowShift(n: bv32, k: bv32)
    requires k < 32
    ensures CountBelow(n >> 1, k) + Bit(n, 0) == CountBelow(n, k + 1)
    decreases k
  {
    if k > 0 {
      CountBelowShift(n, k - 1);
      BitShift(n, k - 1);
    }
  }

  /** Shifting out the lowest bit loses exactly that bit from the count. */
  lemma PopCountShift(n: bv32)
    ensures PopCount(n >> 1) + Bit(n, 0) == PopCount(n)
  {
  }

  /** The shifting count agrees with the count over all 32 bit positions. */
  lemma {:induction false} PopCountAllBits(n: bv32)
    ensures PopCount(n) == CountBelow(n, 32)
    decreases n
  {
    if n != 0 {
      PopCountAllBits(n >> 1);
      CountBelowShift(n, 31);
      BitShift(n, 0);
      assert CountBelow(n >> 1, 32) == CountBelow(n >> 1, 31);
    } else {
      CountBelowZero(n, 32);
    }
  }

  /** Counting one bit at a time, lowest first, until no set bit is left. */
  method Bitsize(num: bv32) returns (count: int)
    ensures count == PopCount(num)
  {
    var n := num;
    count := (n & 1) as int;
    PopCountShift(n);
    n := n >> 1;
    while n != 0
      invariant count + PopCount(n) == PopCount(num)
      decreases n
    {
      PopCountShift(n);
      count := count + (n & 1) as int;
      n := n >> 1;
    }
    PopCountZero(0);
  }

  lemma {:induction false} CountBelowUnion(a: bv32, b: bv32, k: bv32)
    requires a & b == 0 && k <= 32
    ensures CountBelow(a | b, k) == CountBelow(a, k) + CountBelow(b, k)
    decreases k
  {
    if k > 0 {
      CountBelowUnion(a, b, k - 1);
      assert Bit(a | b, k - 1) == Bit(a, k - 1) + Bit(b, k - 1);
    }
  }

  /** Disjoint words count separately. */
  lemma PopCountDisjointUnion(a: bv32, b: bv32)
    requires a & b == 0
    ensures PopCount(a | b) == PopCount(a) + PopCount(b)
  {
    PopCountAllBits(a);
    PopCountAllBits(b);
    PopCountAllBits(a | b);
    CountBelowUnion(a, b, 32);
  }

  lemma {:induction false} CountBelowZero(n: bv32, k: bv32)
    requires k <= 32
    ensures CountBelow(n, k) == 0 <==> n & (((1 as bv32) << k) - 1) == 0
    ensures CountBelow(n, k) <= k as int
    decreases k
  {
    if k > 0 {
      CountBelowZero(n, k - 1);
    }
  }

  /** Only the empty word counts zero bits, and no word has more than 32. */
  lemma PopCountZero(n: bv32)
    ensures PopCount(n) == 0 <==> n == 0
    ensures PopCount(n) <= 32
  {
    PopCountAllBits(n);
    CountBelowZero(n, 32);
  }

  lemma SubsetParts(a: bv32, b: bv32)
    requires a & !b == 0
    ensures a & (b & !a) == 0 && a | (b & !a) == b
  {
  }

  lemma ProperSubsetLeavesBits(a: bv32, b: bv32)
    requires a & !b == 0 && a != b
    ensures b & !a != 0
  {
  }

  /** A proper subset of the bits has strictly fewer bits. */
  lemma PopCountProperSubset(a: bv32, b: bv32)
    requires a & !b == 0 && a != b
    ensures PopCount(a) < PopCount(b)
  {
    var rest := b & !a;
    SubsetParts(a, b);
    ProperSubsetLeavesBits(a, b);
    PopCountDisjointUnion(a, rest);
    PopCountZero(rest);
  }

  /** The men of a side: its pieces without a king flag. */
  function Men(side: bv32, kings: bv32): bv32
  {
    side & !kings
  }

  /** The kings of a side. */
  function Crowned(side: bv32, kings: bv32): bv32
  {
    side & kings
  }

  lemma MenAndKingsPartition(side: bv32, kings: bv32)
    ensures Men(side, kings) & Crowned(side, kings) == 0
    ensures Men(side, kings) | Crowned(side, kings) == side
  {
  }

  /** Splitting a side into men and kings splits its count. */
  lemma PopCountSplit(side: bv32, kings: bv32)
    ensures PopCount(Men(side, kings)) + PopCount(Crowned(side, kings)) == PopCount(side)
    ensures PopCount(side) <= 32
  {
    MenAndKingsPartition(side, kings);
    PopCountDisjointUnion(Men(side, kings), Crowned(side, kings));
    PopCountZero(side);
  }

  /**
   * The material score: three per man and five per king, X counted
   * positively and O negatively.
   */
  function Evaluate(b: Board): int
  {
    (PopCount(Men(b.x, b.kings)) - PopCount(Men(b.o, b.kings))) * 3 +
    (PopCount(Crowned(b.x, b.kings)) - PopCount(Crowned(b.o, b.kings))) * 5
  }

  /** `evaluate(board)`: the four counts come from `bitsize`. */
  method EvaluateBoard(board: array<bv32>) returns (score: int)
    requires board.Length == 3
    ensures score == Evaluate(FromSlots(board[..]))
  {
    var xMen := Bitsize(Men(board[0], board[2]));
    var oMen := Bitsize(Men(board[1], board[2]));
    var xKings := Bitsize(Crowned(board[0], board[2]));
    var oKings := Bitsize(Crowned(board[1], board[2]));
    score := (xMen - oMen) * 3 + (xKings - oKings) * 5;
  }

  /** Whatever the board, the score stays within [-160, 160]. */
  lemma EvaluateBound(b: Board)
    ensures -160 <= Evaluate(b) <= 160
  {
    PopCountSplit(b.x, b.kings);
    PopCountSplit(b.o, b.kings);
  }

  /** Exchanging the two sides negates the score. */
  lemma EvaluateSwap(b: Board)
    ensures Evaluate(b.Swap()) == -Evaluate(b)
  {
  }

  /** The starting position is level. */
  lemma StartIsLevel()
    ensures Evaluate(START) == 0
  {
    var m: bv32 := START.x;
    var j: bv32 := 0;
    while j < 20
      invariant j <= 20 && m == START.x >> j
      invariant PopCount(m) == PopCount(START.x)
    {
      PopCountShift(m);
      m, j := m >> 1, j + 1;
    }
    assert m == START.o;
    PopCountZero(0);
  }
}
