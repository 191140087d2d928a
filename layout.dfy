/**
 * Board layout of the checkers engine (include/PlayerAI.h).
 *
 * The 32 dark squares of an 8x8 board are the bits of one 32-bit word:
 * row `r` (0 = O's home row, 7 = X's home row) holds bits `4r .. 4r+3`.
 * A board is three such words `{x_board, o_board, kings}`, stored in this
 * order in a three-slot array, so that `board[is_o]` is the side whose
 * colour is `is_o`.
 */
module Layout {

  /** Rows 0, 2, 4 and 6. */
  const EVEN_MASK: bv32 := 252645135
  /** Row 0: the squares where X men are crowned. */
  const O_BACK_RANK: bv32 := 15
  /** Row 7: the squares where O men are crowned. */
  const X_BACK_RANK: bv32 := 4026531840
  /** The left-most dark square of each even row. */
  const L_COL_MASK: bv32 := 16843009
  /** The right-most dark square of each odd row. */
  const R_COL_MASK: bv32 := 2155905152

  datatype Option<T> = None | Some(value: T)

  /** The three words of the engine's board array, in slot order. */
  datatype Board = Board(x: bv32, o: bv32, kings: bv32)
  {
    /** `board[is_o]`: the pieces of side O when `isO`, of side X otherwise. */
    function Side(isO: bool): bv32
    {
      if isO then o else x
    }

    /** Every dark square that holds a piece of either side. */
    function Occupied(): bv32
    {
      Union(x, o)
    }

    /** No square belongs to both sides and every king flag sits on a piece. */
    predicate Valid()
    {
      x & o == 0 && kings & !(x | o) == 0
    }

    /** The same position with the roles of the two sides exchanged. */
    function Swap(): (r: Board)
      ensures r.x == o && r.o == x && r.kings == kings
    {
      Board(o, x, kings)
    }
  }

  /** The board held in a three-slot array `{x, o, kings}`. */
  function FromSlots(s: seq<bv32>): Board
    requires |s| == 3
  {
    Board(s[0], s[1], s[2])
  }

  /** The three-slot array contents of a board. */
  function Slots(b: Board): (s: seq<bv32>)
    ensures |s| == 3 && FromSlots(s) == b
  {
    [b.x, b.o, b.kings]
  }

  /** A search result: the chosen move mask (none at a leaf or a stuck node) and its score. */
  datatype ScoreMovePair = ScoreMovePair(move: Option<bv32>, score: int)

  /** `a | b`: the squares held in either word. */
  function Union(a: bv32, b: bv32): bv32
  {
    a | b
  }

  /** `w & p != 0`: the word `w` holds one of the squares of `p` (the C++ truth test of `w & p`). */
  predicate Has(w: bv32, p: bv32)
  {
    w & p != 0
  }

  /** A word with exactly one bit set: the address of one dark square. */
  predicate IsSquare(p: bv32)
  {
    p != 0 && p & (p - 1) == 0
  }

  /** The square with index `i`. */
  function Square(i: bv32): (p: bv32)
    requires i < 32
    ensures IsSquare(p)
  {
    (1 as bv32) << i
  }

  /** `pos <<= 1` walks the squares in index order and falls off the word after the last one. */
  lemma SquareNext(i: bv32)
    requires i < 32
    ensures Square(i) << 1 == if i < 31 then Square(i + 1) else 0
  {
  }

  /** The four squares of row `r`. */
  function Row(r: nat): bv32
    requires r < 8
  {
    (15 as bv32) << (4 * r)
  }

  /** The starting position: O on bits 0-11, X on bits 20-31, no kings. */
  const START: Board := Board(4293918720, 4095, 0)

  lemma StartIsValid()
    ensures START.Valid()
    ensures START.o == Row(0) | Row(1) | Row(2)
    ensures START.x == Row(5) | Row(6) | Row(7)
  {
  }

  /** The two crowning rows are the bottom and top rows, and they do not meet. */
  lemma BackRanks()
    ensures O_BACK_RANK == Row(0) && X_BACK_RANK == Row(7)
    ensures O_BACK_RANK & X_BACK_RANK == 0
  {
  }

  /** The edge columns: the left edge lies on even rows, the right edge on odd rows. */
  lemma EdgeColumns()
    ensures L_COL_MASK & !EVEN_MASK == 0
    ensures R_COL_MASK & EVEN_MASK == 0
    ensures L_COL_MASK & R_COL_MASK == 0
    ensures EVEN_MASK == Row(0) | Row(2) | Row(4) | Row(6)
  {
  }

  lemma {:induction false} SlotsRoundTrip(s: seq<bv32>)
    requires |s| == 3
    ensures Slots(FromSlots(s)) == s
  {
  }
}
