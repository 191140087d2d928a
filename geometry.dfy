/**
 * One diagonal step on the bitboard (`PlayerAI::move`, duplicated verbatim
 * as `move` in main.cpp), and its meaning on the 8x8 board.
 */
module Geometry {
  import opened Layout

  /**
   * The square one diagonal step from `pos`, or 0 when the step leaves the
   * board. `left` is an absolute direction (towards file a); `forward` is
   * relative to the mover: up the rows for O, down the rows for X. Up the
   * rows is a shift towards the high bits.
   */
  function Move(pos: bv32, left: bool, forward: bool, oTurn: bool): bv32
  {
    var up := oTurn == forward;
    var even := pos & EVEN_MASK != 0;
    if (left && pos & L_COL_MASK != 0) || (!left && pos & R_COL_MASK != 0) then 0
    else if up then
      (if even && left then pos << 3 else if even || left then pos << 4 else pos << 5)
    else
      (if even && left then pos >> 5 else if even || left then pos >> 4 else pos >> 3)
  }

  /**
   * The shift `move` computes: 4 on an even row and 5 on an odd one, one
   * less to the left, and its complement to 8 when shifting down.
   */
  function Shift(pos: bv32, left: bool, up: bool): (s: bv32)
    ensures 3 <= s <= 5
  {
    var v0: bv32 := if pos & EVEN_MASK != 0 then 4 else 5;
    var v1: bv32 := if left then v0 - 1 else v0;
    if up then v1 else 8 - v1
  }

  /** Off the edge columns, a step is the shift by the amount `move` computes. */
  lemma MoveIsShift(pos: bv32, left: bool, forward: bool, oTurn: bool)
    requires !(left && pos & L_COL_MASK != 0) && !(!left && pos & R_COL_MASK != 0)
    ensures oTurn == forward ==> Move(pos, left, forward, oTurn) == pos << Shift(pos, left, true)
    ensures oTurn != forward ==> Move(pos, left, forward, oTurn) == pos >> Shift(pos, left, false)
  {
  }

  /** A square steps to a square or off the board. */
  lemma MoveSquare(p: bv32, left: bool, forward: bool, oTurn: bool)
    requires IsSquare(p)
    ensures Move(p, left, forward, oTurn) != 0 ==> IsSquare(Move(p, left, forward, oTurn))
  {
  }

  /**
   * A step leaves the board exactly when the edge column forbids it, or when
   * it would go above the top row or below the bottom row.
   */
  lemma MoveOffBoard(p: bv32, left: bool, forward: bool, oTurn: bool)
    requires IsSquare(p)
    ensures Move(p, left, forward, oTurn) == 0 <==>
              (left && p & L_COL_MASK != 0) || (!left && p & R_COL_MASK != 0) ||
              (oTurn == forward && p & X_BACK_RANK != 0) ||
              (oTurn != forward && p & O_BACK_RANK != 0)
  {
  }

  /** Stepping back the other way (opposite file and row direction) returns to the start. */
  lemma MoveBack(p: bv32, left: bool, forward: bool, oTurn: bool)
    requires IsSquare(p) && Move(p, left, forward, oTurn) != 0
    ensures Move(Move(p, left, forward, oTurn), !left, !forward, oTurn) == p
  {
  }

  /** Every step changes the parity of the row. */
  lemma MoveFlipsRowParity(p: bv32, left: bool, forward: bool, oTurn: bool)
    requires IsSquare(p) && Move(p, left, forward, oTurn) != 0
    ensures (Move(p, left, forward, oTurn) & EVEN_MASK != 0) == (p & EVEN_MASK == 0)
  {
  }

  /** Two steps in one direction never come back to the start square. */
  lemma JumpLeavesSquare(p: bv32, left: bool, forward: bool, oTurn: bool)
    requires IsSquare(p)
    ensures var q := Move(p, left, forward, oTurn);
            q != 0 && Move(q, left, forward, oTurn) != 0 ==> Move(q, left, forward, oTurn) != p
  {
  }
}
