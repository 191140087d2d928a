/**
 * The rule helpers of the console game (main.cpp): the global position
 * `x_board`, `o_board`, `kings`, whose turn it is and the two win flags,
 * with the checks the human turn makes on them and the updates it does.
 *
 * The helpers that only read the globals are functions of the position
 * `b` they read; the ones that write them, and the ones that loop, are
 * methods of the class `Game` that holds the globals.
 */
module Rules {
  import opened Layout
  import opened Geometry
  import opened Transition

  const O_PIECE: char := 'O'
  const X_PIECE: char := 'X'
  const O_KING: char := '@'
  const X_KING: char := '#'
  const SPACE: char := '*'

  /**
   * `is_space(pos)`: `pos` meets a square outside `o_board + x_board`. The
   * sum wraps around at 32 bits; the empty word is never a space.
   */
  function IsSpace(b: Board, pos: bv32): (r: bool)
    ensures pos == 0 ==> !r
  {
    pos & !(b.o + b.x) != 0
  }

  /** Disjoint words add without carries. */
  lemma SumIsUnion(o: bv32, x: bv32)
    requires o & x == 0
    ensures o + x == o | x
  {
  }

  /** On a position whose sides do not meet, a square is a space exactly when neither side holds it. */
  lemma IsSpaceSquare(b: Board, pos: bv32)
    requires b.x & b.o == 0 && IsSquare(pos)
    ensures IsSpace(b, pos) <==> !Has(b.o, pos) && !Has(b.x, pos)
  {
    SumIsUnion(b.o, b.x);
  }

  /** `getKingSide(king)`: a king's character becomes its side's man character; any other stays. */
  function GetKingSide(king: char): (r: char)
    ensures r != O_KING && r != X_KING
    ensures king != O_KING && king != X_KING ==> r == king
    ensures king == O_KING ==> r == O_PIECE
    ensures king == X_KING ==> r == X_PIECE
  {
    if king == O_KING then O_PIECE
    else if king == X_KING then X_PIECE
    else king
  }

  /** `same_side(pos, piece)`: `pos` meets the board of the side `piece` (man or king) belongs to. */
  predicate SameSide(b: Board, pos: bv32, piece: char)
  {
    var side := GetKingSide(piece);
    (side == O_PIECE && Has(b.o, pos)) || (side == X_PIECE && Has(b.x, pos))
  }

  /**
   * `getPiece(pos)`: the character drawn for the square. O wins over X
   * when both words meet `pos`, and the king flag alone draws a space.
   */
  function GetPiece(b: Board, pos: bv32): (r: char)
    ensures r == O_PIECE <==> Has(b.o, pos) && !Has(b.kings, pos)
    ensures r == O_KING <==> Has(b.o, pos) && Has(b.kings, pos)
    ensures r == X_PIECE <==> !Has(b.o, pos) && Has(b.x, pos) && !Has(b.kings, pos)
    ensures r == X_KING <==> !Has(b.o, pos) && Has(b.x, pos) && Has(b.kings, pos)
    ensures r == SPACE <==> !Has(b.o, pos) && !Has(b.x, pos)
  {
    var piece := if Has(b.o, pos) then O_KING else if Has(b.x, pos) then X_KING else SPACE;
    if Has(b.kings, pos) then piece else GetKingSide(piece)
  }

  /**
   * On a valid position, the piece drawn on a square is on the side that
   * holds the square, and only an empty square draws a character of no side.
   */
  lemma PieceSide(b: Board, pos: bv32)
    requires b.Valid() && IsSquare(pos)
    ensures SameSide(b, pos, GetPiece(b, pos)) <==> !IsSpace(b, pos)
    ensures SameSide(b, pos, GetPiece(b, pos)) ==>
              (GetKingSide(GetPiece(b, pos)) == O_PIECE <==> Has(b.o, pos))
  {
    PieceOfSide(b, pos);
    IsSpaceSquare(b, pos);
  }

  /** The side of the drawn piece, in terms of which words hold the square. */
  lemma PieceOfSide(b: Board, pos: bv32)
    ensures SameSide(b, pos, GetPiece(b, pos)) <==> Has(b.o, pos) || Has(b.x, pos)
    ensures SameSide(b, pos, GetPiece(b, pos)) ==>
              (GetKingSide(GetPiece(b, pos)) == O_PIECE <==> Has(b.o, pos))
  {
    if Has(b.o, pos) {
    } else if Has(b.x, pos) {
    } else {
    }
  }

  /** `getTurnChar()`: the man character of the side to move. */
  function TurnChar(oTurn: bool): (c: char)
    ensures c == O_PIECE || c == X_PIECE
    ensures c == O_PIECE <==> oTurn
  {
    if oTurn then O_PIECE else X_PIECE
  }

  /** The pieces of the side to move are exactly the squares `same_side(pos, getTurnChar())` accepts. */
  lemma TurnCharSide(b: Board, pos: bv32, oTurn: bool)
    ensures SameSide(b, pos, TurnChar(oTurn)) <==> Has(b.Side(oTurn), pos)
  {
  }

  /** The three-argument `move`: the side is the one `pos` belongs to, O when `o_board` holds it. */
  function MoveOwn(b: Board, pos: bv32, left: bool, forward: bool): (r: bv32)
    ensures r == Move(pos, left, forward, Has(b.o, pos))
  {
    Move(pos, left, forward, SameSide(b, pos, O_PIECE))
  }

  // Directions, in the order the loops visit them: left-forward,
  // right-forward, left-back, right-back.

  predicate LeftDir(i: nat)
  {
    i == 0 || i == 2
  }

  predicate ForwardDir(i: nat)
  {
    i < 2
  }

  /** Kings try all four directions, men the two forward ones. */
  function Directions(b: Board, pos: bv32): nat
  {
    if Has(b.kings, pos) then 4 else 2
  }

  /**
   * `available_captures`, one direction: the neighbour is an opponent piece
   * and the square beyond it is on the board and empty.
   */
  predicate CaptureOpen(b: Board, pos: bv32, left: bool, forward: bool)
  {
    var isO := SameSide(b, pos, O_PIECE);
    var over := MoveOwn(b, pos, left, forward);
    over != 0 && Has(b.Side(!isO), over) &&
    var beyond := Move(over, left, forward, isO);
    beyond != 0 && IsSpace(b, beyond)
  }

  /**
   * `has_move`, one direction: the neighbour is empty, or it is an opponent
   * piece with an empty square beyond it.
   */
  predicate StepOpen(b: Board, pos: bv32, left: bool, forward: bool)
  {
    var isO := SameSide(b, pos, O_PIECE);
    var next := MoveOwn(b, pos, left, forward);
    IsSpace(b, next) || (Has(next, b.Side(!isO)) && IsSpace(b, Move(next, left, forward, isO)))
  }

  /** A capture `available_captures` reports is a move `has_move` finds. */
  lemma CaptureIsMove(b: Board, pos: bv32, left: bool, forward: bool)
    requires CaptureOpen(b, pos, left, forward)
    ensures StepOpen(b, pos, left, forward)
  {
  }

  /** The piece on `pos` can move in one of its directions. */
  ghost predicate CanMove(b: Board, pos: bv32)
  {
    exists i: nat :: i < Directions(b, pos) && StepOpen(b, pos, LeftDir(i), ForwardDir(i))
  }

  /** `is_winner(o_turn)`: no piece of the side not to move can move. */
  ghost predicate Winner(b: Board, oTurn: bool)
  {
    forall i: bv32 :: i < 32 && Has(b.Side(!oTurn), Square(i)) ==> !CanMove(b, Square(i))
  }

  /** A side whose opponent has no piece left has won. */
  lemma WinnerWithoutPieces(b: Board, oTurn: bool)
    requires b.Side(!oTurn) == 0
    ensures Winner(b, oTurn)
  {
  }

  /** `w & ~p`: the squares of `w` outside `p`. */
  function Without(w: bv32, p: bv32): bv32
  {
    w & !p
  }

  /** `w & p`: the squares of `w` inside `p`. */
  function Within(w: bv32, p: bv32): bv32
  {
    w & p
  }

  /** The position after `add_piece(is_o, pos, is_king)`. */
  function Added(b: Board, isO: bool, pos: bv32, isKing: bool): Board
  {
    var kings := if isKing then Union(b.kings, pos) else b.kings;
    if isO then Board(b.x, Union(b.o, pos), kings) else Board(Union(b.x, pos), b.o, kings)
  }

  /** The position after `remove_piece(is_o, pos)`. */
  function Removed(b: Board, isO: bool, pos: bv32): Board
  {
    var kings := Without(b.kings, pos);
    if isO then Board(b.x, Without(b.o, pos), kings) else Board(Without(b.x, pos), b.o, kings)
  }

  // Facts about single words, one at a time, used by the lemmas on
  // positions below. Each is stated on its own so that the solver proves
  // one bit-vector identity per lemma; stated together inside `AddedValid`
  // or `RemovedValid` they make those proofs far more expensive.

  lemma UnionHas(w: bv32, p: bv32)
    requires p != 0
    ensures Has(Union(w, p), p)
  {
  }

  lemma UnionWithout(w: bv32, p: bv32)
    ensures Without(Union(w, p), p) == Without(w, p)
  {
    assert (w | p) & !p == w & !p;
  }

  lemma AbsentWord(w: bv32, p: bv32)
    requires !Has(w, p)
    ensures Without(w, p) == w
  {
  }

  lemma AddRemoveWord(w: bv32, p: bv32)
    requires !Has(w, p)
    ensures Without(Union(w, p), p) == w
  {
  }

  lemma FlagsOffEmpty(x: bv32, o: bv32, k: bv32, p: bv32)
    requires k & !(x | o) == 0 && !Has(x, p) && !Has(o, p)
    ensures !Has(k, p)
  {
  }

  lemma GrowLeft(a: bv32, b: bv32, p: bv32)
    requires a & b == 0 && !Has(b, p)
    ensures Union(a, p) & b == 0
  {
  }

  lemma GrowRight(a: bv32, b: bv32, p: bv32)
    requires a & b == 0 && !Has(a, p)
    ensures a & Union(b, p) == 0
  {
  }

  lemma CoverGrowLeft(k: bv32, a: bv32, b: bv32, p: bv32)
    requires k & !(a | b) == 0
    ensures k & !(Union(a, p) | b) == 0
  {
  }

  lemma CoverGrowRight(k: bv32, a: bv32, b: bv32, p: bv32)
    requires k & !(a | b) == 0
    ensures k & !(a | Union(b, p)) == 0
  {
  }

  lemma FlagGrowLeft(k: bv32, a: bv32, b: bv32, p: bv32)
    requires k & !(a | b) == 0
    ensures Union(k, p) & !(Union(a, p) | b) == 0
  {
  }

  lemma FlagGrowRight(k: bv32, a: bv32, b: bv32, p: bv32)
    requires k & !(a | b) == 0
    ensures Union(k, p) & !(a | Union(b, p)) == 0
  {
  }

  lemma ShrinkLeft(a: bv32, b: bv32, p: bv32)
    requires a & b == 0
    ensures Without(a, p) & b == 0
  {
  }

  lemma ShrinkRight(a: bv32, b: bv32, p: bv32)
    requires a & b == 0
    ensures a & Without(b, p) == 0
  {
  }

  lemma CoverShrinkLeft(k: bv32, a: bv32, b: bv32, p: bv32)
    requires k & !(a | b) == 0
    ensures Without(k, p) & !(Without(a, p) | b) == 0
  {
  }

  lemma CoverShrinkRight(k: bv32, a: bv32, b: bv32, p: bv32)
    requires k & !(a | b) == 0
    ensures Without(k, p) & !(a | Without(b, p)) == 0
  {
  }

  /** Adding a piece puts `pos` on the side's board and, for a king, among the flags; nothing else changes. */
  lemma AddedWords(b: Board, isO: bool, pos: bv32, isKing: bool)
    requires pos != 0
    ensures Has(Added(b, isO, pos, isKing).Side(isO), pos)
    ensures Without(Added(b, isO, pos, isKing).Side(isO), pos) == Without(b.Side(isO), pos)
    ensures Added(b, isO, pos, isKing).Side(!isO) == b.Side(!isO)
    ensures Has(Added(b, isO, pos, isKing).kings, pos) <==> isKing || Has(b.kings, pos)
    ensures Without(Added(b, isO, pos, isKing).kings, pos) == Without(b.kings, pos)
  {
    UnionHas(b.Side(isO), pos);
    UnionWithout(b.Side(isO), pos);
    UnionHas(b.kings, pos);
    UnionWithout(b.kings, pos);
  }

  /** Removing clears `pos` from the side's board and from the flags, and from nothing else. */
  lemma RemovedWords(b: Board, isO: bool, pos: bv32)
    ensures Removed(b, isO, pos).Side(isO) == Without(b.Side(isO), pos)
    ensures Removed(b, isO, pos).Side(!isO) == b.Side(!isO)
    ensures Removed(b, isO, pos).kings == Without(b.kings, pos)
  {
  }

  /** Removing a piece just added to an empty square restores the position. */
  lemma AddThenRemove(b: Board, isO: bool, pos: bv32, isKing: bool)
    requires b.Valid() && IsSquare(pos) && IsSpace(b, pos)
    ensures Removed(Added(b, isO, pos, isKing), isO, pos) == b
  {
    IsSpaceSquare(b, pos);
    FlagsOffEmpty(b.x, b.o, b.kings, pos);
    AddRemoveWord(b.Side(isO), pos);
    AddRemoveWord(b.kings, pos);
    AbsentWord(b.kings, pos);
  }

  // `AddedValid` one case at a time (side, man or king), for the same reason.

  lemma AddOManWords(x: bv32, o: bv32, k: bv32, p: bv32)
    requires x & o == 0 && k & !(x | o) == 0 && !Has(x, p)
    ensures Board(x, Union(o, p), k).Valid()
  {
    GrowRight(x, o, p);
    CoverGrowRight(k, x, o, p);
  }

  lemma AddedOManValid(b: Board, pos: bv32)
    requires b.Valid() && !Has(b.x, pos) && !Has(b.o, pos)
    ensures Added(b, true, pos, false).Valid()
  {
    AddOManWords(b.x, b.o, b.kings, pos);
  }

  lemma AddOKingWords(x: bv32, o: bv32, k: bv32, p: bv32)
    requires x & o == 0 && k & !(x | o) == 0 && !Has(x, p)
    ensures Board(x, Union(o, p), Union(k, p)).Valid()
  {
    GrowRight(x, o, p);
    FlagGrowRight(k, x, o, p);
  }

  lemma AddedOKingValid(b: Board, pos: bv32)
    requires b.Valid() && !Has(b.x, pos) && !Has(b.o, pos)
    ensures Added(b, true, pos, true).Valid()
  {
    AddOKingWords(b.x, b.o, b.kings, pos);
  }

  lemma AddXManWords(x: bv32, o: bv32, k: bv32, p: bv32)
    requires x & o == 0 && k & !(x | o) == 0 && !Has(o, p)
    ensures Board(Union(x, p), o, k).Valid()
  {
    GrowLeft(x, o, p);
    CoverGrowLeft(k, x, o, p);
  }

  lemma AddedXManValid(b: Board, pos: bv32)
    requires b.Valid() && !Has(b.x, pos) && !Has(b.o, pos)
    ensures Added(b, false, pos, false).Valid()
  {
    AddXManWords(b.x, b.o, b.kings, pos);
  }

  lemma AddXKingWords(x: bv32, o: bv32, k: bv32, p: bv32)
    requires x & o == 0 && k & !(x | o) == 0 && !Has(o, p)
    ensures Board(Union(x, p), o, Union(k, p)).Valid()
  {
    GrowLeft(x, o, p);
    FlagGrowLeft(k, x, o, p);
  }

  lemma AddedXKingValid(b: Board, pos: bv32)
    requires b.Valid() && !Has(b.x, pos) && !Has(b.o, pos)
    ensures Added(b, false, pos, true).Valid()
  {
    AddXKingWords(b.x, b.o, b.kings, pos);
  }

  /**
   * Adding a piece on a square neither side holds keeps the position valid
   * (`IsSpaceSquare`: on a square, that is what `is_space` tests).
   */
  lemma AddedValid(b: Board, isO: bool, pos: bv32, isKing: bool)
    requires b.Valid() && !Has(b.x, pos) && !Has(b.o, pos)
    ensures Added(b, isO, pos, isKing).Valid()
  {
    if isO && isKing {
      AddedOKingValid(b, pos);
    } else if isO {
      AddedOManValid(b, pos);
    } else if isKing {
      AddedXKingValid(b, pos);
    } else {
      AddedXManValid(b, pos);
    }
  }

  lemma RemovedOValid(x: bv32, o: bv32, k: bv32, p: bv32)
    requires x & o == 0 && k & !(x | o) == 0
    ensures Board(x, Without(o, p), Without(k, p)).Valid()
  {
    ShrinkRight(x, o, p);
    CoverShrinkRight(k, x, o, p);
  }

  lemma RemovedXValid(x: bv32, o: bv32, k: bv32, p: bv32)
    requires x & o == 0 && k & !(x | o) == 0
    ensures Board(Without(x, p), o, Without(k, p)).Valid()
  {
    ShrinkLeft(x, o, p);
    CoverShrinkLeft(k, x, o, p);
  }

  /** Removing a piece keeps the position valid. */
  lemma RemovedValid(b: Board, isO: bool, pos: bv32)
    requires b.Valid()
    ensures Removed(b, isO, pos).Valid()
  {
    if isO {
      RemovedOValid(b.x, b.o, b.kings, pos);
    } else {
      RemovedXValid(b.x, b.o, b.kings, pos);
    }
  }

  /** The row where the men of the side to move are crowned: row 7 for O, row 0 for X. */
  function KingRank(oTurn: bool): bv32
  {
    if oTurn then X_BACK_RANK else O_BACK_RANK
  }

  /** The position after the crowning step of `change_turn`. */
  function Promoted(b: Board, oTurn: bool): Board
  {
    Board(b.x, b.o, Union(b.kings, Within(b.Side(oTurn), KingRank(oTurn))))
  }

  lemma GrowNew(k: bv32, c: bv32)
    ensures Union(k, c) & !k & !c == 0
  {
  }

  lemma GrowKeeps(k: bv32, c: bv32)
    ensures c & !Union(k, c) == 0
  {
  }

  lemma GrowOld(k: bv32, c: bv32)
    ensures k & !Union(k, c) == 0
  {
  }

  lemma CrownXWords(x: bv32, o: bv32, k: bv32)
    requires x & o == 0 && k & !(x | o) == 0
    ensures Board(x, o, Union(k, Within(x, O_BACK_RANK))).Valid()
  {
  }

  lemma CrownOWords(x: bv32, o: bv32, k: bv32)
    requires x & o == 0 && k & !(x | o) == 0
    ensures Board(x, o, Union(k, Within(o, X_BACK_RANK))).Valid()
  {
  }

  /** `change_turn` crowns only pieces already crowned or on the far row of the side to move, and keeps both boards. */
  lemma PromotedOnlyRank(b: Board, oTurn: bool)
    ensures Promoted(b, oTurn).x == b.x && Promoted(b, oTurn).o == b.o
    ensures Promoted(b, oTurn).kings & !b.kings & !Within(b.Side(oTurn), KingRank(oTurn)) == 0
  {
    GrowNew(b.kings, Within(b.Side(oTurn), KingRank(oTurn)));
  }

  /** `change_turn` crowns every piece of the side to move on its far row, and keeps the old kings. */
  lemma PromotedWholeRank(b: Board, oTurn: bool)
    ensures Within(b.Side(oTurn), KingRank(oTurn)) & !Promoted(b, oTurn).kings == 0
    ensures b.kings & !Promoted(b, oTurn).kings == 0
  {
    GrowKeeps(b.kings, Within(b.Side(oTurn), KingRank(oTurn)));
    GrowOld(b.kings, Within(b.Side(oTurn), KingRank(oTurn)));
  }

  lemma PromotedOValid(b: Board)
    requires b.Valid()
    ensures Promoted(b, true).Valid()
  {
    CrownOWords(b.x, b.o, b.kings);
  }

  lemma PromotedXValid(b: Board)
    requires b.Valid()
    ensures Promoted(b, false).Valid()
  {
    CrownXWords(b.x, b.o, b.kings);
  }

  /** The crowning step keeps a valid position valid. */
  lemma PromotedStaysValid(b: Board, oTurn: bool)
    requires b.Valid()
    ensures Promoted(b, oTurn).Valid()
  {
    if oTurn {
      PromotedOValid(b);
    } else {
      PromotedXValid(b);
    }
  }

  lemma CrownOThenX(x: bv32, o: bv32, k: bv32)
    ensures Union(Union(k, Within(o, X_BACK_RANK)), Within(x, O_BACK_RANK)) == Crown(x, o, k)
  {
  }

  lemma CrownXThenO(x: bv32, o: bv32, k: bv32)
    ensures Union(Union(k, Within(x, O_BACK_RANK)), Within(o, X_BACK_RANK)) == Crown(x, o, k)
  {
  }

  /** One turn of each side crowns exactly the pieces the engine's promotion crowns. */
  lemma PromotedBothIsCrown(b: Board)
    ensures Promoted(Promoted(b, true), false) == Board(b.x, b.o, Crown(b.x, b.o, b.kings))
    ensures Promoted(Promoted(b, false), true) == Board(b.x, b.o, Crown(b.x, b.o, b.kings))
  {
    CrownOThenX(b.x, b.o, b.kings);
    CrownXThenO(b.x, b.o, b.kings);
  }

  /**
   * One pass of the loop of `available_captures`: the neighbour in the
   * direction must be an opponent piece and the square beyond it on the
   * board and empty.
   */
  method CaptureFrom(b: Board, pos: bv32, left: bool, forward: bool) returns (r: bool)
    ensures r == CaptureOpen(b, pos, left, forward)
  {
    var isO := SameSide(b, pos, O_PIECE);
    var opponent := b.Side(!isO);
    r := false;
    var capturePos := MoveOwn(b, pos, left, forward);
    if capturePos != 0 && Has(opponent, capturePos) {
      var newPos := Move(capturePos, left, forward, isO);
      if newPos != 0 && IsSpace(b, newPos) {
        r := true;
      }
    }
  }

  /**
   * The writes of one pass of `available_captures`: entry `k` is cleared
   * and set when the direction is open, entry 0 too when it is.
   */
  method Record(captures: array<bool>, k: nat, open: bool)
    requires 0 < k < captures.Length
    modifies captures
    ensures captures[k] == open && captures[0] == (old(captures[0]) || open)
    ensures forall j :: 0 < j < captures.Length && j != k ==> captures[j] == old(captures[j])
  {
    captures[k] := false;
    if open {
      captures[k] := true;
      captures[0] := true;
    }
  }

  /**
   * One pass of the loop of `has_move`: the neighbour in the direction is
   * empty, or an opponent piece with an empty square beyond it.
   */
  method StepFrom(b: Board, pos: bv32, left: bool, forward: bool) returns (r: bool)
    ensures r == StepOpen(b, pos, left, forward)
  {
    var isO := SameSide(b, pos, O_PIECE);
    var opponent := b.Side(!isO);
    var newPos := MoveOwn(b, pos, left, forward);
    if IsSpace(b, newPos) {
      return true;
    } else if Has(newPos, opponent) {
      newPos := Move(newPos, left, forward, isO);
      if IsSpace(b, newPos) {
        return true;
      }
    }
    return false;
  }

  /** The globals of main.cpp. */
  class Game {
    var xBoard: bv32
    var oBoard: bv32
    var kings: bv32
    var oTurn: bool
    var oWins: bool
    var xWins: bool

    /** The position the three board globals hold. */
    function Position(): Board
      reads this
    {
      Board(xBoard, oBoard, kings)
    }

    /** The globals as the program starts: the opening position, O to move, nobody has won. */
    constructor ()
      ensures Position() == START && Position().Valid()
      ensures oTurn && !oWins && !xWins
    {
      xBoard := 4293918720;
      oBoard := 4095;
      kings := 0;
      oTurn := true;
      oWins, xWins := false, false;
      StartIsValid();
    }

    /** `add_piece(is_o, pos, is_king)`. */
    method AddPiece(isO: bool, pos: bv32, isKing: bool)
      modifies this
      ensures Position() == Added(old(Position()), isO, pos, isKing)
      ensures oTurn == old(oTurn) && oWins == old(oWins) && xWins == old(xWins)
    {
      if isO {
        oBoard := Union(oBoard, pos);
      } else {
        xBoard := Union(xBoard, pos);
      }
      if isKing {
        kings := Union(kings, pos);
      }
    }

    /** `remove_piece(is_o, pos)`. */
    method RemovePiece(isO: bool, pos: bv32)
      modifies this
      ensures Position() == Removed(old(Position()), isO, pos)
      ensures oTurn == old(oTurn) && oWins == old(oWins) && xWins == old(xWins)
    {
      if isO {
        oBoard := Without(oBoard, pos);
      } else {
        xBoard := Without(xBoard, pos);
      }
      kings := Without(kings, pos);
    }

    /**
     * `available_captures(captures, pos)`: entry `i + 1` tells whether the
     * piece on `pos` can capture in direction `i`, entry 0 whether it can
     * capture at all. The entries of directions the piece does not have are
     * left as they were.
     */
    method AvailableCaptures(captures: array<bool>, pos: bv32)
      requires captures.Length > Directions(Position(), pos)
      modifies captures
      ensures forall i :: 0 <= i < Directions(Position(), pos) ==> captures[i + 1] == CaptureOpen(Position(), pos, LeftDir(i), ForwardDir(i))
      ensures captures[0] <==> exists i :: 0 <= i < Directions(Position(), pos) && CaptureOpen(Position(), pos, LeftDir(i), ForwardDir(i))
      ensures forall k :: Directions(Position(), pos) < k < captures.Length ==> captures[k] == old(captures[k])
    {
      var b := Position();
      captures[0] := false;
      var count := if Has(b.kings, pos) then 4 else 2;
      var left, forward := true, true;
      var i := 0;
      while i < count
        invariant 0 <= i <= count && count == Directions(b, pos)
        invariant i < 4 ==> left == LeftDir(i) && forward == ForwardDir(i)
        invariant forall j :: 0 <= j < i ==> captures[j + 1] == CaptureOpen(b, pos, LeftDir(j), ForwardDir(j))
        invariant captures[0] <==> exists j :: 0 <= j < i && CaptureOpen(b, pos, LeftDir(j), ForwardDir(j))
        invariant forall k :: i < k < captures.Length ==> captures[k] == old(captures[k])
      {
        var open := CaptureFrom(b, pos, left, forward);
        Record(captures, i + 1, open);
        left := !left;
        if left {
          forward := !forward;
        }
        i := i + 1;
      }
    }

    /** `has_move(pos)`: the piece on `pos` has an open direction. */
    method HasMove(pos: bv32) returns (r: bool)
      ensures r == CanMove(Position(), pos)
    {
      var b := Position();
      var count := if Has(b.kings, pos) then 4 else 2;
      var left, forward := true, true;
      var i := 0;
      while i < count
        invariant 0 <= i <= count && count == Directions(b, pos)
        invariant i < 4 ==> left == LeftDir(i) && forward == ForwardDir(i)
        invariant forall j :: 0 <= j < i ==> !StepOpen(b, pos, LeftDir(j), ForwardDir(j))
      {
        var open := StepFrom(b, pos, left, forward);
        if open {
          return true;
        }
        left := !left;
        if left {
          forward := !forward;
        }
        i := i + 1;
      }
      return false;
    }

    /** `is_winner(o_turn)`: every square from bit 0 up is tried for a movable opponent piece. */
    method IsWinner(oTurn: bool) returns (r: bool)
      ensures r == Winner(Position(), oTurn)
    {
      var opponent := if oTurn then xBoard else oBoard;
      var pos: bv32 := 1;
      ghost var i: bv32 := 0;
      while pos != 0
        invariant i <= 32 && pos == (if i < 32 then Square(i) else 0)
        invariant forall j: bv32 :: j < i && Has(opponent, Square(j)) ==> !CanMove(Position(), Square(j))
        decreases 32 - i
      {
        if Has(opponent, pos) {
          var moves := HasMove(pos);
          if moves {
            return false;
          }
        }
        SquareNext(i);
        pos := pos << 1;
        i := i + 1;
      }
      return true;
    }

    /**
     * `change_turn()`: the side to move has its pieces on the far row
     * crowned, its win flag set from the crowned position, and the turn
     * passes to the other side.
     */
    method ChangeTurn()
      modifies this
      ensures Position() == Promoted(old(Position()), old(oTurn))
      ensures oTurn == !old(oTurn)
      ensures old(oTurn) ==> oWins == Winner(Position(), true) && xWins == old(xWins)
      ensures !old(oTurn) ==> xWins == Winner(Position(), false) && oWins == old(oWins)
    {
      var kingRank := if oTurn then X_BACK_RANK else O_BACK_RANK;
      var playerBoard := if oTurn then oBoard else xBoard;
      kings := Union(kings, Within(playerBoard, kingRank));
      if oTurn {
        oWins := IsWinner(oTurn);
      } else {
        xWins := IsWinner(oTurn);
      }
      oTurn := !oTurn;
    }
  }
}
