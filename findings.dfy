/**
 * The searches as the source writes them, where `best_move` is declared
 * without an initial value. When the side to move has no move, the loop
 * never assigns it, and the node reports whatever word the stack held.
 * `junk` stands for that word. The corrected searches in `Search` start
 * from no move instead.
 */
module Findings {
  import opened Layout
  import opened Material
  import opened Generator
  import opened Search

  /** The start value of `best_move` as written: any word, 0 reading as no move. */
  function Garbage(junk: bv32): Option<bv32>
  {
    if junk == 0 then None else Some(junk)
  }

  /** `minimax(board, depth, max_player)` as written, with `best_move` starting as `junk`. */
  function MinimaxAsWritten(b: Board, depth: nat, maxPlayer: bool, junk: bv32): ScoreMovePair
  {
    if depth == 0 then ScoreMovePair(None, Evaluate(b))
    else Settle(b, MinimaxLoop(b, depth, maxPlayer, AllMoves(b, Mover(maxPlayer)), Worst(maxPlayer), Garbage(junk)))
  }

  /** `alphabeta(board, depth, max_player, alpha, beta)` as written, with `best_move` starting as `junk`. */
  function AlphaBetaAsWritten(b: Board, depth: nat, maxPlayer: bool, alpha: int, beta: int, junk: bv32): ScoreMovePair
  {
    if depth == 0 then ScoreMovePair(None, Evaluate(b))
    else Settle(b, AlphaBetaLoop(b, depth, maxPlayer, AllMoves(b, Mover(maxPlayer)), Worst(maxPlayer), Garbage(junk), alpha, beta))
  }

  lemma {:induction false} MovesBelowNone(b: Board, isO: bool, n: bv32)
    requires n <= 32 && b.Side(isO) == 0
    ensures MovesBelow(b, isO, n) == []
  {
    if n > 0 {
      MovesBelowNone(b, isO, n - 1);
    }
  }

  /** A side without pieces has no move. */
  lemma NoPiecesNoMoves(b: Board, isO: bool)
    requires b.Side(isO) == 0
    ensures AllMoves(b, isO) == []
  {
    MovesBelowNone(b, isO, 32);
  }

  /**
   * Once O has lost its last piece, a min node above the leaves reports the
   * stale word as its move and `FLT_MAX` as its score, where the corrected
   * search reports no move and the material score.
   */
  lemma MinimaxStrandedNode(x: bv32, kings: bv32, depth: nat, junk: bv32)
    requires depth > 0 && junk != 0
    ensures MinimaxAsWritten(Board(x, 0, kings), depth, false, junk) == ScoreMovePair(Some(junk), INF)
    ensures !InRange(MinimaxAsWritten(Board(x, 0, kings), depth, false, junk).score)
    ensures Minimax(Board(x, 0, kings), depth, false) == ScoreMovePair(None, Evaluate(Board(x, 0, kings)))
  {
    NoPiecesNoMoves(Board(x, 0, kings), true);
  }

  /** The same for alpha-beta, whatever the window. */
  lemma AlphaBetaStrandedNode(x: bv32, kings: bv32, depth: nat, alpha: int, beta: int, junk: bv32)
    requires depth > 0 && junk != 0
    ensures AlphaBetaAsWritten(Board(x, 0, kings), depth, false, alpha, beta, junk) == ScoreMovePair(Some(junk), INF)
    ensures AlphaBeta(Board(x, 0, kings), depth, false, alpha, beta) == ScoreMovePair(None, Evaluate(Board(x, 0, kings)))
  {
    NoPiecesNoMoves(Board(x, 0, kings), true);
  }

  /** With a zeroed stack word, the search as written is the corrected one. */
  lemma {:induction false} AsWrittenWithZero(b: Board, depth: nat, maxPlayer: bool, alpha: int, beta: int)
    ensures MinimaxAsWritten(b, depth, maxPlayer, 0) == Minimax(b, depth, maxPlayer)
    ensures AlphaBetaAsWritten(b, depth, maxPlayer, alpha, beta, 0) == AlphaBeta(b, depth, maxPlayer, alpha, beta)
  {
  }
}
