/**
 * The engine object (`PlayerAI`): the board it plays on, the two win flags
 * it is told about, and the searches that pick and play its move.
 */
module Engine {
  import opened Layout
  import opened Material
  import opened Transition
  import opened Generator
  import opened Search
  import Legality

  /** The search depth `next_move` uses. */
  const DEPTH: nat := 11

  /** The move word a search result carries: its move, or 0 when it has none. */
  function MoveWord(r: ScoreMovePair): bv32
  {
    if r.move.Some? then r.move.value else 0
  }

  /**
   * The board after the side to move at a max (X) or min (O) node plays the
   * chosen move in place, with promotion.
   */
  function Play(b: Board, r: ScoreMovePair, maxPlayer: bool): Board
  {
    Child(b, maxPlayer, MoveWord(r))
  }

  /** Playing the empty mask moves no piece and only crowns the pieces on the far rows. */
  lemma PlayNothing(b: Board, score: int, maxPlayer: bool)
    ensures Play(b, ScoreMovePair(None, score), maxPlayer) == Board(b.x, b.o, Crown(b.x, b.o, b.kings))
  {
    ApplyOpponent(b, 0, Mover(maxPlayer), true);
    ApplyWords(b, 0, Mover(maxPlayer), true);
  }

  /** Playing a move `get_all_moves` offers, or the empty mask, keeps a valid position valid. */
  lemma PlayKeepsValid(b: Board, r: ScoreMovePair, maxPlayer: bool)
    requires b.Valid()
    requires r.move.Some? ==> r.move.value in AllMoves(b, Mover(maxPlayer))
    ensures Play(b, r, maxPlayer).Valid()
  {
    if r.move.Some? {
      Legality.AllMovesKeepValid(b, Mover(maxPlayer), r.move.value, true);
    } else {
      PlayNothingValid(b, r.score, maxPlayer);
    }
  }

  /** Playing the empty mask keeps a valid position valid. */
  lemma PlayNothingValid(b: Board, score: int, maxPlayer: bool)
    requires b.Valid()
    ensures Play(b, ScoreMovePair(None, score), maxPlayer).Valid()
  {
    PlayNothing(b, score, maxPlayer);
    CrownedValid(Play(b, ScoreMovePair(None, score), maxPlayer), b.x, b.o, b.kings);
  }

  lemma CrownedValid(r: Board, x: bv32, o: bv32, kings: bv32)
    requires r.x == x && r.o == o && r.kings == Crown(x, o, kings)
    requires x & o == 0 && kings & !(x | o) == 0
    ensures r.Valid()
  {
    CrownCovered(x, o, kings, r.kings);
    ValidFromParts(r, x, o, r.kings);
  }

  /** The move the search picks, played on a valid position, leaves a valid position. */
  lemma SearchKeepsValid(b: Board, after: Board, depth: nat, maxPlayer: bool)
    requires after == Play(b, Search.Minimax(b, depth, maxPlayer), maxPlayer)
    ensures b.Valid() ==> after.Valid()
  {
    if b.Valid() {
      MinimaxShape(b, depth, maxPlayer);
      PlayKeepsValid(b, Search.Minimax(b, depth, maxPlayer), maxPlayer);
    }
  }

  class PlayerAI {
    /** `{x_board, o_board, kings}`. */
    var board: array<bv32>
    var oWins: bool
    var xWins: bool

    ghost predicate Valid()
      reads this
    {
      board.Length == 3
    }

    /** The position held in `board`. */
    function State(): Board
      reads this, board
      requires Valid()
    {
      FromSlots(board[..])
    }

    constructor (oBoard: bv32, xBoard: bv32, kings: bv32)
      ensures Valid() && fresh(board)
      ensures State() == Board(xBoard, oBoard, kings) && !oWins && !xWins
    {
      board := new bv32[3];
      new;
      Update(oBoard, xBoard, kings, false, false);
    }

    /** `update`: the three words go to their slots, the flags are copied. */
    method Update(oBoard: bv32, xBoard: bv32, kings: bv32, oWins: bool, xWins: bool)
      requires Valid()
      modifies this, board
      ensures board == old(board) && Valid()
      ensures State() == Board(xBoard, oBoard, kings)
      ensures this.oWins == oWins && this.xWins == xWins
    {
      board[0], board[1], board[2] := xBoard, oBoard, kings;
      this.oWins, this.xWins := oWins, xWins;
    }

    /** `x_board()`. */
    function XBoard(): (w: bv32)
      reads this, board
      requires Valid()
      ensures w == State().x && w == State().Side(false)
    {
      board[0]
    }

    /** `o_board()`. */
    function OBoard(): (w: bv32)
      reads this, board
      requires Valid()
      ensures w == State().o && w == State().Side(true)
    {
      board[1]
    }

    /** `kings()`. */
    function Kings(): (w: bv32)
      reads this, board
      requires Valid()
      ensures w == State().kings
    {
      board[2]
    }

    /** `minimax(board, depth, max_player)`. */
    method MinimaxFrom(board: array<bv32>, depth: nat, maxPlayer: bool) returns (result: ScoreMovePair)
      requires board.Length == 3
      ensures result == Search.Minimax(FromSlots(board[..]), depth, maxPlayer)
      decreases depth, 2
    {
      if depth == 0 {
        var score := EvaluateBoard(board);
        return ScoreMovePair(None, score);
      }
      var moves := GetAllMoves(board, Mover(maxPlayer));
      var limit, best := MinimaxChildren(board, depth, maxPlayer, moves);
      if best.Some? {
        result := ScoreMovePair(best, limit);
      } else {
        var score := EvaluateBoard(board);
        result := ScoreMovePair(None, score);
      }
    }

    /**
     * The loop of `minimax` over `moves`: each child is played into a fresh
     * array and searched one level shallower.
     */
    method MinimaxChildren(board: array<bv32>, depth: nat, maxPlayer: bool, moves: seq<bv32>)
      returns (limit: int, best: Option<bv32>)
      requires board.Length == 3 && depth > 0
      ensures MinimaxLoop(FromSlots(board[..]), depth, maxPlayer, moves, Worst(maxPlayer), None)
           == ScoreMovePair(best, limit)
      decreases depth, 1
    {
      ghost var b := FromSlots(board[..]);
      limit := Worst(maxPlayer);
      best := None;
      var i := 0;
      while i < |moves|
        invariant i <= |moves|
        invariant MinimaxLoop(b, depth, maxPlayer, moves[i..], limit, best)
               == MinimaxLoop(b, depth, maxPlayer, moves, Worst(maxPlayer), None)
      {
        var evaluation := MinimaxChild(board, depth, maxPlayer, moves[i]);
        MinimaxLoopStep(b, depth, maxPlayer, moves, i, limit, best);
        if Improves(maxPlayer, limit, evaluation) {
          best := Some(moves[i]);
        }
        limit := Keep(maxPlayer, limit, evaluation);
        i := i + 1;
      }
    }

    /** One child of a minimax node: `mv` is played into `temp_board` and searched one level shallower. */
    method MinimaxChild(board: array<bv32>, depth: nat, maxPlayer: bool, mv: bv32) returns (evaluation: int)
      requires board.Length == 3 && depth > 0
      ensures evaluation == Search.Minimax(Child(FromSlots(board[..]), maxPlayer, mv), depth - 1, !maxPlayer).score
      decreases depth, 0
    {
      ghost var next := Child(FromSlots(board[..]), maxPlayer, mv);
      var temp := new bv32[3];
      SimulateMove(board, temp, mv, Mover(maxPlayer), true);
      assert FromSlots(temp[..]) == next;
      var child := MinimaxFrom(temp, depth - 1, !maxPlayer);
      evaluation := child.score;
    }

    /** `alphabeta(board, depth, max_player, alpha, beta)`. */
    method AlphaBetaFrom(board: array<bv32>, depth: nat, maxPlayer: bool, alpha: int, beta: int)
      returns (result: ScoreMovePair)
      requires board.Length == 3
      ensures result == Search.AlphaBeta(FromSlots(board[..]), depth, maxPlayer, alpha, beta)
      decreases depth, 2
    {
      if depth == 0 {
        var score := EvaluateBoard(board);
        return ScoreMovePair(None, score);
      }
      var moves := GetAllMoves(board, Mover(maxPlayer));
      var limit, best := AlphaBetaChildren(board, depth, maxPlayer, moves, alpha, beta);
      if best.Some? {
        result := ScoreMovePair(best, limit);
      } else {
        var score := EvaluateBoard(board);
        result := ScoreMovePair(None, score);
      }
    }

    /**
     * The loop of `alphabeta` over `moves`: after each child, `alpha` (max
     * node) or `beta` (min node) tightens, and the loop stops once the window
     * is empty.
     */
    method AlphaBetaChildren(board: array<bv32>, depth: nat, maxPlayer: bool, moves: seq<bv32>, alpha: int, beta: int)
      returns (limit: int, best: Option<bv32>)
      requires board.Length == 3 && depth > 0
      ensures AlphaBetaLoop(FromSlots(board[..]), depth, maxPlayer, moves, Worst(maxPlayer), None, alpha, beta)
           == ScoreMovePair(best, limit)
      decreases depth, 1
    {
      ghost var b := FromSlots(board[..]);
      limit := Worst(maxPlayer);
      best := None;
      var a, z := alpha, beta;
      var i := 0;
      while i < |moves|
        invariant i <= |moves|
        invariant AlphaBetaLoop(b, depth, maxPlayer, moves[i..], limit, best, a, z)
               == AlphaBetaLoop(b, depth, maxPlayer, moves, Worst(maxPlayer), None, alpha, beta)
      {
        var evaluation := AlphaBetaChild(board, depth, maxPlayer, moves[i], a, z);
        AlphaBetaLoopStep(b, depth, maxPlayer, moves, i, limit, best, a, z);
        if Improves(maxPlayer, limit, evaluation) {
          best := Some(moves[i]);
        }
        limit := Keep(maxPlayer, limit, evaluation);
        if maxPlayer {
          a := Keep(true, a, limit);
        } else {
          z := Keep(false, z, limit);
        }
        if z <= a {
          return;
        }
        i := i + 1;
      }
    }

    /** One child of an alpha-beta node, searched with the node's current window. */
    method AlphaBetaChild(board: array<bv32>, depth: nat, maxPlayer: bool, mv: bv32, alpha: int, beta: int)
      returns (evaluation: int)
      requires board.Length == 3 && depth > 0
      ensures evaluation == Search.AlphaBeta(Child(FromSlots(board[..]), maxPlayer, mv), depth - 1, !maxPlayer, alpha, beta).score
      decreases depth, 0
    {
      ghost var next := Child(FromSlots(board[..]), maxPlayer, mv);
      var temp := new bv32[3];
      SimulateMove(board, temp, mv, Mover(maxPlayer), true);
      assert FromSlots(temp[..]) == next;
      var child := AlphaBetaFrom(temp, depth - 1, !maxPlayer, alpha, beta);
      evaluation := child.score;
    }
      /**
     * `minimax(depth, max_player)`: searches the current board and plays the
     * chosen move on it in place, as the side to move at the root.
     */
    method Minimax(depth: nat, maxPlayer: bool)
      requires Valid()
      modifies board
      ensures Valid()
      ensures State() == Play(old(State()), Search.Minimax(old(State()), depth, maxPlayer), maxPlayer)
      ensures old(State()).Valid() ==> State().Valid()
    {
      ghost var start := State();
      var result := MinimaxFrom(board, depth, maxPlayer);
      SimulateMove(board, board, MoveWord(result), Mover(maxPlayer), true);
      SearchKeepsValid(start, State(), depth, maxPlayer);
    }

    /**
     * `alphabeta(depth, max_player)`: the same with the full window; it plays
     * exactly the move `minimax` would.
     */
    method AlphaBeta(depth: nat, maxPlayer: bool)
      requires Valid()
      modifies board
      ensures Valid()
      ensures State() == Play(old(State()), Search.AlphaBeta(old(State()), depth, maxPlayer, -INF, INF), maxPlayer)
      ensures State() == Play(old(State()), Search.Minimax(old(State()), depth, maxPlayer), maxPlayer)
      ensures old(State()).Valid() ==> State().Valid()
    {
      ghost var start := State();
      AlphaBetaIsMinimax(State(), depth, maxPlayer);
      var result := AlphaBetaFrom(board, depth, maxPlayer, -INF, INF);
      SimulateMove(board, board, MoveWord(result), Mover(maxPlayer), true);
      SearchKeepsValid(start, State(), depth, maxPlayer);
    }

    /**
     * `next_move`: takes over the position it is given, then plays the
     * alpha-beta choice at depth `DEPTH` for `player`.
     */
    method NextMove(player: bool, oBoard: bv32, xBoard: bv32, kings: bv32, oWins: bool, xWins: bool)
      requires Valid()
      modifies this, board
      ensures board == old(board) && Valid()
      ensures this.oWins == oWins && this.xWins == xWins
      ensures State() == Play(Board(xBoard, oBoard, kings),
                              Search.Minimax(Board(xBoard, oBoard, kings), DEPTH, player), player)
      ensures Board(xBoard, oBoard, kings).Valid() ==> State().Valid()
    {
      Update(oBoard, xBoard, kings, oWins, xWins);
      AlphaBeta(DEPTH, player);
    }
  }
}
