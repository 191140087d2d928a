/**
 * The fixed-depth game-tree search of the engine (`PlayerAI::minimax` and
 * `PlayerAI::alphabeta` on a board), as functions on boards.
 *
 * X is the maximising side: a max node ranges over X's moves and plays them
 * as X, a min node over O's moves. Scores are the integers `evaluate`
 * produces; `INF` stands in for `FLT_MAX`, and every score lies strictly
 * inside `(-INF, INF)`.
 */
module Search {
  import opened Layout
  import opened Material
  import opened Transition
  import opened Generator

  /** The sentinel for `FLT_MAX`: larger than any score. */
  const INF: int := 1000

  /** The side that moves at a node: O at a min node, X at a max node. */
  function Mover(maxPlayer: bool): bool
  {
    !maxPlayer
  }

  /** The board after the side to move at the node plays `mv`, with promotion. */
  function Child(b: Board, maxPlayer: bool, mv: bv32): Board
  {
    Apply(b, mv, Mover(maxPlayer), true)
  }

  /** `evalLimit < evaluation` at a max node, `evalLimit > evaluation` at a min node. */
  predicate Improves(maxPlayer: bool, limit: int, e: int)
  {
    if maxPlayer then limit < e else limit > e
  }

  /** `max(evalLimit, evaluation)` at a max node, `min` at a min node. */
  function Keep(maxPlayer: bool, limit: int, e: int): int
  {
    if maxPlayer then (if limit < e then e else limit) else (if limit > e then e else limit)
  }

  /** The start value of `evalLimit`: `-FLT_MAX` at a max node, `FLT_MAX` at a min node. */
  function Worst(maxPlayer: bool): int
  {
    if maxPlayer then -INF else INF
  }

  /** `result.score = best_move ? evalLimit : evaluate(board)`. */
  function Settle(b: Board, r: ScoreMovePair): ScoreMovePair
  {
    ScoreMovePair(r.move, if r.move.Some? then r.score else Evaluate(b))
  }

  /** A score `evaluate` can produce. */
  predicate InRange(v: int)
  {
    -160 <= v <= 160
  }

  // Minimax.

  /** `minimax(board, depth, max_player)`. */
  function Minimax(b: Board, depth: nat, maxPlayer: bool): ScoreMovePair
    decreases depth, 1
  {
    if depth == 0 then ScoreMovePair(None, Evaluate(b))
    else Settle(b, MinimaxLoop(b, depth, maxPlayer, AllMoves(b, Mover(maxPlayer)), Worst(maxPlayer), None))
  }

  /** The loop over the moves of the node, from `(evalLimit, best_move) = (limit, best)` on. */
  function MinimaxLoop(b: Board, depth: nat, maxPlayer: bool, moves: seq<bv32>, limit: int,
                       best: Option<bv32>): ScoreMovePair
    requires depth > 0
    decreases depth, 0, |moves|
  {
    if moves == [] then ScoreMovePair(best, limit)
    else
      var e := Minimax(Child(b, maxPlayer, moves[0]), depth - 1, !maxPlayer).score;
      MinimaxLoop(b, depth, maxPlayer, moves[1..], Keep(maxPlayer, limit, e),
                  if Improves(maxPlayer, limit, e) then Some(moves[0]) else best)
  }

  // Alpha-beta.

  /** `alphabeta(board, depth, max_player, alpha, beta)`. */
  function AlphaBeta(b: Board, depth: nat, maxPlayer: bool, alpha: int, beta: int): ScoreMovePair
    decreases depth, 1
  {
    if depth == 0 then ScoreMovePair(None, Evaluate(b))
    else Settle(b, AlphaBetaLoop(b, depth, maxPlayer, AllMoves(b, Mover(maxPlayer)), Worst(maxPlayer), None, alpha, beta))
  }

  /**
   * The loop over the moves of the node: after each child, `alpha` (max
   * node) or `beta` (min node) tightens to `evalLimit`, and the loop breaks
   * once `beta <= alpha`.
   */
  function AlphaBetaLoop(b: Board, depth: nat, maxPlayer: bool, moves: seq<bv32>, limit: int,
                         best: Option<bv32>, alpha: int, beta: int): ScoreMovePair
    requires depth > 0
    decreases depth, 0, |moves|
  {
    if moves == [] then ScoreMovePair(best, limit)
    else
      var e := AlphaBeta(Child(b, maxPlayer, moves[0]), depth - 1, !maxPlayer, alpha, beta).score;
      var limit' := Keep(maxPlayer, limit, e);
      var best' := if Improves(maxPlayer, limit, e) then Some(moves[0]) else best;
      var alpha' := if maxPlayer then Keep(true, alpha, limit') else alpha;
      var beta' := if maxPlayer then beta else Keep(false, beta, limit');
      if beta' <= alpha' then ScoreMovePair(best', limit')
      else AlphaBetaLoop(b, depth, maxPlayer, moves[1..], limit', best', alpha', beta')
  }

  // Scores stay in range, and a move is chosen exactly when there is one.

  /**
   * A search returns a score `evaluate` can produce, and a move exactly when
   * the node is above the leaves and its side has a move, namely one of
   * those moves.
   */
  lemma {:induction false} MinimaxShape(b: Board, depth: nat, maxPlayer: bool)
    ensures var r := Minimax(b, depth, maxPlayer);
            InRange(r.score) &&
            (r.move.Some? <==> depth > 0 && AllMoves(b, Mover(maxPlayer)) != []) &&
            (r.move.Some? ==> r.move.value in AllMoves(b, Mover(maxPlayer)))
    decreases depth, 1
  {
    EvaluateBound(b);
    if depth > 0 {
      MinimaxLoopShape(b, depth, maxPlayer, AllMoves(b, Mover(maxPlayer)), Worst(maxPlayer), None);
    }
  }

  lemma {:induction false} MinimaxLoopShape(b: Board, depth: nat, maxPlayer: bool, moves: seq<bv32>, limit: int,
                                            best: Option<bv32>)
    requires depth > 0
    requires if best.Some? then InRange(limit) else limit == Worst(maxPlayer)
    ensures var r := MinimaxLoop(b, depth, maxPlayer, moves, limit, best);
            (r.move.Some? <==> best.Some? || moves != []) &&
            (r.move.Some? ==> InRange(r.score)) &&
            (r.move.Some? && r.move != best ==> r.move.value in moves)
    decreases depth, 0, |moves|
  {
    if moves != [] {
      var e := Minimax(Child(b, maxPlayer, moves[0]), depth - 1, !maxPlayer).score;
      MinimaxShape(Child(b, maxPlayer, moves[0]), depth - 1, !maxPlayer);
      var best' := if Improves(maxPlayer, limit, e) then Some(moves[0]) else best;
      MinimaxLoopShape(b, depth, maxPlayer, moves[1..], Keep(maxPlayer, limit, e), best');
    }
  }

  /** The same for alpha-beta, whatever the window. */
  lemma {:induction false} AlphaBetaShape(b: Board, depth: nat, maxPlayer: bool, alpha: int, beta: int)
    ensures var r := AlphaBeta(b, depth, maxPlayer, alpha, beta);
            InRange(r.score) &&
            (r.move.Some? <==> depth > 0 && AllMoves(b, Mover(maxPlayer)) != []) &&
            (r.move.Some? ==> r.move.value in AllMoves(b, Mover(maxPlayer)))
    decreases depth, 1
  {
    EvaluateBound(b);
    if depth > 0 {
      AlphaBetaLoopShape(b, depth, maxPlayer, AllMoves(b, Mover(maxPlayer)), Worst(maxPlayer), None, alpha, beta);
    }
  }

  /** Just the range part of `AlphaBetaShape`. */
  lemma AlphaBetaInRange(b: Board, depth: nat, maxPlayer: bool, alpha: int, beta: int)
    ensures InRange(AlphaBeta(b, depth, maxPlayer, alpha, beta).score)
  {
    AlphaBetaShape(b, depth, maxPlayer, alpha, beta);
  }

  lemma {:induction false} AlphaBetaLoopShape(b: Board, depth: nat, maxPlayer: bool, moves: seq<bv32>, limit: int,
                                              best: Option<bv32>, alpha: int, beta: int)
    requires depth > 0
    requires if best.Some? then InRange(limit) else limit == Worst(maxPlayer)
    ensures var r := AlphaBetaLoop(b, depth, maxPlayer, moves, limit, best, alpha, beta);
            (r.move.Some? <==> best.Some? || moves != []) &&
            (r.move.Some? ==> InRange(r.score)) &&
            (r.move.Some? && r.move != best ==> r.move.value in moves)
    decreases depth, 0, |moves|
  {
    if moves != [] {
      var e := AlphaBeta(Child(b, maxPlayer, moves[0]), depth - 1, !maxPlayer, alpha, beta).score;
      AlphaBetaShape(Child(b, maxPlayer, moves[0]), depth - 1, !maxPlayer, alpha, beta);
      var limit' := Keep(maxPlayer, limit, e);
      var best' := if Improves(maxPlayer, limit, e) then Some(moves[0]) else best;
      var alpha' := if maxPlayer then Keep(true, alpha, limit') else alpha;
      var beta' := if maxPlayer then beta else Keep(false, beta, limit');
      assert InRange(e);
      assert best'.Some? && InRange(limit') && (best' != best ==> best' == Some(moves[0]));
      if beta' > alpha' {
        AlphaBetaLoopShape(b, depth, maxPlayer, moves[1..], limit', best', alpha', beta');
        assert AlphaBetaLoop(b, depth, maxPlayer, moves, limit, best, alpha, beta)
            == AlphaBetaLoop(b, depth, maxPlayer, moves[1..], limit', best', alpha', beta');
      } else {
        assert AlphaBetaLoop(b, depth, maxPlayer, moves, limit, best, alpha, beta) == ScoreMovePair(best', limit');
      }
    }
  }

  // Minimax picks the first move with the best child score.

  /** The minimax scores of the children reached by `moves`, in order. */
  function Scores(b: Board, depth: nat, maxPlayer: bool, moves: seq<bv32>): (s: seq<int>)
    requires depth > 0
    ensures |s| == |moves|
    decreases |moves|
  {
    if moves == [] then []
    else [Minimax(Child(b, maxPlayer, moves[0]), depth - 1, !maxPlayer).score] + Scores(b, depth, maxPlayer, moves[1..])
  }

  /** The largest (max node) or smallest (min node) value of `s`. */
  function Extreme(maxPlayer: bool, s: seq<int>): (r: int)
    requires s != []
    ensures r in s
    ensures forall i :: 0 <= i < |s| ==> if maxPlayer then s[i] <= r else s[i] >= r
    decreases |s|
  {
    if |s| == 1 then s[0]
    else
      var t := Extreme(maxPlayer, s[1..]);
      if Improves(maxPlayer, t, s[0]) then s[0] else t
  }

  /** The index of the first occurrence of `v` in `s`. */
  function FirstIndex(s: seq<int>, v: int): (k: nat)
    requires v in s
    ensures k < |s| && s[k] == v
    ensures forall j :: 0 <= j < k ==> s[j] != v
    decreases |s|
  {
    if s[0] == v then 0 else 1 + FirstIndex(s[1..], v)
  }

  /**
   * One child score `e` in front of the scores `rest`: how the extreme and
   * its first index over `[e] + rest` follow from those over `rest`, seen
   * from `limit` before `e` and `Keep(limit, e)` after it.
   */
  lemma BestStep(maxPlayer: bool, limit: int, e: int, rest: seq<int>)
    ensures var s := [e] + rest;
            var limit' := Keep(maxPlayer, limit, e);
            if rest != [] && Improves(maxPlayer, limit', Extreme(maxPlayer, rest)) then
              Improves(maxPlayer, limit, Extreme(maxPlayer, s)) && Extreme(maxPlayer, s) == Extreme(maxPlayer, rest) &&
              FirstIndex(s, Extreme(maxPlayer, s)) == 1 + FirstIndex(rest, Extreme(maxPlayer, rest))
            else if Improves(maxPlayer, limit, e) then
              Improves(maxPlayer, limit, Extreme(maxPlayer, s)) && Extreme(maxPlayer, s) == e &&
              FirstIndex(s, e) == 0
            else
              !Improves(maxPlayer, limit, Extreme(maxPlayer, s))
  {
    var s := [e] + rest;
    assert s[1..] == rest;
    if rest != [] {
      var x := Extreme(maxPlayer, s);
      var t := Extreme(maxPlayer, rest);
      assert x == (if Improves(maxPlayer, t, e) then e else t);
      if x != e {
        assert FirstIndex(s, x) == 1 + FirstIndex(rest, x);
      }
    }
  }

  /**
   * The minimax loop from `(evalLimit, best_move) = (limit, best)`: if some
   * child beats `limit`, it ends on the best child score and the first move
   * reaching it, and otherwise leaves both unchanged.
   */
  lemma {:induction false} MinimaxLoopBest(b: Board, depth: nat, maxPlayer: bool, moves: seq<bv32>, limit: int,
                                           best: Option<bv32>)
    requires depth > 0
    ensures var s := Scores(b, depth, maxPlayer, moves);
            var r := MinimaxLoop(b, depth, maxPlayer, moves, limit, best);
            if s != [] && Improves(maxPlayer, limit, Extreme(maxPlayer, s))
            then r.score == Extreme(maxPlayer, s) && r.move == Some(moves[FirstIndex(s, r.score)])
            else r.score == limit && r.move == best
    decreases |moves|
  {
    if moves != [] {
      var e := Minimax(Child(b, maxPlayer, moves[0]), depth - 1, !maxPlayer).score;
      var rest := Scores(b, depth, maxPlayer, moves[1..]);
      var limit' := Keep(maxPlayer, limit, e);
      var best' := if Improves(maxPlayer, limit, e) then Some(moves[0]) else best;
      MinimaxLoopBest(b, depth, maxPlayer, moves[1..], limit', best');
      BestStep(maxPlayer, limit, e, rest);
      if rest != [] && Improves(maxPlayer, limit', Extreme(maxPlayer, rest)) {
        assert moves[1..][FirstIndex(rest, Extreme(maxPlayer, rest))] == moves[1 + FirstIndex(rest, Extreme(maxPlayer, rest))];
      }
    }
  }

  /**
   * Above the leaves, with at least one move, minimax scores the node with
   * the best child score and picks the first move (in generation order)
   * whose child reaches it.
   */
  lemma MinimaxChoosesFirstBest(b: Board, depth: nat, maxPlayer: bool)
    requires depth > 0 && AllMoves(b, Mover(maxPlayer)) != []
    ensures var moves := AllMoves(b, Mover(maxPlayer));
            var s := Scores(b, depth, maxPlayer, moves);
            var r := Minimax(b, depth, maxPlayer);
            r.score == Extreme(maxPlayer, s) && r.move == Some(moves[FirstIndex(s, r.score)])
  {
    var moves := AllMoves(b, Mover(maxPlayer));
    var s := Scores(b, depth, maxPlayer, moves);
    MinimaxLoopBest(b, depth, maxPlayer, moves, Worst(maxPlayer), None);
    ScoresInRange(b, depth, maxPlayer, moves);
  }

  /** Every child score is one `evaluate` can produce. */
  lemma {:induction false} ScoresInRange(b: Board, depth: nat, maxPlayer: bool, moves: seq<bv32>)
    requires depth > 0
    ensures forall i :: 0 <= i < |moves| ==> InRange(Scores(b, depth, maxPlayer, moves)[i])
    decreases |moves|
  {
    if moves != [] {
      var s := Scores(b, depth, maxPlayer, moves);
      var rest := Scores(b, depth, maxPlayer, moves[1..]);
      MinimaxShape(Child(b, maxPlayer, moves[0]), depth - 1, !maxPlayer);
      ScoresInRange(b, depth, maxPlayer, moves[1..]);
      assert s == [Minimax(Child(b, maxPlayer, moves[0]), depth - 1, !maxPlayer).score] + rest;
      forall i | 1 <= i < |s|
        ensures InRange(s[i])
      {
        assert s[i] == rest[i - 1];
      }
    }
  }

  // Alpha-beta against minimax.

  /**
   * The fail-soft contract of alpha-beta with window `(alpha, beta)`: a score
   * inside the window is the minimax score, a score at or below `alpha` is an
   * upper bound on it, and one at or above `beta` a lower bound.
   */
  predicate FailSoft(r: int, v: int, alpha: int, beta: int)
  {
    (r <= alpha ==> v <= r) && (r >= beta ==> v >= r) && (alpha < r < beta ==> v == r)
  }

  /** The rest of a minimax loop never gives back what `evalLimit` has reached. */
  lemma {:induction false} MinimaxLoopKeeps(b: Board, depth: nat, maxPlayer: bool, moves: seq<bv32>, limit: int,
                                            best: Option<bv32>)
    requires depth > 0
    ensures var v := MinimaxLoop(b, depth, maxPlayer, moves, limit, best).score;
            if maxPlayer then v >= limit else v <= limit
    decreases |moves|
  {
    if moves != [] {
      var e := Minimax(Child(b, maxPlayer, moves[0]), depth - 1, !maxPlayer).score;
      var best' := if Improves(maxPlayer, limit, e) then Some(moves[0]) else best;
      MinimaxLoopKeeps(b, depth, maxPlayer, moves[1..], Keep(maxPlayer, limit, e), best');
    }
  }

  /** Alpha-beta within any window inside `[-INF, INF]` is fail-soft with respect to minimax. */
  lemma {:induction false} AlphaBetaFailSoft(b: Board, depth: nat, maxPlayer: bool, alpha: int, beta: int)
    requires -INF <= alpha < beta <= INF
    ensures FailSoft(AlphaBeta(b, depth, maxPlayer, alpha, beta).score, Minimax(b, depth, maxPlayer).score, alpha, beta)
    decreases depth, 1
  {
    if depth > 0 {
      var moves := AllMoves(b, Mover(maxPlayer));
      if moves != [] {
        AlphaBetaLoopShape(b, depth, maxPlayer, moves, Worst(maxPlayer), None, alpha, beta);
        MinimaxLoopShape(b, depth, maxPlayer, moves, Worst(maxPlayer), None);
        if maxPlayer {
          AlphaBetaLoopMax(b, depth, moves, -INF, None, -INF, None, alpha, alpha, beta);
        } else {
          AlphaBetaLoopMin(b, depth, moves, INF, None, INF, None, beta, alpha, beta);
        }
      }
    }
  }

  /**
   * What a max node's `evalLimit` says about minimax's `v` so far, given the
   * `alpha0` of the call: exact above `alpha0`, an upper bound at or below it.
   */
  predicate MaxTrack(limit: int, v: int, alpha0: int)
  {
    (limit <= alpha0 ==> v <= limit) && (limit > alpha0 ==> v == limit)
  }

  /** The mirror image at a min node, given the `beta0` of the call. */
  predicate MinTrack(limit: int, v: int, beta0: int)
  {
    (limit >= beta0 ==> v >= limit) && (limit < beta0 ==> v == limit)
  }

  /** One child at a max node, child scores `r` (alpha-beta) and `w` (minimax). */
  lemma MaxStep(limit: int, v: int, r: int, w: int, alpha0: int, alpha: int, beta: int)
    requires alpha == Keep(true, alpha0, limit) && alpha < beta && MaxTrack(limit, v, alpha0)
    requires FailSoft(r, w, alpha, beta)
    ensures var limit' := Keep(true, limit, r);
            var alpha' := Keep(true, alpha, limit');
            alpha' == Keep(true, alpha0, limit') &&
            (beta > alpha' ==> MaxTrack(limit', Keep(true, v, w), alpha0)) &&
            (beta <= alpha' ==> alpha0 < beta <= limit' <= Keep(true, v, w))
  {
  }

  /** One child at a min node. */
  lemma MinStep(limit: int, v: int, r: int, w: int, beta0: int, alpha: int, beta: int)
    requires beta == Keep(false, beta0, limit) && alpha < beta && MinTrack(limit, v, beta0)
    requires FailSoft(r, w, alpha, beta)
    ensures var limit' := Keep(false, limit, r);
            var beta' := Keep(false, beta, limit');
            beta' == Keep(false, beta0, limit') &&
            (beta' > alpha ==> MinTrack(limit', Keep(false, v, w), beta0)) &&
            (beta' <= alpha ==> Keep(false, v, w) <= limit' <= alpha < beta0)
  {
  }

  /**
   * A max node: alpha-beta's `(evalLimit, alpha)` against minimax's
   * `evalLimit` `v`, where `alpha0` is the `alpha` the node was called with.
   */
  lemma {:induction false} AlphaBetaLoopMax(b: Board, depth: nat, moves: seq<bv32>, limit: int, bestA: Option<bv32>,
                                            v: int, bestM: Option<bv32>, alpha0: int, alpha: int, beta: int)
    requires depth > 0
    requires -INF <= alpha0 && alpha == Keep(true, alpha0, limit) && alpha < beta <= INF
    requires MaxTrack(limit, v, alpha0)
    ensures FailSoft(AlphaBetaLoop(b, depth, true, moves, limit, bestA, alpha, beta).score,
                     MinimaxLoop(b, depth, true, moves, v, bestM).score, alpha0, beta)
    decreases depth, 0, |moves|
  {
    if moves != [] {
      var child := Child(b, true, moves[0]);
      var r := AlphaBeta(child, depth - 1, false, alpha, beta).score;
      var w := Minimax(child, depth - 1, false).score;
      AlphaBetaFailSoft(child, depth - 1, false, alpha, beta);
      MaxStep(limit, v, r, w, alpha0, alpha, beta);
      var limit' := Keep(true, limit, r);
      var bestA' := if Improves(true, limit, r) then Some(moves[0]) else bestA;
      var alpha' := Keep(true, alpha, limit');
      var v' := Keep(true, v, w);
      var bestM' := if Improves(true, v, w) then Some(moves[0]) else bestM;
      if beta <= alpha' {
        MinimaxLoopKeeps(b, depth, true, moves[1..], v', bestM');
      } else {
        AlphaBetaLoopMax(b, depth, moves[1..], limit', bestA', v', bestM', alpha0, alpha', beta);
      }
    }
  }

  /** A min node, the mirror image of `AlphaBetaLoopMax` with `beta0` the `beta` of the call. */
  lemma {:induction false} AlphaBetaLoopMin(b: Board, depth: nat, moves: seq<bv32>, limit: int, bestA: Option<bv32>,
                                            v: int, bestM: Option<bv32>, beta0: int, alpha: int, beta: int)
    requires depth > 0
    requires beta0 <= INF && beta == Keep(false, beta0, limit) && -INF <= alpha < beta
    requires MinTrack(limit, v, beta0)
    ensures FailSoft(AlphaBetaLoop(b, depth, false, moves, limit, bestA, alpha, beta).score,
                     MinimaxLoop(b, depth, false, moves, v, bestM).score, alpha, beta0)
    decreases depth, 0, |moves|
  {
    if moves != [] {
      var child := Child(b, false, moves[0]);
      var r := AlphaBeta(child, depth - 1, true, alpha, beta).score;
      var w := Minimax(child, depth - 1, true).score;
      AlphaBetaFailSoft(child, depth - 1, true, alpha, beta);
      MinStep(limit, v, r, w, beta0, alpha, beta);
      var limit' := Keep(false, limit, r);
      var bestA' := if Improves(false, limit, r) then Some(moves[0]) else bestA;
      var beta' := Keep(false, beta, limit');
      var v' := Keep(false, v, w);
      var bestM' := if Improves(false, v, w) then Some(moves[0]) else bestM;
      if beta' <= alpha {
        MinimaxLoopKeeps(b, depth, false, moves[1..], v', bestM');
      } else {
        AlphaBetaLoopMin(b, depth, moves[1..], limit', bestA', v', bestM', beta0, alpha, beta');
      }
    }
  }

  /**
   * With the full window alpha-beta returns exactly what minimax returns,
   * the chosen move included: `alphabeta(depth, max)` and `minimax(depth,
   * max)` pick the same move.
   */
  lemma {:induction false} AlphaBetaIsMinimax(b: Board, depth: nat, maxPlayer: bool)
    ensures AlphaBeta(b, depth, maxPlayer, -INF, INF) == Minimax(b, depth, maxPlayer)
  {
    if depth > 0 {
      AlphaBetaRootLoop(b, depth, maxPlayer, AllMoves(b, Mover(maxPlayer)), Worst(maxPlayer), None);
    }
  }

  /**
   * One child at the root, with window `(evalLimit, INF)` at a max node and
   * `(-INF, evalLimit)` at a min node: both searches update `evalLimit` and
   * `best_move` alike, and the window stays open.
   */
  lemma RootStep(maxPlayer: bool, limit: int, r: int, w: int)
    requires if maxPlayer then -INF <= limit < INF else -INF < limit <= INF
    requires InRange(r)
    requires FailSoft(r, w, if maxPlayer then limit else -INF, if maxPlayer then INF else limit)
    ensures var limit' := Keep(maxPlayer, limit, r);
            limit' == Keep(maxPlayer, limit, w) &&
            (Improves(maxPlayer, limit, r) <==> Improves(maxPlayer, limit, w)) &&
            (if maxPlayer then -INF <= limit' < INF && Keep(true, limit, limit') == limit'
             else -INF < limit' <= INF && Keep(false, limit, limit') == limit')
  {
  }

  /**
   * The loop at the root: the window is `(evalLimit, INF)` at a max node and
   * `(-INF, evalLimit)` at a min node, so every child's score is either exact
   * or cannot improve `evalLimit`, and the loop never cuts off.
   */
  lemma {:induction false} AlphaBetaRootLoop(b: Board, depth: nat, maxPlayer: bool, moves: seq<bv32>, limit: int,
                                             best: Option<bv32>)
    requires depth > 0
    requires if maxPlayer then -INF <= limit < INF else -INF < limit <= INF
    ensures AlphaBetaLoop(b, depth, maxPlayer, moves, limit, best,
                          if maxPlayer then limit else -INF, if maxPlayer then INF else limit)
         == MinimaxLoop(b, depth, maxPlayer, moves, limit, best)
    decreases |moves|
  {
    if moves != [] {
      var alpha := if maxPlayer then limit else -INF;
      var beta := if maxPlayer then INF else limit;
      var child := Child(b, maxPlayer, moves[0]);
      var r := AlphaBeta(child, depth - 1, !maxPlayer, alpha, beta).score;
      var w := Minimax(child, depth - 1, !maxPlayer).score;
      AlphaBetaFailSoft(child, depth - 1, !maxPlayer, alpha, beta);
      AlphaBetaInRange(child, depth - 1, !maxPlayer, alpha, beta);
      RootStep(maxPlayer, limit, r, w);
      var limit' := Keep(maxPlayer, limit, r);
      var best' := if Improves(maxPlayer, limit, r) then Some(moves[0]) else best;
      AlphaBetaRootLoop(b, depth, maxPlayer, moves[1..], limit', best');
    }
  }

  // One step of each loop, as the search methods take it.

  lemma MinimaxLoopStep(b: Board, depth: nat, maxPlayer: bool, moves: seq<bv32>, i: nat, limit: int,
                        best: Option<bv32>)
    requires depth > 0 && i < |moves|
    ensures var e := Minimax(Child(b, maxPlayer, moves[i]), depth - 1, !maxPlayer).score;
            MinimaxLoop(b, depth, maxPlayer, moves[i..], limit, best)
            == MinimaxLoop(b, depth, maxPlayer, moves[i + 1..], Keep(maxPlayer, limit, e),
                           if Improves(maxPlayer, limit, e) then Some(moves[i]) else best)
  {
    assert moves[i..][0] == moves[i] && moves[i..][1..] == moves[i + 1..];
  }

  lemma AlphaBetaLoopStep(b: Board, depth: nat, maxPlayer: bool, moves: seq<bv32>, i: nat, limit: int,
                          best: Option<bv32>, alpha: int, beta: int)
    requires depth > 0 && i < |moves|
    ensures var e := AlphaBeta(Child(b, maxPlayer, moves[i]), depth - 1, !maxPlayer, alpha, beta).score;
            var limit' := Keep(maxPlayer, limit, e);
            var best' := if Improves(maxPlayer, limit, e) then Some(moves[i]) else best;
            var alpha' := if maxPlayer then Keep(true, alpha, limit') else alpha;
            var beta' := if maxPlayer then beta else Keep(false, beta, limit');
            AlphaBetaLoop(b, depth, maxPlayer, moves[i..], limit, best, alpha, beta)
            == if beta' <= alpha' then ScoreMovePair(best', limit')
               else AlphaBetaLoop(b, depth, maxPlayer, moves[i + 1..], limit', best', alpha', beta')
  {
    assert moves[i..][0] == moves[i] && moves[i..][1..] == moves[i + 1..];
  }
}
