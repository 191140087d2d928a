/**
 * What the move generator does not miss: a key written into the map of one
 * piece's moves is never lost again, every quiet step onto an empty
 * neighbour is recorded, and every landing square of a capture chain the
 * jump test lets through is recorded under `origin | landing`.
 */
module Completeness {
  import opened Layout
  import opened Geometry
  import opened Transition
  import opened Generator

  /** The keys of a move map. */
  function Keys(m: MoveMap): set<bv32>
  {
    set e | e in m :: e.key
  }

  lemma KeysCons(m: MoveMap)
    requires m != []
    ensures Keys(m) == {m[0].key} + Keys(m[1..])
  {
    assert m == [m[0]] + m[1..];
    forall e | e in m
      ensures e.key in {m[0].key} + Keys(m[1..])
    {
      if e != m[0] {
        assert e in m[1..];
      }
    }
  }

  /** Overwriting one entry by one with the same key keeps the key set. */
  lemma KeysUpdate(m: MoveMap, i: int, e: Entry)
    requires 0 <= i < |m| && m[i].key == e.key
    ensures Keys(m[i := e]) == Keys(m)
  {
    var r := m[i := e];
    forall d | d in m
      ensures d.key in Keys(r)
    {
      var j :| 0 <= j < |m| && m[j] == d;
      if j == i {
        assert r[i] in r;
      } else {
        assert r[j] == d;
      }
    }
    forall d | d in r
      ensures d.key in Keys(m)
    {
      var j :| 0 <= j < |r| && r[j] == d;
      if j == i {
        assert m[i] in m;
      } else {
        assert m[j] == d;
      }
    }
  }

  lemma KeysAppend(m: MoveMap, e: Entry)
    ensures Keys(m + [e]) == Keys(m) + {e.key}
  {
    forall d | d in m + [e]
      ensures d.key in Keys(m) + {e.key}
    {
      if d != e {
        assert d in m;
      }
    }
  }

  /** `m[k] = v` adds `k` to the keys and removes none. */
  lemma PutKeys(m: MoveMap, k: bv32, v: bv32)
    ensures Keys(Put(m, k, v)) == Keys(m) + {k}
  {
    var i := IndexOf(m, k);
    if i < 0 {
      KeysAppend(m, Entry(k, v));
    } else {
      KeysUpdate(m, i, Entry(k, v));
      assert m[i] in m;
    }
  }

  /** One step of the merge loop adds the entry's key and removes none, whichever entry wins. */
  lemma MergeEntryKeys(acc: MoveMap, e: Entry)
    ensures Keys(MergeEntry(acc, e)) == Keys(acc) + {e.key}
  {
    var i := IndexOf(acc, e.key);
    if i < 0 {
      KeysAppend(acc, e);
    } else {
      KeysUpdate(acc, i, e);
      assert acc[i] in acc;
    }
  }

  /** The merge loop leaves exactly the keys of both maps. */
  lemma {:induction false} MergeKeys(acc: MoveMap, sub: MoveMap)
    ensures Keys(Merge(acc, sub)) == Keys(acc) + Keys(sub)
    decreases |sub|
  {
    if sub != [] {
      MergeEntryKeys(acc, sub[0]);
      MergeKeys(MergeEntry(acc, sub[0]), sub[1..]);
      KeysCons(sub);
    }
  }

  /**
   * The keys one pass of the do-while body records, for the neighbour
   * `step` and the square `landing` beyond it: `pos | step` for a quiet
   * step onto an empty neighbour before any capture, every key of the
   * continuation for a jump the jump test accepts, and nothing otherwise.
   */
  function DirKeys(b: Board, pos: bv32, origin: bv32, captures: bv32, step: bv32, landing: bv32): set<bv32>
  {
    if step == 0 then {}
    else if captures == 0 && !Has(b.Occupied(), step) then {pos | step}
    else if JumpOk(b.Occupied(), b.Side(!Has(b.o, pos)), origin, captures, step, landing) then
      Keys(PieceMoves(Apply(b, pos | landing | step, Has(b.o, pos), false), landing, origin, captures | step))
    else {}
  }

  /** The keys a pass of the do-while body records for direction `(left, forward)`. */
  function DirectionKeys(b: Board, pos: bv32, origin: bv32, captures: bv32, left: bool, forward: bool): set<bv32>
  {
    var step := Move(pos, left, forward, Has(b.o, pos));
    DirKeys(b, pos, origin, captures, step, Move(step, left, forward, Has(b.o, pos)))
  }

  /** One pass of the do-while body keeps the keys it had and adds those of its direction. */
  lemma TryDirKeys(b: Board, pos: bv32, origin: bv32, captures: bv32, acc: MoveMap, step: bv32, landing: bv32)
    ensures Keys(TryDir(b, pos, origin, captures, acc, step, landing)) ==
            Keys(acc) + DirKeys(b, pos, origin, captures, step, landing)
  {
    var occupied, oTurn := b.Occupied(), Has(b.o, pos);
    var opponent := b.Side(!oTurn);
    if step == 0 {
      TryDirStays(b, occupied, opponent, pos, origin, captures, oTurn, acc, step, landing);
    } else if captures == 0 && !Has(occupied, step) {
      TryDirQuiet(b, occupied, opponent, pos, origin, captures, oTurn, acc, step, landing);
      PutKeys(acc, pos | step, 0);
    } else if JumpOk(occupied, opponent, origin, captures, step, landing) {
      TryDirJump(b, occupied, opponent, pos, origin, captures, oTurn, acc, step, landing);
      MergeKeys(acc, PieceMoves(Apply(b, pos | landing | step, oTurn, false), landing, origin, captures | step));
    } else {
      TryDirStays(b, occupied, opponent, pos, origin, captures, oTurn, acc, step, landing);
    }
  }

  /** The do-while loop from `(left, forward)` on keeps every key it starts with. */
  lemma {:induction false} ScanDirsKeeps(b: Board, pos: bv32, origin: bv32, captures: bv32, acc: MoveMap,
                                         left: bool, forward: bool)
    requires Has(b.kings, pos) || forward
    ensures Keys(acc) <= Keys(ScanDirs(b, pos, origin, captures, acc, left, forward))
    decreases DirsAfter(left, forward)
  {
    var oTurn, king := Has(b.o, pos), Has(b.kings, pos);
    var step := Move(pos, left, forward, oTurn);
    var moves := TryDir(b, pos, origin, captures, acc, step, Move(step, left, forward, oTurn));
    TryDirKeys(b, pos, origin, captures, acc, step, Move(step, left, forward, oTurn));
    var left' := !left;
    var forward' := if left' && king then !forward else forward;
    if !left' || !forward' {
      ScanDirsNext(b, pos, origin, captures, acc, left, forward, oTurn, king, moves, left', forward');
      ScanDirsKeeps(b, pos, origin, captures, moves, left', forward');
    } else {
      ScanDirsLast(b, pos, origin, captures, acc, left, forward, oTurn, king, moves);
    }
  }

  /**
   * The do-while loop from `(left, forward)` on records the keys of every
   * direction it still visits: for a man the forward ones, for a king all
   * four.
   */
  lemma {:induction false} ScanDirsVisits(b: Board, pos: bv32, origin: bv32, captures: bv32, acc: MoveMap,
                                          left: bool, forward: bool, l: bool, f: bool)
    requires Has(b.kings, pos) || forward
    requires Has(b.kings, pos) || f
    requires DirsAfter(l, f) <= DirsAfter(left, forward)
    ensures DirectionKeys(b, pos, origin, captures, l, f) <= Keys(ScanDirs(b, pos, origin, captures, acc, left, forward))
    decreases DirsAfter(left, forward)
  {
    var oTurn, king := Has(b.o, pos), Has(b.kings, pos);
    var step := Move(pos, left, forward, oTurn);
    var moves := TryDir(b, pos, origin, captures, acc, step, Move(step, left, forward, oTurn));
    TryDirKeys(b, pos, origin, captures, acc, step, Move(step, left, forward, oTurn));
    var left' := !left;
    var forward' := if left' && king then !forward else forward;
    if !left' || !forward' {
      ScanDirsNext(b, pos, origin, captures, acc, left, forward, oTurn, king, moves, left', forward');
      if l == left && f == forward {
        ScanDirsKeeps(b, pos, origin, captures, moves, left', forward');
      } else {
        ScanDirsVisits(b, pos, origin, captures, moves, left', forward', l, f);
      }
    } else {
      ScanDirsLast(b, pos, origin, captures, acc, left, forward, oTurn, king, moves);
    }
  }

  /**
   * `get_piece_moves(board, pos, origin, captures)` records the move that
   * reached `pos` when it was a capture, and the keys of every direction
   * the piece may move in: forward for a man, all four for a king.
   */
  lemma PieceMovesComplete(b: Board, pos: bv32, origin: bv32, captures: bv32, left: bool, forward: bool)
    requires Has(b.kings, pos) || forward
    ensures captures != 0 ==> pos | origin in Keys(PieceMoves(b, pos, origin, captures))
    ensures DirectionKeys(b, pos, origin, captures, left, forward) <= Keys(PieceMoves(b, pos, origin, captures))
  {
    var start := Start(pos, origin, captures);
    PieceMovesIs(b, pos, origin, captures);
    if captures != 0 {
      PutKeys([], pos | origin, captures);
    }
    ScanDirsKeeps(b, pos, origin, captures, start, true, true);
    ScanDirsVisits(b, pos, origin, captures, start, true, true, left, forward);
  }

  /**
   * Every quiet step of a piece that has not captured yet, onto an empty
   * on-board neighbour in a direction it may move in, is recorded under
   * `pos | neighbour`.
   */
  lemma QuietMoveFound(b: Board, pos: bv32, left: bool, forward: bool)
    requires Has(b.kings, pos) || forward
    requires Move(pos, left, forward, Has(b.o, pos)) != 0
    requires !Has(b.Occupied(), Move(pos, left, forward, Has(b.o, pos)))
    ensures pos | Move(pos, left, forward, Has(b.o, pos)) in Keys(PieceMovesAt(b, pos))
  {
    PieceMovesComplete(b, pos, pos, 0, left, forward);
  }

  /** The jump test only lets through a jump over an occupied square, so a jump is never taken for a quiet step. */
  lemma JumpNotQuiet(x: bv32, o: bv32, opponent: bv32, origin: bv32, captures: bv32, step: bv32, landing: bv32)
    requires opponent == x || opponent == o
    requires JumpOk(Union(x, o), opponent, origin, captures, step, landing)
    ensures Has(Union(x, o), step)
  {
    assert Union(x, o) & step == (x & step) | (o & step);
  }

  /** One direction of the do-while loop: `left`, then `forward`. */
  datatype Dir = Dir(left: bool, forward: bool)

  /** The neighbour of `pos` in direction `d`, the square a jump passes over. */
  function Over(b: Board, pos: bv32, d: Dir): bv32
  {
    Move(pos, d.left, d.forward, Has(b.o, pos))
  }

  /** The square beyond that neighbour, where a jump lands. */
  function Beyond(b: Board, pos: bv32, d: Dir): bv32
  {
    Move(Over(b, pos, d), d.left, d.forward, Has(b.o, pos))
  }

  /** The board after the jump from `pos` in direction `d`, without promotion, as the recursion simulates it. */
  function After(b: Board, pos: bv32, d: Dir): Board
  {
    Apply(b, pos | Beyond(b, pos, d) | Over(b, pos, d), Has(b.o, pos), false)
  }

  /**
   * The piece on `pos`, having left `origin` and captured `captures`, may
   * jump in direction `d`: the direction is one it moves in, and the jump
   * test accepts the neighbour and the square beyond it.
   */
  predicate Jumps(b: Board, pos: bv32, origin: bv32, captures: bv32, d: Dir)
  {
    (Has(b.kings, pos) || d.forward) && Over(b, pos, d) != 0 &&
    JumpOk(b.Occupied(), b.Side(!Has(b.o, pos)), origin, captures, Over(b, pos, d), Beyond(b, pos, d))
  }

  /** The keys a pass records for an accepted jump are those of the continuation. */
  lemma DirKeysJump(b: Board, pos: bv32, origin: bv32, captures: bv32, step: bv32, landing: bv32)
    requires step != 0 && JumpOk(b.Occupied(), b.Side(!Has(b.o, pos)), origin, captures, step, landing)
    ensures DirKeys(b, pos, origin, captures, step, landing) ==
            Keys(PieceMoves(Apply(b, pos | landing | step, Has(b.o, pos), false), landing, origin, captures | step))
  {
    JumpNotQuiet(b.x, b.o, b.Side(!Has(b.o, pos)), origin, captures, step, landing);
  }

  /** The keys a direction records for an accepted jump are those of the continuation. */
  lemma JumpDirectionKeys(b: Board, pos: bv32, origin: bv32, captures: bv32, d: Dir)
    requires Jumps(b, pos, origin, captures, d)
    ensures DirectionKeys(b, pos, origin, captures, d.left, d.forward) ==
            Keys(PieceMoves(After(b, pos, d), Beyond(b, pos, d), origin, captures | Over(b, pos, d)))
  {
    DirKeysJump(b, pos, origin, captures, Over(b, pos, d), Beyond(b, pos, d));
  }

  /**
   * An accepted jump is followed: every key recorded from the landing
   * square, on the board after the jump, is a key of the moves from `pos`.
   */
  lemma JumpKeysKept(b: Board, pos: bv32, origin: bv32, captures: bv32, d: Dir)
    requires Jumps(b, pos, origin, captures, d)
    ensures Keys(PieceMoves(After(b, pos, d), Beyond(b, pos, d), origin, captures | Over(b, pos, d))) <=
            Keys(PieceMoves(b, pos, origin, captures))
  {
    JumpDirectionKeys(b, pos, origin, captures, d);
    PieceMovesComplete(b, pos, origin, captures, d.left, d.forward);
  }

  /** Adding a square to a nonempty set of captures keeps it nonempty. */
  lemma CapturesNonzero(captures: bv32, step: bv32)
    requires step != 0
    ensures captures | step != 0
  {
    assert (captures | step) & step == step;
  }

  /** Every jump the jump test accepts leaves its landing square recorded under `origin | landing`. */
  lemma JumpFound(b: Board, pos: bv32, origin: bv32, captures: bv32, d: Dir, landing: bv32)
    requires Jumps(b, pos, origin, captures, d) && landing == Beyond(b, pos, d)
    ensures landing | origin in Keys(PieceMoves(b, pos, origin, captures))
  {
    CapturesNonzero(captures, Over(b, pos, d));
    PieceMovesComplete(After(b, pos, d), landing, origin, captures | Over(b, pos, d), true, true);
    JumpKeysKept(b, pos, origin, captures, d);
  }

  /**
   * Where the capture chain that takes the jumps `dirs` in turn from `pos`
   * ends, the piece having left `origin` and captured `captures` so far;
   * `None` when the jump test turns one of the jumps down.
   */
  function ChainEnd(b: Board, pos: bv32, origin: bv32, captures: bv32, dirs: seq<Dir>): Option<bv32>
    decreases |dirs|
  {
    if dirs == [] then Some(pos)
    else if Jumps(b, pos, origin, captures, dirs[0]) then
      ChainEnd(After(b, pos, dirs[0]), Beyond(b, pos, dirs[0]), origin, captures | Over(b, pos, dirs[0]), dirs[1..])
    else None
  }

  /**
   * Every capture chain of at least one jump that the jump test lets
   * through ends on a landing square recorded under `origin | landing`.
   */
  lemma {:induction false} ChainFound(b: Board, pos: bv32, origin: bv32, captures: bv32, dirs: seq<Dir>, landing: bv32)
    requires dirs != [] && ChainEnd(b, pos, origin, captures, dirs) == Some(landing)
    ensures landing | origin in Keys(PieceMoves(b, pos, origin, captures))
    decreases |dirs|, 1
  {
    if |dirs| == 1 {
      ChainOne(b, pos, origin, captures, dirs, landing);
    } else {
      ChainThrough(b, pos, origin, captures, dirs, landing);
    }
  }

  /** A chain of one jump lands where that jump does. */
  lemma ChainOne(b: Board, pos: bv32, origin: bv32, captures: bv32, dirs: seq<Dir>, landing: bv32)
    requires |dirs| == 1 && ChainEnd(b, pos, origin, captures, dirs) == Some(landing)
    ensures landing | origin in Keys(PieceMoves(b, pos, origin, captures))
  {
    ChainFirst(b, pos, origin, captures, dirs, landing);
    JumpFound(b, pos, origin, captures, dirs[0], landing);
  }

  /** A chain of two jumps or more: its first jump is followed, and the rest is recorded from where it lands. */
  lemma {:induction false} ChainThrough(b: Board, pos: bv32, origin: bv32, captures: bv32, dirs: seq<Dir>, landing: bv32)
    requires |dirs| > 1 && ChainEnd(b, pos, origin, captures, dirs) == Some(landing)
    ensures landing | origin in Keys(PieceMoves(b, pos, origin, captures))
    decreases |dirs|, 0
  {
    var d := dirs[0];
    ChainFirst(b, pos, origin, captures, dirs, landing);
    ChainFound(After(b, pos, d), Beyond(b, pos, d), origin, captures | Over(b, pos, d), dirs[1..], landing);
    JumpKeysKept(b, pos, origin, captures, d);
  }

  /** The first jump of a chain is accepted, and the rest of the chain goes on from where it lands. */
  lemma ChainFirst(b: Board, pos: bv32, origin: bv32, captures: bv32, dirs: seq<Dir>, landing: bv32)
    requires dirs != [] && ChainEnd(b, pos, origin, captures, dirs) == Some(landing)
    ensures Jumps(b, pos, origin, captures, dirs[0])
    ensures ChainEnd(After(b, pos, dirs[0]), Beyond(b, pos, dirs[0]), origin, captures | Over(b, pos, dirs[0]), dirs[1..]) == Some(landing)
    ensures |dirs| == 1 ==> landing == Beyond(b, pos, dirs[0])
  {
  }

  /** Every capture chain of a piece from its own square is one of its moves, keyed `pos | landing`. */
  lemma ChainFoundAt(b: Board, pos: bv32, dirs: seq<Dir>, landing: bv32)
    requires dirs != [] && ChainEnd(b, pos, pos, 0, dirs) == Some(landing)
    ensures landing | pos in Keys(PieceMovesAt(b, pos))
  {
    ChainFound(b, pos, pos, 0, dirs, landing);
  }
}
