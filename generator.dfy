/**
 * The move generator (`PlayerAI::get_piece_moves`, both forms, and
 * `PlayerAI::get_all_moves`).
 *
 * The moves of one piece form a map from `origin | landing` to the squares
 * captured on the way there (0 for a quiet step). A capture chain may stop
 * at any landing square, captures are optional, and when two chains reach
 * the same landing square the one that captures more pieces is kept.
 */
module Generator {
  import opened Layout
  import opened Geometry
  import opened Material
  import opened Transition

  /** One move of a piece: key `origin | landing`, and the squares captured on the way. */
  datatype Entry = Entry(key: bv32, captured: bv32)

  /**
   * The `unordered_map` of one piece's moves, as its entries in insertion
   * order; no key occurs twice.
   */
  type MoveMap = seq<Entry>

  /** The position of key `k` in `m`, or -1 when `m` has no such key (`find`). */
  function IndexOf(m: MoveMap, k: bv32): (i: int)
    ensures -1 <= i < |m|
    ensures i >= 0 ==> m[i].key == k
    ensures i < 0 ==> forall j | 0 <= j < |m| :: m[j].key != k
  {
    if m == [] then -1
    else if m[0].key == k then 0
    else
      var j := IndexOf(m[1..], k);
      if j < 0 then -1 else j + 1
  }

  /** No key occurs twice. */
  predicate Distinct(m: MoveMap)
  {
    forall i, j | 0 <= i < j < |m| :: m[i].key != m[j].key
  }

  /** `m[k] = v`: overwrite the value of key `k`, or append a new entry. */
  function Put(m: MoveMap, k: bv32, v: bv32): MoveMap
  {
    var i := IndexOf(m, k);
    if i < 0 then m + [Entry(k, v)] else m[i := Entry(k, v)]
  }

  /**
   * How many directions the do-while loop has still to visit after
   * `(left, forward)`: it visits forward-left, forward-right and, for a
   * king only, backward-left and backward-right.
   */
  function DirsAfter(left: bool, forward: bool): nat
  {
    (if forward then 2 else 0) + (if left then 1 else 0)
  }

  /** Adding one fresh captured square leaves fewer uncaptured squares. */
  lemma CapturesGrow(captures: bv32, step: bv32)
    requires step != 0 && captures & step == 0
    ensures PopCount(!(captures | step)) < PopCount(!captures)
  {
    assert !(captures | step) & !!captures == 0;
    assert !(captures | step) != !captures by {
      assert step & !captures == step;
      assert step & !(captures | step) == 0;
    }
    PopCountProperSubset(!(captures | step), !captures);
  }

  /**
   * One step of the merge loop: a new key is inserted, and an existing key
   * takes the new value only when it holds strictly more captured squares.
   */
  function MergeEntry(acc: MoveMap, e: Entry): MoveMap
  {
    var i := IndexOf(acc, e.key);
    if i < 0 then acc + [e]
    else if PopCount(acc[i].captured) < PopCount(e.captured) then acc[i := e]
    else acc
  }

  /** The entries of `sub` merged into `acc` in their order. */
  function Merge(acc: MoveMap, sub: MoveMap): MoveMap
    decreases |sub|
  {
    if sub == [] then acc else Merge(MergeEntry(acc, sub[0]), sub[1..])
  }

  /** The map a call starts from: the move that reached `pos`, when it was a capture. */
  function Start(pos: bv32, origin: bv32, captures: bv32): MoveMap
  {
    if captures != 0 then Put([], pos | origin, captures) else []
  }

  /**
   * The moves of the piece on `pos` that started its turn on `origin` and
   * has captured `captures` so far (`get_piece_moves(board, pos, origin,
   * captures)`).
   */
  function PieceMoves(b: Board, pos: bv32, origin: bv32, captures: bv32): MoveMap
    decreases PopCount(!captures), 2, 0
  {
    ScanDirs(b, pos, origin, captures, Start(pos, origin, captures), true, true)
  }

  /**
   * The do-while loop over the directions from `(left, forward)` on:
   * `TryDir` for that direction, then `left` flips and, for a king, so
   * does `forward` each time `left` comes back to true; the loop stops
   * once both are true again.
   */
  function ScanDirs(b: Board, pos: bv32, origin: bv32, captures: bv32, acc: MoveMap, left: bool, forward: bool): MoveMap
    requires Has(b.kings, pos) || forward
    decreases PopCount(!captures), 1, DirsAfter(left, forward)
  {
    var step := Move(pos, left, forward, Has(b.o, pos));
    var moves := TryDir(b, pos, origin, captures, acc, step, Move(step, left, forward, Has(b.o, pos)));
    var left' := !left;
    var forward' := if left' && Has(b.kings, pos) then !forward else forward;
    if !left' || !forward' then ScanDirs(b, pos, origin, captures, moves, left', forward')
    else moves
  }

  /**
   * One pass of the do-while body, for the neighbour `step` of `pos` in one
   * direction and the square `landing` beyond it (0 when off the board): a
   * quiet step onto an empty neighbour when nothing has been captured yet;
   * otherwise a jump over an opponent piece not captured before, onto an
   * on-board square that is empty or the origin, followed by every
   * continuation of the chain from there.
   */
  function TryDir(b: Board, pos: bv32, origin: bv32, captures: bv32, acc: MoveMap, step: bv32, landing: bv32): MoveMap
    decreases PopCount(!captures), 0, 0
  {
    if step == 0 then acc
    else if captures == 0 && !Has(b.Occupied(), step) then Put(acc, pos | step, 0)
    else if JumpOk(b.Occupied(), b.Side(!Has(b.o, pos)), origin, captures, step, landing) then
      CapturesGrow(captures, step);
      Merge(acc, PieceMoves(Apply(b, pos | landing | step, Has(b.o, pos), false), landing, origin, captures | step))
    else acc
  }

  /** The jump test: on-board landing, a fresh opponent piece jumped, landing empty or the origin. */
  predicate JumpOk(occupied: bv32, opponent: bv32, origin: bv32, captures: bv32, step: bv32, landing: bv32)
  {
    landing != 0 && !Has(captures, step) && Has(opponent, step) &&
    (Has(origin, landing) || !Has(occupied, landing))
  }

  /** The merge loop of `get_piece_moves`: each entry of `sub` in turn, looked up with `find`. */
  method MergeInto(moves: MoveMap, sub: MoveMap) returns (r: MoveMap)
    ensures r == Merge(moves, sub)
  {
    r := moves;
    var i := 0;
    while i < |sub|
      invariant 0 <= i <= |sub|
      invariant Merge(r, sub[i..]) == Merge(moves, sub)
    {
      var e := sub[i];
      assert sub[i..][1..] == sub[i + 1..];
      var prev := IndexOf(r, e.key);
      if prev < 0 {
        r := r + [e];
      } else {
        var before := Bitsize(r[prev].captured);
        var after := Bitsize(e.captured);
        if before < after {
          r := r[prev := Entry(r[prev].key, e.captured)];
        }
      }
      i := i + 1;
    }
  }

  /**
   * `get_piece_moves(board, pos, origin, captures)`: the do-while loop over
   * the directions, recursing into every capture chain on a copy of the
   * board with the jump applied.
   */
  method GetPieceMoves(board: array<bv32>, pos: bv32, origin: bv32, captures: bv32) returns (moves: MoveMap)
    requires board.Length == 3
    ensures moves == PieceMoves(FromSlots(board[..]), pos, origin, captures)
    decreases PopCount(!captures), 3
  {
    var xBoard, oBoard := board[0], board[1];
    var oTurn := Has(oBoard, pos);
    var opponent := if oTurn then xBoard else oBoard;
    var occupied := Union(xBoard, oBoard);
    SlotWords(board[..], pos, occupied, opponent, oTurn);
    moves := ScanDirections(board, occupied, opponent, pos, origin, captures, oTurn);
  }

  /** The do-while loop of `get_piece_moves` over the four directions, on the words read out of the board. */
  method ScanDirections(board: array<bv32>, occupied: bv32, opponent: bv32, pos: bv32, origin: bv32,
                        captures: bv32, oTurn: bool)
    returns (moves: MoveMap)
    requires board.Length == 3
    requires var b := FromSlots(board[..]);
             occupied == b.Occupied() && oTurn == Has(b.o, pos) && opponent == b.Side(!oTurn)
    ensures moves == PieceMoves(FromSlots(board[..]), pos, origin, captures)
    decreases PopCount(!captures), 2
  {
    ghost var b := FromSlots(board[..]);
    var kings := board[2];
    moves := Start(pos, origin, captures);
    PieceMovesIs(b, pos, origin, captures);
    ghost var start := moves;
    var forward, left := true, true;
    var more := true;
    while more
      invariant more ==> Has(kings, pos) || forward
      invariant more ==> ScanDirs(b, pos, origin, captures, moves, left, forward) ==
                         ScanDirs(b, pos, origin, captures, start, true, true)
      invariant !more ==> moves == ScanDirs(b, pos, origin, captures, start, true, true)
      decreases more, DirsAfter(left, forward)
    {
      ghost var acc, left0, forward0 := moves, left, forward;
      moves := TryDirection(board, b, occupied, opponent, pos, origin, captures, oTurn, moves, left, forward);
      left := !left;
      if left && Has(kings, pos) {
        forward := !forward;
      }
      more := !left || !forward;
      if more {
        ScanDirsNext(b, pos, origin, captures, acc, left0, forward0, oTurn, Has(kings, pos), moves, left, forward);
      } else {
        ScanDirsLast(b, pos, origin, captures, acc, left0, forward0, oTurn, Has(kings, pos), moves);
      }
    }
  }

  lemma {:induction false} PieceMovesIs(b: Board, pos: bv32, origin: bv32, captures: bv32)
    ensures PieceMoves(b, pos, origin, captures) == ScanDirs(b, pos, origin, captures, Start(pos, origin, captures), true, true)
  {
  }

  /** The words `get_piece_moves` reads out of the board, in terms of the board. */
  lemma {:induction false} SlotWords(s: seq<bv32>, pos: bv32, occupied: bv32, opponent: bv32, oTurn: bool)
    requires |s| == 3 && occupied == Union(s[0], s[1]) && oTurn == Has(s[1], pos)
    requires opponent == (if oTurn then s[0] else s[1])
    ensures var b := FromSlots(s); occupied == b.Occupied() && oTurn == Has(b.o, pos) && opponent == b.Side(!oTurn)
  {
  }

  // One pass of the do-while loop, as `ScanDirs` unfolds it.

  lemma ScanDirsNext(b: Board, pos: bv32, origin: bv32, captures: bv32, acc: MoveMap, left: bool, forward: bool,
                     oTurn: bool, king: bool, moves: MoveMap, left': bool, forward': bool)
    requires oTurn == Has(b.o, pos) && king == (Has(b.kings, pos)) && (king || forward)
    requires moves == TryDir(b, pos, origin, captures, acc, Move(pos, left, forward, oTurn),
                             Move(Move(pos, left, forward, oTurn), left, forward, oTurn))
    requires left' == !left && forward' == (if left' && king then !forward else forward)
    requires !left' || !forward'
    ensures king || forward'
    ensures ScanDirs(b, pos, origin, captures, acc, left, forward) == ScanDirs(b, pos, origin, captures, moves, left', forward')
  {
  }

  lemma ScanDirsLast(b: Board, pos: bv32, origin: bv32, captures: bv32, acc: MoveMap, left: bool, forward: bool,
                     oTurn: bool, king: bool, moves: MoveMap)
    requires oTurn == Has(b.o, pos) && king == (Has(b.kings, pos)) && (king || forward)
    requires moves == TryDir(b, pos, origin, captures, acc, Move(pos, left, forward, oTurn),
                             Move(Move(pos, left, forward, oTurn), left, forward, oTurn))
    requires !left && (if king then !forward else forward)
    ensures ScanDirs(b, pos, origin, captures, acc, left, forward) == moves
  {
  }

  // `TryDir` branch by branch.

  lemma TryDirStays(b: Board, occupied: bv32, opponent: bv32, pos: bv32, origin: bv32, captures: bv32,
                    oTurn: bool, acc: MoveMap, step: bv32, landing: bv32)
    requires occupied == b.Occupied() && oTurn == Has(b.o, pos) && opponent == b.Side(!oTurn)
    requires step == 0 || (!(captures == 0 && !Has(occupied, step)) &&
                           !JumpOk(occupied, opponent, origin, captures, step, landing))
    ensures TryDir(b, pos, origin, captures, acc, step, landing) == acc
  {
  }

  lemma TryDirQuiet(b: Board, occupied: bv32, opponent: bv32, pos: bv32, origin: bv32, captures: bv32,
                    oTurn: bool, acc: MoveMap, step: bv32, landing: bv32)
    requires occupied == b.Occupied() && oTurn == Has(b.o, pos) && opponent == b.Side(!oTurn)
    requires step != 0 && captures == 0 && !Has(occupied, step)
    ensures TryDir(b, pos, origin, captures, acc, step, landing) ==
            Put(acc, pos | step, 0)
  {
  }

  lemma TryDirJump(b: Board, occupied: bv32, opponent: bv32, pos: bv32, origin: bv32, captures: bv32,
                   oTurn: bool, acc: MoveMap, step: bv32, landing: bv32)
    requires occupied == b.Occupied() && oTurn == Has(b.o, pos) && opponent == b.Side(!oTurn)
    requires step != 0 && !(captures == 0 && !Has(occupied, step))
    requires JumpOk(occupied, opponent, origin, captures, step, landing)
    ensures captures & step == 0
    ensures TryDir(b, pos, origin, captures, acc, step, landing) ==
            Merge(acc, PieceMoves(Apply(b, pos | landing | step, oTurn, false), landing, origin, captures | step))
  {
  }

  /** The body of the do-while loop of `get_piece_moves` for one direction. */
  method TryDirection(board: array<bv32>, ghost b: Board, occupied: bv32, opponent: bv32, pos: bv32, origin: bv32,
                      captures: bv32, oTurn: bool, moves: MoveMap, left: bool, forward: bool)
    returns (r: MoveMap)
    requires board.Length == 3 && board[0] == b.x && board[1] == b.o && board[2] == b.kings
    requires occupied == b.Occupied() && oTurn == Has(b.o, pos) && opponent == b.Side(!oTurn)
    ensures var step := Move(pos, left, forward, oTurn);
            r == TryDir(b, pos, origin, captures, moves, step, Move(step, left, forward, oTurn))
    decreases PopCount(!captures), 1
  {
    var newPos := Move(pos, left, forward, oTurn);
    ghost var beyond := Move(newPos, left, forward, oTurn);
    if newPos != 0 {
      if captures == 0 && !Has(occupied, newPos) {
        TryDirQuiet(b, occupied, opponent, pos, origin, captures, oTurn, moves, newPos, beyond);
        r := Put(moves, pos | newPos, 0);
      } else {
        var capturePos := newPos;
        var landing := Move(capturePos, left, forward, oTurn);
        if JumpOk(occupied, opponent, origin, captures, capturePos, landing) {
          TryDirJump(b, occupied, opponent, pos, origin, captures, oTurn, moves, capturePos, landing);
          r := FollowJump(board, b, pos, origin, captures, oTurn, moves, capturePos, landing);
        } else {
          TryDirStays(b, occupied, opponent, pos, origin, captures, oTurn, moves, capturePos, landing);
          r := moves;
        }
      }
    } else {
      TryDirStays(b, occupied, opponent, pos, origin, captures, oTurn, moves, newPos, beyond);
      r := moves;
    }
  }

  /** A jump from `pos` over `capturePos` onto `landing`, then the rest of the chain from there. */
  method FollowJump(board: array<bv32>, ghost b: Board, pos: bv32, origin: bv32, captures: bv32, oTurn: bool,
                    moves: MoveMap, capturePos: bv32, landing: bv32)
    returns (r: MoveMap)
    requires board.Length == 3 && board[0] == b.x && board[1] == b.o && board[2] == b.kings && capturePos != 0 && captures & capturePos == 0
    ensures r == Merge(moves, PieceMoves(Apply(b, pos | landing | capturePos, oTurn, false),
                                         landing, origin, captures | capturePos))
    decreases PopCount(!captures), 0
  {
    var newBoard := new bv32[3];
    SimulateMove(board, newBoard, pos | landing | capturePos, oTurn, false);
    CapturesGrow(captures, capturePos);
    var sub := GetPieceMoves(newBoard, landing, origin, captures | capturePos);
    r := MergeInto(moves, sub);
  }

  /** `get_piece_moves(board, pos)`: the moves of the piece on `pos`, starting from it with nothing captured. */
  function PieceMovesAt(b: Board, pos: bv32): MoveMap
  {
    PieceMoves(b, pos, pos, 0)
  }

  method GetPieceMovesAt(board: array<bv32>, pos: bv32) returns (moves: MoveMap)
    requires board.Length == 3
    ensures moves == PieceMovesAt(FromSlots(board[..]), pos)
  {
    moves := GetPieceMoves(board, pos, pos, 0);
  }

  /** The move mask pushed for one entry: `key | value`, origin, landing and captured squares together. */
  function Mask(e: Entry): bv32
  {
    e.key | e.captured
  }

  /** The masks of the entries of `m`, in their order. */
  function Masks(m: MoveMap): (r: seq<bv32>)
    ensures |r| == |m|
  {
    if m == [] then [] else Masks(m[..|m| - 1]) + [Mask(m[|m| - 1])]
  }

  /** The masks of the moves of the piece on `pos`, when `pos` holds a piece of the side `isO`. */
  function SquareMoves(b: Board, isO: bool, pos: bv32): seq<bv32>
  {
    if Has(b.Side(isO), pos) then Masks(PieceMovesAt(b, pos)) else []
  }

  /** The moves of side `isO` from the pieces on the squares below index `n`, in square order. */
  function MovesBelow(b: Board, isO: bool, n: bv32): seq<bv32>
    requires n <= 32
  {
    if n == 0 then [] else MovesBelow(b, isO, n - 1) + SquareMoves(b, isO, Square(n - 1))
  }

  /** `get_all_moves(board, is_o)`: every move of side `isO`, square by square from bit 0 up. */
  function AllMoves(b: Board, isO: bool): seq<bv32>
  {
    MovesBelow(b, isO, 32)
  }

  /** The inner loop of `get_all_moves`: push `key | value` for every entry of `m`. */
  method PushMasks(moves: seq<bv32>, m: MoveMap) returns (r: seq<bv32>)
    ensures r == moves + Masks(m)
  {
    r := moves;
    var j := 0;
    while j < |m|
      invariant 0 <= j <= |m|
      invariant r == moves + Masks(m[..j])
    {
      assert m[..j + 1][..j] == m[..j];
      r := r + [m[j].key | m[j].captured];
      j := j + 1;
    }
    assert m[..|m|] == m;
  }

  method GetAllMoves(board: array<bv32>, isO: bool) returns (moves: seq<bv32>)
    requires board.Length == 3
    ensures moves == AllMoves(FromSlots(board[..]), isO)
  {
    ghost var b := FromSlots(board[..]);
    var mover := board[if isO then 1 else 0];
    assert mover == b.Side(isO);
    moves := [];
    var pos: bv32 := 1;
    ghost var i: bv32 := 0;
    while pos > 0
      invariant i <= 32 && pos == (if i < 32 then Square(i) else 0)
      invariant moves == MovesBelow(b, isO, i)
      decreases 32 - i
    {
      if Has(mover, pos) {
        var pieceMoves := GetPieceMovesAt(board, pos);
        moves := PushMasks(moves, pieceMoves);
      }
      SquareNext(i);
      pos := pos << 1;
      i := i + 1;
    }
  }

  // What the generated moves look like.

  /** `w` holds every square of `p`. */
  predicate Covers(w: bv32, p: bv32)
  {
    w & p == p
  }

  /**
   * The shape of a partial result of `get_piece_moves(board, pos, origin,
   * captures)`: no key twice, every key holds `origin` and every value holds
   * `captures`.
   */
  predicate Chains(m: MoveMap, origin: bv32, captures: bv32)
  {
    Distinct(m) && forall j | 0 <= j < |m| :: Covers(m[j].key, origin) && Covers(m[j].captured, captures)
  }

  lemma CoversUnion(w: bv32, c: bv32, step: bv32)
    requires Covers(w, c | step)
    ensures Covers(w, c)
  {
  }

  lemma CoversOrigin(pos: bv32, origin: bv32)
    ensures Covers(pos | origin, origin)
  {
  }

  lemma PutChains(m: MoveMap, k: bv32, v: bv32, origin: bv32, captures: bv32)
    requires Chains(m, origin, captures) && Covers(k, origin) && Covers(v, captures)
    ensures Chains(Put(m, k, v), origin, captures)
  {
  }

  lemma MergeEntryChains(acc: MoveMap, e: Entry, origin: bv32, captures: bv32)
    requires Chains(acc, origin, captures) && Covers(e.key, origin) && Covers(e.captured, captures)
    ensures Chains(MergeEntry(acc, e), origin, captures)
  {
    var i := IndexOf(acc, e.key);
    if i < 0 || PopCount(acc[i].captured) < PopCount(e.captured) {
      assert MergeEntry(acc, e) == Put(acc, e.key, e.captured);
      PutChains(acc, e.key, e.captured, origin, captures);
    }
  }

  lemma {:induction false} MergeChains(acc: MoveMap, sub: MoveMap, origin: bv32, captures: bv32)
    requires Chains(acc, origin, captures) && Chains(sub, origin, captures)
    ensures Chains(Merge(acc, sub), origin, captures)
    decreases |sub|
  {
    if sub != [] {
      MergeEntryChains(acc, sub[0], origin, captures);
      MergeChains(MergeEntry(acc, sub[0]), sub[1..], origin, captures);
    }
  }

  /** The moves of a longer chain have the shape of the moves of the chain so far. */
  lemma ChainsWeaken(m: MoveMap, origin: bv32, captures: bv32, step: bv32)
    requires Chains(m, origin, captures | step)
    ensures Chains(m, origin, captures)
  {
    forall j | 0 <= j < |m|
      ensures Covers(m[j].captured, captures)
    {
      CoversUnion(m[j].captured, captures, step);
    }
  }

  /**
   * Every move of a piece is keyed by a mask holding its origin, records at
   * least the squares captured so far, and no key repeats; on the first call
   * (`captures == 0`) the piece stands on its origin.
   */
  lemma {:induction false} PieceMovesChains(b: Board, pos: bv32, origin: bv32, captures: bv32)
    requires captures != 0 || pos == origin
    ensures Chains(PieceMoves(b, pos, origin, captures), origin, captures)
    decreases PopCount(!captures), 2, 0
  {
    if captures != 0 {
      CoversOrigin(pos, origin);
      PutChains([], pos | origin, captures, origin, captures);
    }
    ScanDirsChains(b, pos, origin, captures, Start(pos, origin, captures), true, true);
  }

  lemma {:induction false} ScanDirsChains(b: Board, pos: bv32, origin: bv32, captures: bv32, acc: MoveMap,
                                          left: bool, forward: bool)
    requires Has(b.kings, pos) || forward
    requires captures != 0 || pos == origin
    requires Chains(acc, origin, captures)
    ensures Chains(ScanDirs(b, pos, origin, captures, acc, left, forward), origin, captures)
    decreases PopCount(!captures), 1, DirsAfter(left, forward)
  {
    var step := Move(pos, left, forward, Has(b.o, pos));
    var landing := Move(step, left, forward, Has(b.o, pos));
    TryDirChains(b, pos, origin, captures, acc, step, landing);
    var left' := !left;
    var forward' := if left' && Has(b.kings, pos) then !forward else forward;
    if !left' || !forward' {
      ScanDirsChains(b, pos, origin, captures, TryDir(b, pos, origin, captures, acc, step, landing), left', forward');
    }
  }

  lemma {:induction false} TryDirChains(b: Board, pos: bv32, origin: bv32, captures: bv32, acc: MoveMap,
                                        step: bv32, landing: bv32)
    requires captures != 0 || pos == origin
    requires Chains(acc, origin, captures)
    ensures Chains(TryDir(b, pos, origin, captures, acc, step, landing), origin, captures)
    decreases PopCount(!captures), 0, 1
  {
    if step == 0 {
    } else if captures == 0 && !Has(b.Occupied(), step) {
      CoversOrigin(step, pos);
      PutChains(acc, pos | step, 0, origin, captures);
    } else if JumpOk(b.Occupied(), b.Side(!Has(b.o, pos)), origin, captures, step, landing) {
      JumpChains(b, pos, origin, captures, acc, step, landing);
    }
  }

  lemma {:induction false} JumpChains(b: Board, pos: bv32, origin: bv32, captures: bv32, acc: MoveMap,
                                      step: bv32, landing: bv32)
    requires step != 0 && !Has(captures, step)
    requires Chains(acc, origin, captures)
    ensures Chains(Merge(acc, PieceMoves(Apply(b, pos | landing | step, Has(b.o, pos), false), landing, origin, captures | step)),
                   origin, captures)
    decreases PopCount(!captures), 0, 0
  {
    CapturesGrow(captures, step);
    var sub := PieceMoves(Apply(b, pos | landing | step, Has(b.o, pos), false), landing, origin, captures | step);
    PieceMovesChains(Apply(b, pos | landing | step, Has(b.o, pos), false), landing, origin, captures | step);
    ChainsWeaken(sub, origin, captures, step);
    MergeChains(acc, sub, origin, captures);
  }

  /** A mask that holds a square of `side` meets `side`. */
  lemma MaskMeets(mask: bv32, side: bv32, pos: bv32)
    requires Has(side, pos) && Covers(mask, pos)
    ensures Has(mask, side)
  {
  }

  lemma CoversMask(key: bv32, captured: bv32, pos: bv32)
    requires Covers(key, pos)
    ensures Covers(key | captured, pos)
  {
  }

  lemma {:induction false} MasksMeet(m: MoveMap, side: bv32, pos: bv32)
    requires Has(side, pos) && forall j | 0 <= j < |m| :: Covers(m[j].key, pos)
    ensures forall k | 0 <= k < |Masks(m)| :: Has(Masks(m)[k], side)
    decreases |m|
  {
    if m != [] {
      var init, e := m[..|m| - 1], m[|m| - 1];
      assert forall j | 0 <= j < |init| :: init[j] == m[j];
      MasksMeet(init, side, pos);
      CoversMask(e.key, e.captured, pos);
      MaskMeets(Mask(e), side, pos);
      var r := Masks(m);
      assert r == Masks(init) + [Mask(e)];
      forall k | 0 <= k < |r|
        ensures Has(r[k], side)
      {
        if k < |r| - 1 {
          assert r[k] == Masks(init)[k];
        }
      }
    }
  }

  lemma {:induction false} MovesBelowMeet(b: Board, isO: bool, n: bv32)
    requires n <= 32
    ensures forall k | 0 <= k < |MovesBelow(b, isO, n)| :: Has(MovesBelow(b, isO, n)[k], b.Side(isO))
  {
    if n != 0 {
      MovesBelowMeet(b, isO, n - 1);
      var pos := Square(n - 1);
      if Has(b.Side(isO), pos) {
        PieceMovesChains(b, pos, pos, 0);
        MasksMeet(PieceMovesAt(b, pos), b.Side(isO), pos);
      }
    }
  }

  /**
   * Every mask `get_all_moves(board, is_o)` emits meets the mover's pieces
   * (it holds the origin of the move), so in particular it is never 0.
   */
  lemma AllMovesMeetMover(b: Board, isO: bool)
    ensures forall k | 0 <= k < |AllMoves(b, isO)| :: Has(AllMoves(b, isO)[k], b.Side(isO)) && AllMoves(b, isO)[k] != 0
  {
    MovesBelowMeet(b, isO, 32);
  }

  // The merge rule, read through the map the entries stand for.

  /** `m[k]`, when `m` holds key `k`. */
  function Lookup(m: MoveMap, k: bv32): Option<bv32>
  {
    var i := IndexOf(m, k);
    if i < 0 then None else Some(m[i].captured)
  }

  lemma {:induction false} IndexOfSameKeys(m: MoveMap, m': MoveMap, k: bv32)
    requires |m| == |m'| && forall j | 0 <= j < |m| :: m[j].key == m'[j].key
    ensures IndexOf(m, k) == IndexOf(m', k)
    decreases |m|
  {
    if m != [] && m[0].key != k {
      IndexOfSameKeys(m[1..], m'[1..], k);
    }
  }

  lemma {:induction false} IndexOfAppend(m: MoveMap, e: Entry, k: bv32)
    requires k != e.key
    ensures IndexOf(m + [e], k) == IndexOf(m, k)
    decreases |m|
  {
    if m == [] {
      assert IndexOf([e][1..], k) == -1;
    } else if m[0].key != k {
      assert (m + [e])[1..] == m[1..] + [e];
      IndexOfAppend(m[1..], e, k);
    }
  }

  lemma {:induction false} IndexOfAppended(m: MoveMap, e: Entry)
    requires IndexOf(m, e.key) < 0
    ensures IndexOf(m + [e], e.key) == |m|
    decreases |m|
  {
    if m == [] {
    } else {
      assert (m + [e])[1..] == m[1..] + [e];
      IndexOfAppended(m[1..], e);
    }
  }

  /**
   * `moves[k]` after one merge step: a new key takes the new value; a key
   * already present takes it only when it captures strictly more squares
   * (the `<` of the `bitsize` comparison), otherwise the earlier value
   * stays; every other key keeps its value.
   */
  lemma MergeEntryLookup(acc: MoveMap, e: Entry, k: bv32)
    ensures Lookup(MergeEntry(acc, e), k) ==
            if k != e.key then Lookup(acc, k)
            else if Lookup(acc, k).None? then Some(e.captured)
            else if PopCount(Lookup(acc, k).value) < PopCount(e.captured) then Some(e.captured)
            else Lookup(acc, k)
  {
    var i := IndexOf(acc, e.key);
    if i < 0 {
      if k == e.key {
        IndexOfAppended(acc, e);
      } else {
        IndexOfAppend(acc, e, k);
      }
    } else if PopCount(acc[i].captured) < PopCount(e.captured) {
      IndexOfSameKeys(acc, acc[i := e], k);
    }
  }

  // Which directions a piece tries.

  /** `TryDir` towards `(left, forward)` from `pos`. */
  function Toward(b: Board, pos: bv32, origin: bv32, captures: bv32, acc: MoveMap, left: bool, forward: bool): MoveMap
  {
    var step := Move(pos, left, forward, Has(b.o, pos));
    TryDir(b, pos, origin, captures, acc, step, Move(step, left, forward, Has(b.o, pos)))
  }

  /** A man tries forward-left, then forward-right, and nothing else. */
  lemma ManDirections(b: Board, pos: bv32, origin: bv32, captures: bv32)
    requires !Has(b.kings, pos)
    ensures PieceMoves(b, pos, origin, captures) ==
            Toward(b, pos, origin, captures, Toward(b, pos, origin, captures, Start(pos, origin, captures), true, true), false, true)
  {
    var s := Start(pos, origin, captures);
    var m1 := Toward(b, pos, origin, captures, s, true, true);
    assert ScanDirs(b, pos, origin, captures, s, true, true) == ScanDirs(b, pos, origin, captures, m1, false, true);
  }

  /** A king tries forward-left, forward-right, backward-left and backward-right, in that order. */
  lemma KingDirections(b: Board, pos: bv32, origin: bv32, captures: bv32)
    requires Has(b.kings, pos)
    ensures var s := Start(pos, origin, captures);
            PieceMoves(b, pos, origin, captures) ==
            Toward(b, pos, origin, captures,
              Toward(b, pos, origin, captures,
                Toward(b, pos, origin, captures,
                  Toward(b, pos, origin, captures, s, true, true), false, true), true, false), false, false)
  {
    var s := Start(pos, origin, captures);
    var m1 := Toward(b, pos, origin, captures, s, true, true);
    var m2 := Toward(b, pos, origin, captures, m1, false, true);
    var m3 := Toward(b, pos, origin, captures, m2, true, false);
    assert ScanDirs(b, pos, origin, captures, s, true, true) == ScanDirs(b, pos, origin, captures, m1, false, true);
    assert ScanDirs(b, pos, origin, captures, m1, false, true) == ScanDirs(b, pos, origin, captures, m2, true, false);
    assert ScanDirs(b, pos, origin, captures, m2, true, false) == ScanDirs(b, pos, origin, captures, m3, false, false);
  }
}
