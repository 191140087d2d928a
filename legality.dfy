/**
 * What the masks `get_all_moves` emits look like, and why playing them
 * keeps a position valid.
 *
 * A capture chain is followed on the board `b` that `simulate_move` leaves
 * after each jump. `Reached` ties that board back to the board `b0` the turn
 * started from: the piece has left `origin` and stands on `pos`, and the
 * opponent has lost exactly `captures`. Landing squares lie on rows of the
 * parity of the origin's row and jumped squares on the other parity, so a
 * chain never lands on a square it captured earlier.
 */
module Legality {
  import opened Layout
  import opened Geometry
  import opened Transition
  import opened Material
  import opened Generator

  /** `pos & EVEN_MASK`: the square lies on row 0, 2, 4 or 6. */
  predicate EvenRow(p: bv32)
  {
    p & EVEN_MASK != 0
  }

  /** The squares on rows of the same parity as the row of `origin`. */
  function Class(origin: bv32): bv32
  {
    if EvenRow(origin) then EVEN_MASK else !EVEN_MASK
  }

  // Single squares.

  lemma SquaresMeet(a: bv32, b: bv32)
    requires IsSquare(a) && IsSquare(b) && Has(a, b)
    ensures a == b
  {
  }

  lemma InClass(p: bv32, origin: bv32)
    requires IsSquare(p) && EvenRow(p) == EvenRow(origin)
    ensures p & !Class(origin) == 0
  {
  }

  lemma OutOfClass(p: bv32, origin: bv32)
    requires IsSquare(p) && EvenRow(p) != EvenRow(origin)
    ensures p & Class(origin) == 0
  {
  }

  /**
   * The words of a capture chain: side words `m0` and `p0` at the start of
   * the turn, the piece gone from `origin` to `pos`, `captures` taken, and
   * the side words `m` and `p` of the board reached.
   */
  predicate Chain(m0: bv32, p0: bv32, origin: bv32, pos: bv32, captures: bv32, m: bv32, p: bv32)
  {
    m0 & p0 == 0 && IsSquare(origin) && origin & !m0 == 0 &&
    IsSquare(pos) && EvenRow(pos) == EvenRow(origin) &&
    (pos == origin || pos & (m0 | p0) == 0) &&
    (captures != 0 || pos == origin) &&
    captures & !p0 == 0 && captures & Class(origin) == 0 &&
    m == (m0 & !origin) | pos && p == p0 & !captures
  }

  /**
   * The board `b` reached by side `isO` after jumping from `origin` to `pos`
   * over `captures`, relative to the board `b0` the turn started from.
   */
  predicate Reached(b0: Board, b: Board, isO: bool, origin: bv32, pos: bv32, captures: bv32)
  {
    Chain(b0.Side(isO), b0.Side(!isO), origin, pos, captures, b.Side(isO), b.Side(!isO))
  }

  /** `MoveShape` on the side words `m` (the mover) and `p` (the opponent). */
  predicate WordShape(m: bv32, p: bv32, origin: bv32, landing: bv32, caps: bv32)
  {
    m & p == 0 && IsSquare(origin) && origin & !m == 0 && landing != 0 &&
    (landing == origin || landing & (m | p) == 0) && caps & !p == 0
  }

  lemma MoveShapeOfWords(b: Board, isO: bool, origin: bv32, landing: bv32, caps: bv32)
    requires WordShape(b.Side(isO), b.Side(!isO), origin, landing, caps)
    ensures MoveShape(b, isO, origin, landing, caps)
  {
    SidesSplit(b, isO);
  }

  // Facts about single words.

  lemma SquareInside(w: bv32, p: bv32)
    requires IsSquare(p) && Has(w, p)
    ensures p & !w == 0
  {
  }

  lemma PutBack(m: bv32, origin: bv32)
    requires origin & !m == 0
    ensures m == (m & !origin) | origin
  {
  }

  lemma TakeNothing(p: bv32, k: bv32)
    ensures p == p & !0 && 0 & !p == 0 && 0 & k == 0
  {
  }

  lemma PosOff(m0: bv32, p0: bv32, origin: bv32, pos: bv32)
    requires m0 & p0 == 0 && origin & !m0 == 0
    requires pos == origin || pos & (m0 | p0) == 0
    ensures pos & p0 == 0
  {
  }

  lemma SideWords(m0: bv32, p0: bv32, origin: bv32, pos: bv32, captures: bv32, m: bv32, p: bv32)
    requires m0 & p0 == 0 && pos & p0 == 0 && IsSquare(pos)
    requires m == (m0 & !origin) | pos && p == p0 & !captures
    ensures m & p == 0 && Has(m, pos) && !Has(p, pos)
  {
  }

  lemma LandingOffCaptures(landing: bv32, captures: bv32, k: bv32)
    requires landing & !k == 0 && captures & k == 0
    ensures landing & captures == 0
  {
  }

  /** Where a jump may land, on the starting board: on the origin, or on a square that was empty. */
  lemma LandingWord(m0: bv32, p0: bv32, origin: bv32, pos: bv32, captures: bv32, landing: bv32)
    requires IsSquare(origin) && IsSquare(landing) && landing & captures == 0
    requires landing & (((m0 & !origin) | pos) | (p0 & !captures)) == 0
    ensures landing == origin || landing & (m0 | p0) == 0
  {
    if landing & origin != 0 {
      SquaresMeet(landing, origin);
    }
  }

  /** The origin is free on the board reached once the piece has left it. */
  lemma OriginLeft(m0: bv32, p0: bv32, origin: bv32, pos: bv32, captures: bv32)
    requires IsSquare(origin) && IsSquare(pos) && pos != origin && m0 & p0 == 0 && origin & !m0 == 0
    ensures origin & (((m0 & !origin) | pos) | (p0 & !captures)) == 0
  {
    if origin & pos != 0 {
      SquaresMeet(origin, pos);
    }
  }

  lemma MoverWords(m0: bv32, p0: bv32, origin: bv32, pos: bv32, landing: bv32, m: bv32)
    requires m0 & p0 == 0 && (pos == origin || pos & (m0 | p0) == 0)
    requires m == (m0 & !origin) | pos
    ensures (m & !pos) | landing == (m0 & !origin) | landing
  {
  }

  lemma OpponentWords(p0: bv32, pos: bv32, landing: bv32, captures: bv32, step: bv32, p: bv32)
    requires pos & p0 == 0 && landing & p0 == 0 && p == p0 & !captures
    ensures p & !(pos | landing | step) == p0 & !(captures | step)
  {
  }

  lemma CapturesStay(p0: bv32, captures: bv32, step: bv32, k: bv32, p: bv32)
    requires captures & !p0 == 0 && captures & k == 0 && p == p0 & !captures
    requires step != 0 && step & !p == 0 && step & k == 0
    ensures captures | step != 0 && (captures | step) & !p0 == 0 && (captures | step) & k == 0
  {
  }

  // The chain on words.

  /** A turn starts from a piece of the side to move, nothing captured. */
  lemma ChainStart(m: bv32, p: bv32, origin: bv32)
    requires m & p == 0 && IsSquare(origin) && origin & !m == 0
    ensures Chain(m, p, origin, origin, 0, m, p)
  {
    PutBack(m, origin);
    TakeNothing(p, Class(origin));
  }

  /** On the board reached, the sides are apart and `pos` holds a piece of the mover. */
  lemma ChainSide(m0: bv32, p0: bv32, origin: bv32, pos: bv32, captures: bv32, m: bv32, p: bv32)
    requires Chain(m0, p0, origin, pos, captures, m, p)
    ensures m & p == 0 && Has(m, pos) && !Has(p, pos)
  {
    PosOff(m0, p0, origin, pos);
    SideWords(m0, p0, origin, pos, captures, m, p);
  }

  /** The move that reached `pos` by capturing `captures` is of the expected shape on the starting words. */
  lemma ChainEntry(m0: bv32, p0: bv32, origin: bv32, pos: bv32, captures: bv32, m: bv32, p: bv32)
    requires Chain(m0, p0, origin, pos, captures, m, p)
    ensures WordShape(m0, p0, origin, pos, captures)
  {
  }

  /** A quiet step from the origin onto a square empty on the board reached, before any capture. */
  lemma ChainQuiet(m0: bv32, p0: bv32, origin: bv32, pos: bv32, m: bv32, p: bv32, step: bv32)
    requires Chain(m0, p0, origin, pos, 0, m, p)
    requires IsSquare(step) && !Has(m | p, step)
    ensures WordShape(m0, p0, origin, step, 0)
  {
    PutBack(m0, origin);
    TakeNothing(p0, Class(origin));
  }

  /** Where a jump from `pos` lands, relative to the starting words. */
  lemma ChainLanding(m0: bv32, p0: bv32, origin: bv32, pos: bv32, captures: bv32, m: bv32, p: bv32, landing: bv32)
    requires Chain(m0, p0, origin, pos, captures, m, p)
    requires IsSquare(landing) && landing != pos && landing & !Class(origin) == 0
    requires Has(origin, landing) || !Has(m | p, landing)
    ensures (landing == origin || landing & (m0 | p0) == 0) && landing & (m | p) == 0
  {
    if Has(origin, landing) {
      SquaresMeet(origin, landing);
      OriginLeft(m0, p0, origin, pos, captures);
    } else {
      LandingOffCaptures(landing, captures, Class(origin));
      LandingWord(m0, p0, origin, pos, captures, landing);
    }
  }

  /** A jump over `step` onto `landing` is of the expected shape on the words reached. */
  lemma ChainJumpShape(m0: bv32, p0: bv32, origin: bv32, pos: bv32, captures: bv32, m: bv32, p: bv32,
                       step: bv32, landing: bv32)
    requires Chain(m0, p0, origin, pos, captures, m, p)
    requires IsSquare(step) && Has(p, step) && landing != 0 && landing & (m | p) == 0
    ensures WordShape(m, p, pos, landing, step)
  {
    ChainSide(m0, p0, origin, pos, captures, m, p);
    SquareInside(m, pos);
    SquareInside(p, step);
  }

  /** The words after the jump continue the chain to `landing`, with `step` captured as well. */
  lemma ChainNext(m0: bv32, p0: bv32, origin: bv32, pos: bv32, captures: bv32, m: bv32, p: bv32,
                  step: bv32, landing: bv32)
    requires Chain(m0, p0, origin, pos, captures, m, p)
    requires IsSquare(step) && Has(p, step) && step & Class(origin) == 0
    requires IsSquare(landing) && EvenRow(landing) == EvenRow(origin)
    requires landing == origin || landing & (m0 | p0) == 0
    ensures Chain(m0, p0, origin, landing, captures | step, (m & !pos) | landing, p & !(pos | landing | step))
  {
    PosOff(m0, p0, origin, pos);
    PosOff(m0, p0, origin, landing);
    MoverWords(m0, p0, origin, pos, landing, m);
    OpponentWords(p0, pos, landing, captures, step, p);
    SquareInside(p, step);
    CapturesStay(p0, captures, step, Class(origin), p);
  }

  // The board reached.

  /** The piece on `pos` is the mover's, so the generator reads the mover from the board reached. */
  lemma ReachedColour(b0: Board, b: Board, isO: bool, origin: bv32, pos: bv32, captures: bv32)
    requires Reached(b0, b, isO, origin, pos, captures)
    ensures Has(b.o, pos) == isO
  {
    ChainSide(b0.Side(isO), b0.Side(!isO), origin, pos, captures, b.Side(isO), b.Side(!isO));
  }

  /** The geometry of a jump: squares, parities and a landing away from `pos`. */
  lemma JumpGeometry(pos: bv32, origin: bv32, left: bool, forward: bool, isO: bool)
    requires IsSquare(pos) && EvenRow(pos) == EvenRow(origin)
    requires Move(pos, left, forward, isO) != 0 && Move(Move(pos, left, forward, isO), left, forward, isO) != 0
    ensures var step := Move(pos, left, forward, isO);
            var landing := Move(step, left, forward, isO);
            IsSquare(step) && IsSquare(landing) && landing != pos &&
            step & Class(origin) == 0 && landing & !Class(origin) == 0 && EvenRow(landing) == EvenRow(origin)
  {
    var step := Move(pos, left, forward, isO);
    MoveSquare(pos, left, forward, isO);
    MoveSquare(step, left, forward, isO);
    MoveFlipsRowParity(pos, left, forward, isO);
    MoveFlipsRowParity(step, left, forward, isO);
    JumpLeavesSquare(pos, left, forward, isO);
    OutOfClass(step, origin);
    InClass(Move(step, left, forward, isO), origin);
  }

  /** A jump the generator follows is, on the words reached, of the shape `simulate_move` expects. */
  lemma ChainJumpWords(m0: bv32, p0: bv32, origin: bv32, pos: bv32, captures: bv32, m: bv32, p: bv32,
                       step: bv32, landing: bv32)
    requires Chain(m0, p0, origin, pos, captures, m, p)
    requires IsSquare(step) && Has(p, step)
    requires IsSquare(landing) && landing != pos && landing & !Class(origin) == 0
    requires Has(origin, landing) || !Has(m | p, landing)
    ensures WordShape(m, p, pos, landing, step)
  {
    ChainLanding(m0, p0, origin, pos, captures, m, p, landing);
    ChainJumpShape(m0, p0, origin, pos, captures, m, p, step, landing);
  }

  /** A jump over `step` onto `landing`, on the words: the chain goes on to `landing`. */
  lemma ChainJump(m0: bv32, p0: bv32, origin: bv32, pos: bv32, captures: bv32, m: bv32, p: bv32,
                  step: bv32, landing: bv32)
    requires Chain(m0, p0, origin, pos, captures, m, p)
    requires IsSquare(step) && Has(p, step) && step & Class(origin) == 0
    requires IsSquare(landing) && landing != pos && landing & !Class(origin) == 0
    requires EvenRow(landing) == EvenRow(origin)
    requires Has(origin, landing) || !Has(m | p, landing)
    ensures Chain(m0, p0, origin, landing, captures | step, (m & !pos) | landing, p & !(pos | landing | step))
  {
    ChainLanding(m0, p0, origin, pos, captures, m, p, landing);
    ChainNext(m0, p0, origin, pos, captures, m, p, step, landing);
  }

  /** `Reached`, from the chain on words `m0`, `p0` of `b0` and `m`, `p` of `b`. */
  lemma ReachedOfWords(b0: Board, b: Board, isO: bool, m0: bv32, p0: bv32, m: bv32, p: bv32,
                       origin: bv32, pos: bv32, captures: bv32)
    requires m0 == b0.Side(isO) && p0 == b0.Side(!isO) && m == b.Side(isO) && p == b.Side(!isO)
    requires Chain(m0, p0, origin, pos, captures, m, p)
    ensures Reached(b0, b, isO, origin, pos, captures)
  {
  }

  /** `MoveShape` of `b`, from `WordShape` on its side words `m` and `p`. */
  lemma ShapeOnBoard(b: Board, isO: bool, m: bv32, p: bv32, pos: bv32, landing: bv32, step: bv32)
    requires m == b.Side(isO) && p == b.Side(!isO)
    requires WordShape(m, p, pos, landing, step)
    ensures MoveShape(b, isO, pos, landing, step)
  {
    MoveShapeOfWords(b, isO, pos, landing, step);
  }

  /** The side words of the board `simulate_move` leaves after a jump over `step` onto `landing`. */
  lemma SidesAfterJump(b: Board, isO: bool, m: bv32, p: bv32, pos: bv32, landing: bv32, step: bv32)
    requires m == b.Side(isO) && p == b.Side(!isO)
    requires WordShape(m, p, pos, landing, step)
    ensures Apply(b, pos | landing | step, isO, false).Side(isO) == (m & !pos) | landing
    ensures Apply(b, pos | landing | step, isO, false).Side(!isO) == p & !(pos | landing | step)
  {
    ShapeOnBoard(b, isO, m, p, pos, landing, step);
    MoverMoves(b, isO, m, pos, landing, step);
    Transition.OpponentAfter(b, pos | landing | step, isO, p);
  }

  /** A jump over `step` onto `landing` leads to a board reached by one more capture. */
  lemma ReachedStep(b0: Board, b: Board, isO: bool, m0: bv32, p0: bv32, m: bv32, p: bv32,
                    origin: bv32, pos: bv32, captures: bv32, step: bv32, landing: bv32)
    requires m0 == b0.Side(isO) && p0 == b0.Side(!isO) && m == b.Side(isO) && p == b.Side(!isO)
    requires Chain(m0, p0, origin, pos, captures, m, p)
    requires IsSquare(step) && Has(p, step) && step & Class(origin) == 0
    requires IsSquare(landing) && landing != pos && landing & !Class(origin) == 0
    requires EvenRow(landing) == EvenRow(origin)
    requires Has(origin, landing) || !Has(m | p, landing)
    ensures Reached(b0, Apply(b, pos | landing | step, isO, false), isO, origin, landing, captures | step)
  {
    ChainJumpWords(m0, p0, origin, pos, captures, m, p, step, landing);
    ChainJump(m0, p0, origin, pos, captures, m, p, step, landing);
    ReachedTail(b0, b, isO, m0, p0, m, p, origin, pos, captures, step, landing);
  }

  lemma ReachedTail(b0: Board, b: Board, isO: bool, m0: bv32, p0: bv32, m: bv32, p: bv32,
                    origin: bv32, pos: bv32, captures: bv32, step: bv32, landing: bv32)
    requires m0 == b0.Side(isO) && p0 == b0.Side(!isO) && m == b.Side(isO) && p == b.Side(!isO)
    requires WordShape(m, p, pos, landing, step)
    requires Chain(m0, p0, origin, landing, captures | step, (m & !pos) | landing, p & !(pos | landing | step))
    ensures Reached(b0, Apply(b, pos | landing | step, isO, false), isO, origin, landing, captures | step)
  {
    SidesAfterJump(b, isO, m, p, pos, landing, step);
    ReachedOfWords(b0, Apply(b, pos | landing | step, isO, false), isO, m0, p0,
                   (m & !pos) | landing, p & !(pos | landing | step), origin, landing, captures | step);
  }

  lemma FreeOfSides(b: Board, isO: bool, origin: bv32, landing: bv32)
    requires Has(origin, landing) || !Has(b.Occupied(), landing)
    ensures Has(origin, landing) || !Has(b.Side(isO) | b.Side(!isO), landing)
  {
    SidesSplit(b, isO);
  }

  /** A jump the generator follows leads to a board reached by one more capture. */
  lemma ReachedJump(b0: Board, b: Board, isO: bool, origin: bv32, pos: bv32, captures: bv32,
                    left: bool, forward: bool, step: bv32, landing: bv32)
    requires Reached(b0, b, isO, origin, pos, captures)
    requires step == Move(pos, left, forward, isO) && landing == Move(step, left, forward, isO)
    requires step != 0 && JumpOk(b.Occupied(), b.Side(!isO), origin, captures, step, landing)
    ensures Reached(b0, Apply(b, pos | landing | step, isO, false), isO, origin, landing, captures | step)
  {
    JumpGeometry(pos, origin, left, forward, isO);
    FreeOfSides(b, isO, origin, landing);
    ReachedStep(b0, b, isO, b0.Side(isO), b0.Side(!isO), b.Side(isO), b.Side(!isO), origin, pos, captures, step, landing);
  }

  // The entries of a piece's move map.

  /** The landing square recorded in key `origin | landing`. */
  function LandingOf(key: bv32, origin: bv32): bv32
  {
    if key == origin then origin else key & !origin
  }

  /** An entry of the moves of the piece on `origin`: a move of the shape `simulate_move` expects. */
  predicate Shaped(b0: Board, isO: bool, origin: bv32, e: Entry)
  {
    var landing := LandingOf(e.key, origin);
    e.key == origin | landing && MoveShape(b0, isO, origin, landing, e.captured)
  }

  predicate AllShaped(m: MoveMap, b0: Board, isO: bool, origin: bv32)
  {
    forall j | 0 <= j < |m| :: Shaped(b0, isO, origin, m[j])
  }

  lemma KeyWords(origin: bv32, landing: bv32)
    requires landing != 0 && landing & origin == 0
    ensures LandingOf(origin | landing, origin) == landing
  {
    assert origin | landing != origin;
  }

  lemma KeyStays(origin: bv32)
    ensures origin | origin == origin && LandingOf(origin | origin, origin) == origin
  {
  }

  lemma LandingApart(b: Board, isO: bool, origin: bv32, landing: bv32, caps: bv32)
    requires MoveShape(b, isO, origin, landing, caps) && landing != origin
    ensures landing & origin == 0
  {
    SidesSplit(b, isO);
  }

  lemma ShapedJumpEntry(b0: Board, isO: bool, origin: bv32, landing: bv32, caps: bv32)
    requires MoveShape(b0, isO, origin, landing, caps) && LandingOf(origin | landing, origin) == landing
    ensures Shaped(b0, isO, origin, Entry(origin | landing, caps))
  {
  }

  /** The entry `origin | landing ↦ caps` of a move of the expected shape is shaped. */
  lemma ShapedEntry(b0: Board, isO: bool, origin: bv32, landing: bv32, caps: bv32)
    requires MoveShape(b0, isO, origin, landing, caps)
    ensures Shaped(b0, isO, origin, Entry(origin | landing, caps))
  {
    if landing == origin {
      KeyStays(origin);
    } else {
      LandingApart(b0, isO, origin, landing, caps);
      KeyWords(origin, landing);
      ShapedJumpEntry(b0, isO, origin, landing, caps);
    }
  }

  lemma PutShaped(m: MoveMap, k: bv32, v: bv32, b0: Board, isO: bool, origin: bv32)
    requires AllShaped(m, b0, isO, origin) && Shaped(b0, isO, origin, Entry(k, v))
    ensures AllShaped(Put(m, k, v), b0, isO, origin)
  {
  }

  lemma MergeEntryShaped(acc: MoveMap, e: Entry, b0: Board, isO: bool, origin: bv32)
    requires AllShaped(acc, b0, isO, origin) && Shaped(b0, isO, origin, e)
    ensures AllShaped(MergeEntry(acc, e), b0, isO, origin)
  {
  }

  lemma {:induction false} MergeShaped(acc: MoveMap, sub: MoveMap, b0: Board, isO: bool, origin: bv32)
    requires AllShaped(acc, b0, isO, origin) && AllShaped(sub, b0, isO, origin)
    ensures AllShaped(Merge(acc, sub), b0, isO, origin)
    decreases |sub|
  {
    if sub != [] {
      MergeEntryShaped(acc, sub[0], b0, isO, origin);
      MergeShaped(MergeEntry(acc, sub[0]), sub[1..], b0, isO, origin);
    }
  }

  /** The move that reached `pos` by a capture, recorded first by the call on `pos`. */
  lemma StartShaped(b0: Board, b: Board, isO: bool, origin: bv32, pos: bv32, captures: bv32)
    requires Reached(b0, b, isO, origin, pos, captures)
    ensures AllShaped(Start(pos, origin, captures), b0, isO, origin)
  {
    if captures != 0 {
      ChainEntry(b0.Side(isO), b0.Side(!isO), origin, pos, captures, b.Side(isO), b.Side(!isO));
      MoveShapeOfWords(b0, isO, origin, pos, captures);
      ShapedEntry(b0, isO, origin, pos, captures);
      assert pos | origin == origin | pos;
      PutShaped([], pos | origin, captures, b0, isO, origin);
    }
  }

  /**
   * Every move the generator records for the piece that left `origin` is
   * keyed `origin | landing` and plays, on the starting board, a move of the
   * shape `simulate_move` expects.
   */
  lemma {:induction false} PieceMovesShaped(b0: Board, b: Board, isO: bool, origin: bv32, pos: bv32, captures: bv32)
    requires Reached(b0, b, isO, origin, pos, captures)
    ensures AllShaped(PieceMoves(b, pos, origin, captures), b0, isO, origin)
    decreases PopCount(!captures), 2, 0
  {
    StartShaped(b0, b, isO, origin, pos, captures);
    ScanDirsShaped(b0, b, isO, origin, pos, captures, Start(pos, origin, captures), true, true);
  }

  lemma {:induction false} ScanDirsShaped(b0: Board, b: Board, isO: bool, origin: bv32, pos: bv32, captures: bv32,
                                          acc: MoveMap, left: bool, forward: bool)
    requires Has(b.kings, pos) || forward
    requires Reached(b0, b, isO, origin, pos, captures)
    requires AllShaped(acc, b0, isO, origin)
    ensures AllShaped(ScanDirs(b, pos, origin, captures, acc, left, forward), b0, isO, origin)
    decreases PopCount(!captures), 1, DirsAfter(left, forward)
  {
    ReachedColour(b0, b, isO, origin, pos, captures);
    var step := Move(pos, left, forward, Has(b.o, pos));
    var landing := Move(step, left, forward, Has(b.o, pos));
    TryDirShaped(b0, b, isO, origin, pos, captures, acc, left, forward, step, landing);
    var left' := !left;
    var forward' := if left' && Has(b.kings, pos) then !forward else forward;
    if !left' || !forward' {
      ScanDirsShaped(b0, b, isO, origin, pos, captures, TryDir(b, pos, origin, captures, acc, step, landing), left', forward');
    }
  }

  /** A quiet step onto a square that is empty, on the side words: it starts at the origin. */
  lemma QuietShaped(b0: Board, b: Board, isO: bool, m0: bv32, p0: bv32, m: bv32, p: bv32,
                    origin: bv32, pos: bv32, step: bv32)
    requires m0 == b0.Side(isO) && p0 == b0.Side(!isO) && m == b.Side(isO) && p == b.Side(!isO)
    requires Chain(m0, p0, origin, pos, 0, m, p)
    requires IsSquare(step) && !Has(m | p, step)
    ensures Shaped(b0, isO, origin, Entry(pos | step, 0))
  {
    ChainQuiet(m0, p0, origin, pos, m, p, step);
    ShapeOnBoard(b0, isO, m0, p0, origin, step, 0);
    ShapedEntry(b0, isO, origin, step, 0);
    ChainAtOrigin(m0, p0, origin, pos, 0, m, p);
    KeyAtOrigin(origin, pos, step);
  }

  lemma KeyAtOrigin(origin: bv32, pos: bv32, step: bv32)
    requires pos == origin
    ensures pos | step == origin | step
  {
  }

  lemma QuietFree(b: Board, isO: bool, step: bv32)
    requires !Has(b.Occupied(), step)
    ensures !Has(b.Side(isO) | b.Side(!isO), step)
  {
    SidesSplit(b, isO);
  }

  lemma ChainAtOrigin(m0: bv32, p0: bv32, origin: bv32, pos: bv32, captures: bv32, m: bv32, p: bv32)
    requires Chain(m0, p0, origin, pos, captures, m, p) && captures == 0
    ensures pos == origin
  {
  }

  /** The quiet branch of `try_dir`: the step is recorded under key `origin | step`. */
  lemma QuietPut(b0: Board, b: Board, isO: bool, origin: bv32, pos: bv32, captures: bv32,
                 acc: MoveMap, left: bool, forward: bool, step: bv32)
    requires Reached(b0, b, isO, origin, pos, captures) && captures == 0
    requires step == Move(pos, left, forward, isO) && step != 0 && !Has(b.Occupied(), step)
    requires AllShaped(acc, b0, isO, origin)
    ensures AllShaped(Put(acc, pos | step, 0), b0, isO, origin)
  {
    MoveSquare(pos, left, forward, isO);
    QuietFree(b, isO, step);
    QuietStep(b0, b, isO, origin, pos, captures, acc, step);
  }

  lemma QuietStep(b0: Board, b: Board, isO: bool, origin: bv32, pos: bv32, captures: bv32, acc: MoveMap, step: bv32)
    requires Reached(b0, b, isO, origin, pos, captures) && captures == 0
    requires IsSquare(step) && !Has(b.Side(isO) | b.Side(!isO), step)
    requires AllShaped(acc, b0, isO, origin)
    ensures AllShaped(Put(acc, pos | step, 0), b0, isO, origin)
  {
    QuietShaped(b0, b, isO, b0.Side(isO), b0.Side(!isO), b.Side(isO), b.Side(!isO), origin, pos, step);
    PutShaped(acc, pos | step, 0, b0, isO, origin);
  }

  lemma {:induction false} TryDirShaped(b0: Board, b: Board, isO: bool, origin: bv32, pos: bv32, captures: bv32,
                                        acc: MoveMap, left: bool, forward: bool, step: bv32, landing: bv32)
    requires Reached(b0, b, isO, origin, pos, captures) && Has(b.o, pos) == isO
    requires step == Move(pos, left, forward, isO) && landing == Move(step, left, forward, isO)
    requires AllShaped(acc, b0, isO, origin)
    ensures AllShaped(TryDir(b, pos, origin, captures, acc, step, landing), b0, isO, origin)
    decreases PopCount(!captures), 0, 2
  {
    var occupied, opponent, oTurn := b.Occupied(), b.Side(!Has(b.o, pos)), Has(b.o, pos);
    if step == 0 {
      TryDirStays(b, occupied, opponent, pos, origin, captures, oTurn, acc, step, landing);
    } else if captures == 0 && !Has(occupied, step) {
      QuietBranch(b0, b, isO, origin, pos, captures, acc, left, forward, step, landing);
    } else if JumpOk(occupied, opponent, origin, captures, step, landing) {
      JumpBranch(b0, b, isO, origin, pos, captures, acc, left, forward, step, landing);
    } else {
      TryDirStays(b, occupied, opponent, pos, origin, captures, oTurn, acc, step, landing);
    }
  }

  /** The quiet branch of `try_dir`: the step is recorded under key `pos | step`. */
  lemma QuietBranch(b0: Board, b: Board, isO: bool, origin: bv32, pos: bv32, captures: bv32,
                    acc: MoveMap, left: bool, forward: bool, step: bv32, landing: bv32)
    requires Reached(b0, b, isO, origin, pos, captures) && Has(b.o, pos) == isO
    requires step == Move(pos, left, forward, isO)
    requires step != 0 && captures == 0 && !Has(b.Occupied(), step)
    requires AllShaped(acc, b0, isO, origin)
    ensures AllShaped(TryDir(b, pos, origin, captures, acc, step, landing), b0, isO, origin)
  {
    TryDirQuiet(b, b.Occupied(), b.Side(!Has(b.o, pos)), pos, origin, captures, Has(b.o, pos), acc, step, landing);
    QuietPut(b0, b, isO, origin, pos, captures, acc, left, forward, step);
  }

  /** The jump branch of `try_dir`: the moves found from the landing square are merged in. */
  lemma {:induction false} JumpBranch(b0: Board, b: Board, isO: bool, origin: bv32, pos: bv32, captures: bv32,
                                      acc: MoveMap, left: bool, forward: bool, step: bv32, landing: bv32)
    requires Reached(b0, b, isO, origin, pos, captures) && Has(b.o, pos) == isO
    requires step == Move(pos, left, forward, isO) && landing == Move(step, left, forward, isO)
    requires step != 0 && !(captures == 0 && !Has(b.Occupied(), step))
    requires JumpOk(b.Occupied(), b.Side(!Has(b.o, pos)), origin, captures, step, landing)
    requires AllShaped(acc, b0, isO, origin)
    ensures AllShaped(TryDir(b, pos, origin, captures, acc, step, landing), b0, isO, origin)
    decreases PopCount(!captures), 0, 1
  {
    TryDirJump(b, b.Occupied(), b.Side(!Has(b.o, pos)), pos, origin, captures, Has(b.o, pos), acc, step, landing);
    ReachedJump(b0, b, isO, origin, pos, captures, left, forward, step, landing);
    JumpShaped(b0, b, isO, origin, pos, captures, acc, step, landing);
  }

  lemma {:induction false} JumpShaped(b0: Board, b: Board, isO: bool, origin: bv32, pos: bv32, captures: bv32,
                                      acc: MoveMap, step: bv32, landing: bv32)
    requires step != 0 && !Has(captures, step)
    requires Reached(b0, Apply(b, pos | landing | step, isO, false), isO, origin, landing, captures | step)
    requires AllShaped(acc, b0, isO, origin)
    ensures AllShaped(Merge(acc, PieceMoves(Apply(b, pos | landing | step, isO, false), landing, origin, captures | step)),
                      b0, isO, origin)
    decreases PopCount(!captures), 0, 0
  {
    CapturesGrow(captures, step);
    var b' := Apply(b, pos | landing | step, isO, false);
    PieceMovesShaped(b0, b', isO, origin, landing, captures | step);
    MergeShaped(acc, PieceMoves(b', landing, origin, captures | step), b0, isO, origin);
  }

  // The masks of `get_all_moves`.

  lemma TurnStart(b: Board, isO: bool, origin: bv32)
    requires b.x & b.o == 0 && IsSquare(origin) && Has(b.Side(isO), origin)
    ensures b.Side(isO) & b.Side(!isO) == 0 && origin & !b.Side(isO) == 0
  {
    SidesSplit(b, isO);
    SquareInside(b.Side(isO), origin);
  }

  /** The moves `get_piece_moves` records for a piece of side `isO` are all shaped. */
  lemma PieceShaped(b: Board, isO: bool, origin: bv32)
    requires b.x & b.o == 0 && IsSquare(origin) && Has(b.Side(isO), origin)
    ensures AllShaped(PieceMovesAt(b, origin), b, isO, origin)
  {
    TurnStart(b, isO, origin);
    ChainStart(b.Side(isO), b.Side(!isO), origin);
    PieceMovesShaped(b, b, isO, origin, origin, 0);
  }

  /**
   * The square a mask lands on, given the mover's word `m` and the
   * opponent's word `p`: what is left once the mover's and the opponent's
   * squares are taken out, or the origin when nothing is left.
   */
  function LandingIn(m: bv32, p: bv32, mv: bv32): bv32
  {
    var rest := mv & !((mv & m) | (mv & p));
    if rest == 0 then mv & m else rest
  }

  /**
   * `mv` is `origin | landing | captured` for a move of the shape
   * `simulate_move` expects, where the origin is the part of `mv` on the
   * mover's word `m`, the captured pieces the part on the opponent's word `p`,
   * and the landing square the rest (the origin when there is no rest).
   */
  predicate PlayableWords(m: bv32, p: bv32, mv: bv32)
  {
    var origin, landing, caps := mv & m, LandingIn(m, p, mv), mv & p;
    mv == origin | landing | caps && WordShape(m, p, origin, landing, caps)
  }

  /** `PlayableWords` on the side words of board `b`, side `isO` to move. */
  predicate Playable(b: Board, isO: bool, mv: bv32)
  {
    PlayableWords(b.Side(isO), b.Side(!isO), mv)
  }

  lemma WordsOfShape(b: Board, isO: bool, origin: bv32, landing: bv32, caps: bv32)
    requires MoveShape(b, isO, origin, landing, caps)
    ensures WordShape(b.Side(isO), b.Side(!isO), origin, landing, caps)
  {
    SidesSplit(b, isO);
  }

  lemma PartOnMover(m: bv32, p: bv32, origin: bv32, landing: bv32, caps: bv32)
    requires m & p == 0 && origin & !m == 0 && caps & !p == 0
    requires landing == origin || landing & (m | p) == 0
    ensures (origin | landing | caps) & m == origin
  {
  }

  lemma PartOnOpponent(m: bv32, p: bv32, origin: bv32, landing: bv32, caps: bv32)
    requires m & p == 0 && origin & !m == 0 && caps & !p == 0
    requires landing == origin || landing & (m | p) == 0
    ensures (origin | landing | caps) & p == caps
  {
  }

  lemma RestStay(origin: bv32, caps: bv32)
    ensures (origin | origin | caps) & !(origin | caps) == 0
  {
  }

  lemma RestJump(m: bv32, p: bv32, origin: bv32, landing: bv32, caps: bv32)
    requires origin & !m == 0 && caps & !p == 0 && landing & (m | p) == 0
    ensures (origin | landing | caps) & !(origin | caps) == landing
  {
  }

  /** A move that stays on its origin reads back its origin as the landing square. */
  lemma LandingStay(m: bv32, p: bv32, origin: bv32, caps: bv32)
    requires m & p == 0 && origin & !m == 0 && caps & !p == 0
    ensures LandingIn(m, p, origin | origin | caps) == origin
  {
    PartOnMover(m, p, origin, origin, caps);
    PartOnOpponent(m, p, origin, origin, caps);
    RestStay(origin, caps);
  }

  lemma LandingJump(m: bv32, p: bv32, origin: bv32, landing: bv32, caps: bv32)
    requires m & p == 0 && origin & !m == 0 && caps & !p == 0
    requires landing != 0 && landing & (m | p) == 0
    ensures LandingIn(m, p, origin | landing | caps) == landing
  {
    PartOnMover(m, p, origin, landing, caps);
    PartOnOpponent(m, p, origin, landing, caps);
    RestJump(m, p, origin, landing, caps);
  }

  lemma LandingSplits(m: bv32, p: bv32, origin: bv32, landing: bv32, caps: bv32)
    requires m & p == 0 && origin & !m == 0 && caps & !p == 0
    requires landing != 0 && (landing == origin || landing & (m | p) == 0)
    ensures LandingIn(m, p, origin | landing | caps) == landing
  {
    if landing == origin {
      LandingStay(m, p, origin, caps);
    } else {
      LandingJump(m, p, origin, landing, caps);
    }
  }

  /** A move of the expected shape can be read back off its mask. */
  lemma ShapeSplits(m: bv32, p: bv32, origin: bv32, landing: bv32, caps: bv32)
    requires WordShape(m, p, origin, landing, caps)
    ensures PlayableWords(m, p, origin | landing | caps)
  {
    PartOnMover(m, p, origin, landing, caps);
    PartOnOpponent(m, p, origin, landing, caps);
    LandingSplits(m, p, origin, landing, caps);
  }

  lemma ShapedPlayable(b0: Board, isO: bool, origin: bv32, e: Entry)
    requires Shaped(b0, isO, origin, e)
    ensures Playable(b0, isO, Mask(e))
  {
    var landing := LandingOf(e.key, origin);
    assert Mask(e) == origin | landing | e.captured;
    WordsOfShape(b0, isO, origin, landing, e.captured);
    ShapeSplits(b0.Side(isO), b0.Side(!isO), origin, landing, e.captured);
  }

  lemma {:induction false} MasksPlayable(m: MoveMap, b0: Board, isO: bool, origin: bv32)
    requires AllShaped(m, b0, isO, origin)
    ensures forall k | 0 <= k < |Masks(m)| :: Playable(b0, isO, Masks(m)[k])
    decreases |m|
  {
    if m != [] {
      var init, e := m[..|m| - 1], m[|m| - 1];
      assert forall j | 0 <= j < |init| :: init[j] == m[j];
      MasksPlayable(init, b0, isO, origin);
      ShapedPlayable(b0, isO, origin, e);
      var r := Masks(m);
      assert r == Masks(init) + [Mask(e)];
      forall k | 0 <= k < |r|
        ensures Playable(b0, isO, r[k])
      {
        if k < |r| - 1 {
          assert r[k] == Masks(init)[k];
        }
      }
    }
  }

  lemma {:induction false} MovesBelowPlayable(b: Board, isO: bool, n: bv32)
    requires n <= 32 && b.x & b.o == 0
    ensures forall k | 0 <= k < |MovesBelow(b, isO, n)| :: Playable(b, isO, MovesBelow(b, isO, n)[k])
  {
    if n != 0 {
      MovesBelowPlayable(b, isO, n - 1);
      var pos := Square(n - 1);
      if Has(b.Side(isO), pos) {
        PieceShaped(b, isO, pos);
        MasksPlayable(PieceMovesAt(b, pos), b, isO, pos);
      }
      var s, t := MovesBelow(b, isO, n - 1), SquareMoves(b, isO, pos);
      assert MovesBelow(b, isO, n) == s + t;
      forall k | 0 <= k < |s + t|
        ensures Playable(b, isO, (s + t)[k])
      {
        if k < |s| {
          assert (s + t)[k] == s[k];
        } else {
          assert (s + t)[k] == t[k - |s|];
        }
      }
    }
  }

  /**
   * Every mask `get_all_moves(board, is_o)` emits, on a board whose sides do
   * not overlap, is `origin | landing | captured` for a piece of side `isO` on
   * `origin`, a landing square that is empty or the origin, and opponent
   * pieces captured.
   */
  lemma AllMovesPlayable(b: Board, isO: bool)
    requires b.x & b.o == 0
    ensures forall k | 0 <= k < |AllMoves(b, isO)| :: Playable(b, isO, AllMoves(b, isO)[k])
  {
    MovesBelowPlayable(b, isO, 32);
  }

  /**
   * Every mask `get_all_moves` emits meets the mover's pieces in exactly one
   * square, the origin of the move.
   */
  lemma AllMovesMeetMoverOnce(b: Board, isO: bool)
    requires b.x & b.o == 0
    ensures forall k | 0 <= k < |AllMoves(b, isO)| :: IsSquare(AllMoves(b, isO)[k] & b.Side(isO))
  {
    AllMovesPlayable(b, isO);
  }

  lemma PlayableShape(b: Board, isO: bool, mv: bv32)
    requires Playable(b, isO, mv)
    ensures MoveShape(b, isO, mv & b.Side(isO), LandingIn(b.Side(isO), b.Side(!isO), mv), mv & b.Side(!isO))
  {
    PlayableParts(b.Side(isO), b.Side(!isO), mv);
    MoveShapeOfWords(b, isO, mv & b.Side(isO), LandingIn(b.Side(isO), b.Side(!isO), mv), mv & b.Side(!isO));
  }

  lemma PlayableParts(m: bv32, p: bv32, mv: bv32)
    requires PlayableWords(m, p, mv)
    ensures WordShape(m, p, mv & m, LandingIn(m, p, mv), mv & p)
  {
  }

  /** Playing a generated move keeps a valid position valid, with or without promotion. */
  lemma PlayableValid(b: Board, isO: bool, mv: bv32, promote: bool)
    requires b.Valid() && Playable(b, isO, mv)
    ensures Apply(b, mv, isO, promote).Valid()
  {
    PlayableShape(b, isO, mv);
    ApplyValid(b, isO, mv & b.Side(isO), LandingIn(b.Side(isO), b.Side(!isO), mv), mv & b.Side(!isO), promote);
  }

  /** Every move `get_all_moves` emits keeps a valid position valid. */
  lemma AllMovesKeepValid(b: Board, isO: bool, mv: bv32, promote: bool)
    requires b.Valid() && mv in AllMoves(b, isO)
    ensures Apply(b, mv, isO, promote).Valid()
  {
    AllMovesPlayable(b, isO);
    var k :| 0 <= k < |AllMoves(b, isO)| && AllMoves(b, isO)[k] == mv;
    PlayableValid(b, isO, mv, promote);
  }
}
