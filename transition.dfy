/**
 * Applying a move mask to a board (`PlayerAI::simulate_move`).
 */
module Transition {
  import opened Layout

  /** The squares of the mask that the opponent occupies: the captured pieces. */
  function Captured(mv: bv32, opponent: bv32): bv32
  {
    mv & opponent
  }

  /** The rest of the mask: origin and landing square. */
  function Steps(mv: bv32, captured: bv32): bv32
  {
    mv & !captured
  }

  /** The mover's word: toggled by the steps unless they all belong to it already. */
  function MoverAfter(mover: bv32, steps: bv32): bv32
  {
    if steps & !mover != 0 then mover ^ steps else mover
  }

  /** The opponent's word without the captured pieces. */
  function Remaining(opponent: bv32, captured: bv32): bv32
  {
    opponent & !captured
  }

  /**
   * The king flags: captured pieces lose theirs, and when the steps hold
   * both a flagged and an unflagged square the flags of the steps toggle,
   * so that a king's flag follows its piece.
   */
  function KingsAfter(kings: bv32, captured: bv32, steps: bv32): bv32
  {
    var kept := kings & !captured;
    if kept & steps != 0 && steps & !kept != 0 then kept ^ steps else kept
  }

  /** Promotion: every X piece on row 0 and every O piece on row 7 is crowned. */
  function Crown(x: bv32, o: bv32, kings: bv32): bv32
  {
    kings | (x & O_BACK_RANK) | (o & X_BACK_RANK)
  }

  /**
   * The board after side `isO` plays the move mask `mv` (origin, landing
   * square and captured squares), crowning pieces on the far rows when
   * `promote` is set.
   */
  function Apply(b: Board, mv: bv32, isO: bool, promote: bool): Board
  {
    var captured := Captured(mv, b.Side(!isO));
    var steps := Steps(mv, captured);
    var mover := MoverAfter(b.Side(isO), steps);
    var opponent := Remaining(b.Side(!isO), captured);
    var kings := KingsAfter(b.kings, captured, steps);
    var x := if isO then opponent else mover;
    var o := if isO then mover else opponent;
    Board(x, o, if promote then Crown(x, o, kings) else kings)
  }

  /** The words of `Apply`, one per role. */
  lemma ApplyWords(b: Board, mv: bv32, isO: bool, promote: bool)
    ensures var r := Apply(b, mv, isO, promote);
            var captured := Captured(mv, b.Side(!isO));
            r.Side(isO) == MoverAfter(b.Side(isO), Steps(mv, captured)) &&
            r.Side(!isO) == Remaining(b.Side(!isO), captured)
  {
  }

  lemma ApplyKingsWord(b: Board, mv: bv32, isO: bool)
    ensures var captured := Captured(mv, b.Side(!isO));
            Apply(b, mv, isO, false).kings == KingsAfter(b.kings, captured, Steps(mv, captured))
  {
  }

  lemma SidesSplit(b: Board, isO: bool)
    ensures b.Side(isO) | b.Side(!isO) == b.Occupied()
    ensures b.Side(isO) & b.Side(!isO) == b.x & b.o
  {
  }

  /**
   * A move of the shape the generator builds: the piece on `origin` lands
   * on `landing` (an empty square, or the origin itself when a capture
   * sequence comes back to where it started) and takes the opponent
   * pieces `caps`.
   */
  predicate MoveShape(b: Board, isO: bool, origin: bv32, landing: bv32, caps: bv32)
  {
    b.x & b.o == 0 && IsSquare(origin) && origin & !b.Side(isO) == 0 && landing != 0 &&
    (landing == origin || landing & b.Occupied() == 0) && caps & !b.Side(!isO) == 0
  }

  // Facts about single words, free of the functions above.

  lemma SquareInOrOut(p: bv32, w: bv32)
    requires IsSquare(p)
    ensures p & w == 0 || p & !w == 0
  {
  }

  lemma JumpWords(w: bv32, origin: bv32, landing: bv32)
    requires origin & !w == 0 && landing != 0 && landing & w == 0
    ensures (origin | landing) & !w != 0
    ensures w ^ (origin | landing) == (w & !origin) | landing
  {
  }

  lemma StayWords(w: bv32, origin: bv32, landing: bv32)
    requires origin & !w == 0 && landing == origin
    ensures (origin | landing) & !w == 0
    ensures w == (w & !origin) | landing
  {
  }

  lemma JumpParts(mover: bv32, opp: bv32, mv: bv32, origin: bv32, landing: bv32, caps: bv32)
    requires mv == origin | landing | caps
    requires mover & opp == 0 && origin & !mover == 0 && caps & !opp == 0
    requires landing & (mover | opp) == 0
    ensures mv & opp == caps
    ensures mv & !caps == origin | landing
  {
  }

  lemma StayParts(mover: bv32, opp: bv32, mv: bv32, origin: bv32, landing: bv32, caps: bv32)
    requires mv == origin | landing | caps && landing == origin
    requires mover & opp == 0 && origin & !mover == 0 && caps & !opp == 0
    ensures mv & opp == caps
    ensures mv & !caps == origin | landing
  {
  }

  lemma ShapeJump(b: Board, isO: bool, origin: bv32, landing: bv32, caps: bv32)
    requires MoveShape(b, isO, origin, landing, caps)
    requires landing != origin
    ensures var mv := origin | landing | caps;
            mv & b.Side(!isO) == caps && mv & !caps == origin | landing
  {
    SidesSplit(b, isO);
    JumpParts(b.Side(isO), b.Side(!isO), origin | landing | caps, origin, landing, caps);
  }

  lemma ShapeStay(b: Board, isO: bool, origin: bv32, landing: bv32, caps: bv32)
    requires MoveShape(b, isO, origin, landing, caps)
    requires landing == origin
    ensures var mv := origin | landing | caps;
            mv & b.Side(!isO) == caps && mv & !caps == origin | landing
  {
    SidesSplit(b, isO);
    StayParts(b.Side(isO), b.Side(!isO), origin | landing | caps, origin, landing, caps);
  }

  lemma ShapeWords(b: Board, isO: bool, origin: bv32, landing: bv32, caps: bv32)
    requires MoveShape(b, isO, origin, landing, caps)
    ensures var mv := origin | landing | caps;
            mv & b.Side(!isO) == caps && mv & !caps == origin | landing
  {
    if landing == origin {
      ShapeStay(b, isO, origin, landing, caps);
    } else {
      ShapeJump(b, isO, origin, landing, caps);
    }
  }

  /** A generator-shaped mask captures exactly `caps`... */
  lemma ShapeCaptured(b: Board, isO: bool, origin: bv32, landing: bv32, caps: bv32)
    requires MoveShape(b, isO, origin, landing, caps)
    ensures Captured(origin | landing | caps, b.Side(!isO)) == caps
  {
    ShapeWords(b, isO, origin, landing, caps);
  }

  /** ...and steps from `origin` to `landing`. */
  lemma ShapeSteps(b: Board, isO: bool, origin: bv32, landing: bv32, caps: bv32)
    requires MoveShape(b, isO, origin, landing, caps)
    ensures Steps(origin | landing | caps, caps) == origin | landing
  {
    ShapeWords(b, isO, origin, landing, caps);
  }

  lemma MoverJumps(mover: bv32, origin: bv32, landing: bv32)
    requires origin & !mover == 0 && landing != 0 && landing & mover == 0
    ensures MoverAfter(mover, origin | landing) == (mover & !origin) | landing
  {
    JumpWords(mover, origin, landing);
  }

  lemma MoverStays(mover: bv32, origin: bv32, landing: bv32)
    requires origin & !mover == 0 && landing == origin
    ensures MoverAfter(mover, origin | landing) == (mover & !origin) | landing
  {
    StayWords(mover, origin, landing);
  }

  lemma LandingOff(b: Board, isO: bool, landing: bv32)
    requires landing & b.Occupied() == 0
    ensures landing & b.Side(isO) == 0
  {
    SidesSplit(b, isO);
  }

  lemma MoverWord(b: Board, isO: bool, mover: bv32, origin: bv32, landing: bv32, caps: bv32)
    requires MoveShape(b, isO, origin, landing, caps)
    requires mover == b.Side(isO)
    ensures Apply(b, origin | landing | caps, isO, false).Side(isO) == MoverAfter(mover, origin | landing)
  {
    var mv := origin | landing | caps;
    ShapeCaptured(b, isO, origin, landing, caps);
    ShapeSteps(b, isO, origin, landing, caps);
    ApplyWords(b, mv, isO, false);
  }

  lemma ApplyMoverJump(b: Board, isO: bool, mover: bv32, origin: bv32, landing: bv32, caps: bv32)
    requires MoveShape(b, isO, origin, landing, caps)
    requires mover == b.Side(isO) && landing != origin
    ensures Apply(b, origin | landing | caps, isO, false).Side(isO) == (mover & !origin) | landing
  {
    MoverWord(b, isO, mover, origin, landing, caps);
    LandingOff(b, isO, landing);
    MoverJumps(mover, origin, landing);
  }

  lemma ApplyMoverStay(b: Board, isO: bool, mover: bv32, origin: bv32, landing: bv32, caps: bv32)
    requires MoveShape(b, isO, origin, landing, caps)
    requires mover == b.Side(isO) && landing == origin
    ensures Apply(b, origin | landing | caps, isO, false).Side(isO) == (mover & !origin) | landing
  {
    MoverWord(b, isO, mover, origin, landing, caps);
    MoverStays(mover, origin, landing);
  }

  lemma MoverMoves(b: Board, isO: bool, mover: bv32, origin: bv32, landing: bv32, caps: bv32)
    requires MoveShape(b, isO, origin, landing, caps)
    requires mover == b.Side(isO)
    ensures Apply(b, origin | landing | caps, isO, false).Side(isO) == (mover & !origin) | landing
  {
    if landing == origin {
      ApplyMoverStay(b, isO, mover, origin, landing, caps);
    } else {
      ApplyMoverJump(b, isO, mover, origin, landing, caps);
    }
  }

  /** The mover's piece goes from `origin` to `landing`; its other pieces stay. */
  lemma ApplyMover(b: Board, isO: bool, origin: bv32, landing: bv32, caps: bv32)
    requires MoveShape(b, isO, origin, landing, caps)
    ensures Apply(b, origin | landing | caps, isO, false).Side(isO) == (b.Side(isO) & !origin) | landing
  {
    MoverMoves(b, isO, b.Side(isO), origin, landing, caps);
  }

  lemma RemainingWord(opp: bv32, mv: bv32)
    ensures opp & !(mv & opp) == opp & !mv
  {
  }

  /** The opponent loses exactly the squares of the mask it occupied, and gains none. */
  lemma ApplyOpponent(b: Board, mv: bv32, isO: bool, promote: bool)
    ensures Apply(b, mv, isO, promote).Side(!isO) == b.Side(!isO) & !mv
  {
    ApplyWords(b, mv, isO, promote);
    RemainingWord(b.Side(!isO), mv);
  }

  // King flags.

  /** `MoveShape` and `Valid` in terms of the mover's and the opponent's words. */
  lemma ShapeOfWords(b: Board, isO: bool, mover: bv32, opp: bv32, origin: bv32, landing: bv32, caps: bv32)
    requires MoveShape(b, isO, origin, landing, caps)
    requires mover == b.Side(isO) && opp == b.Side(!isO)
    ensures mover & opp == 0 && origin & !mover == 0 && caps & !opp == 0
    ensures landing == origin || landing & (mover | opp) == 0
  {
    SidesSplit(b, isO);
  }

  lemma ValidOfWords(b: Board, isO: bool, mover: bv32, opp: bv32)
    requires b.Valid()
    requires mover == b.Side(isO) && opp == b.Side(!isO)
    ensures b.kings & !(mover | opp) == 0
  {
    SidesSplit(b, isO);
  }

  lemma JumpFacts(mover: bv32, opp: bv32, kings: bv32, origin: bv32, landing: bv32, caps: bv32)
    requires mover & opp == 0 && kings & !(mover | opp) == 0
    requires origin & !mover == 0 && caps & !opp == 0 && landing & (mover | opp) == 0
    ensures caps & origin == 0 && landing & kings == 0
  {
  }

  lemma StayFacts(mover: bv32, opp: bv32, origin: bv32, caps: bv32)
    requires mover & opp == 0 && origin & !mover == 0 && caps & !opp == 0
    ensures caps & origin == 0
  {
  }

  lemma KingJumpKept(kings: bv32, caps: bv32, origin: bv32, landing: bv32)
    requires origin != 0 && origin & !kings == 0 && caps & origin == 0
    ensures (kings & !caps) & (origin | landing) != 0
  {
  }

  lemma KingJumpLanding(kings: bv32, caps: bv32, origin: bv32, landing: bv32)
    requires landing != 0 && landing & kings == 0
    ensures (origin | landing) & !(kings & !caps) != 0
  {
  }

  lemma KingJumpWord(kings: bv32, caps: bv32, origin: bv32, landing: bv32)
    requires origin & !kings == 0 && caps & origin == 0 && landing & kings == 0
    ensures (kings & !caps) ^ (origin | landing) == (kings & !caps & !origin) | landing
  {
  }

  lemma KingJumps(kings: bv32, caps: bv32, origin: bv32, landing: bv32)
    requires origin != 0 && origin & !kings == 0 && caps & origin == 0
    requires landing != 0 && landing & kings == 0
    ensures KingsAfter(kings, caps, origin | landing) == (kings & !caps & !origin) | landing
  {
    KingJumpKept(kings, caps, origin, landing);
    KingJumpLanding(kings, caps, origin, landing);
    KingJumpWord(kings, caps, origin, landing);
  }

  lemma KingStayCovered(kings: bv32, caps: bv32, origin: bv32, landing: bv32)
    requires landing == origin && origin & !kings == 0 && caps & origin == 0
    ensures (origin | landing) & !(kings & !caps) == 0
  {
  }

  lemma KingStayWord(kings: bv32, caps: bv32, origin: bv32, landing: bv32)
    requires landing == origin && origin & !kings == 0 && caps & origin == 0
    ensures kings & !caps == (kings & !caps & !origin) | landing
  {
  }

  lemma ManOff(kings: bv32, origin: bv32, landing: bv32)
    requires origin & kings == 0 && (landing == origin || landing & kings == 0)
    ensures (origin | landing) & kings == 0
  {
  }

  lemma KingStays(kings: bv32, caps: bv32, origin: bv32, landing: bv32)
    requires landing == origin && origin & !kings == 0 && caps & origin == 0
    ensures KingsAfter(kings, caps, origin | landing) == (kings & !caps & !origin) | landing
  {
    KingStayCovered(kings, caps, origin, landing);
    KingStayWord(kings, caps, origin, landing);
  }

  lemma ManMoveOff(kings: bv32, caps: bv32, origin: bv32, landing: bv32)
    requires (origin | landing) & kings == 0
    ensures (kings & !caps) & (origin | landing) == 0
  {
  }

  lemma ManMoves(kings: bv32, caps: bv32, origin: bv32, landing: bv32)
    requires (origin | landing) & kings == 0
    ensures KingsAfter(kings, caps, origin | landing) == kings & !caps
  {
    ManMoveOff(kings, caps, origin, landing);
  }

  /**
   * The king flags expected after the piece on `origin` lands on `landing`
   * taking `caps`: the captured flags are gone, and a king's flag has moved
   * from its origin to its landing square.
   */
  function KingsMoved(kings: bv32, origin: bv32, landing: bv32, caps: bv32): bv32
  {
    if kings & origin != 0 then (kings & !caps & !origin) | landing else kings & !caps
  }

  /** The king flags after a step whose squares are a king's origin and its landing. */
  lemma KingsFollow(kings: bv32, caps: bv32, origin: bv32, landing: bv32)
    requires IsSquare(origin) && caps & origin == 0 && landing != 0
    requires landing == origin || landing & kings == 0
    ensures KingsAfter(kings, caps, origin | landing) == KingsMoved(kings, origin, landing, caps)
  {
    SquareInOrOut(origin, kings);
    if kings & origin != 0 {
      if landing == origin {
        KingStays(kings, caps, origin, landing);
      } else {
        KingJumps(kings, caps, origin, landing);
      }
    } else {
      ManOff(kings, origin, landing);
      ManMoves(kings, caps, origin, landing);
    }
  }

  lemma KingsWord(b: Board, isO: bool, kings: bv32, origin: bv32, landing: bv32, caps: bv32)
    requires MoveShape(b, isO, origin, landing, caps)
    requires kings == b.kings
    ensures Apply(b, origin | landing | caps, isO, false).kings == KingsAfter(kings, caps, origin | landing)
  {
    var mv := origin | landing | caps;
    ShapeCaptured(b, isO, origin, landing, caps);
    ShapeSteps(b, isO, origin, landing, caps);
    ApplyKingsWord(b, mv, isO);
  }

  lemma KingsMove(b: Board, isO: bool, kings: bv32, mover: bv32, opp: bv32,
                  origin: bv32, landing: bv32, caps: bv32)
    requires b.Valid() && MoveShape(b, isO, origin, landing, caps)
    requires kings == b.kings && mover == b.Side(isO) && opp == b.Side(!isO)
    ensures Apply(b, origin | landing | caps, isO, false).kings == KingsMoved(kings, origin, landing, caps)
  {
    ShapeOfWords(b, isO, mover, opp, origin, landing, caps);
    ValidOfWords(b, isO, mover, opp);
    if landing == origin {
      StayFacts(mover, opp, origin, caps);
    } else {
      JumpFacts(mover, opp, kings, origin, landing, caps);
    }
    KingsWord(b, isO, kings, origin, landing, caps);
    KingsFollow(kings, caps, origin, landing);
  }

  /**
   * Without promotion, the captured pieces lose their king flags, a king's
   * flag moves with it from `origin` to `landing`, and no other flag
   * changes.
   */
  lemma ApplyKings(b: Board, isO: bool, origin: bv32, landing: bv32, caps: bv32)
    requires b.Valid() && MoveShape(b, isO, origin, landing, caps)
    ensures Apply(b, origin | landing | caps, isO, false).kings == KingsMoved(b.kings, origin, landing, caps)
  {
    KingsMove(b, isO, b.kings, b.Side(isO), b.Side(!isO), origin, landing, caps);
  }

  lemma LoopWord(b: Board, isO: bool, mover: bv32, origin: bv32, landing: bv32, caps: bv32)
    requires MoveShape(b, isO, origin, landing, caps)
    requires mover == b.Side(isO) && landing == origin
    ensures Apply(b, origin | landing | caps, isO, false).Side(isO) == mover
  {
    MoverMoves(b, isO, mover, origin, landing, caps);
    StayWords(mover, origin, landing);
  }

  /** A capture sequence that ends on its origin leaves the mover's word as it was. */
  lemma ApplyLoopKeepsMover(b: Board, isO: bool, origin: bv32, caps: bv32)
    requires MoveShape(b, isO, origin, origin, caps)
    ensures Apply(b, origin | origin | caps, isO, false).Side(isO) == b.Side(isO)
  {
    LoopWord(b, isO, b.Side(isO), origin, origin, caps);
  }

  // Promotion.

  lemma PromoteX(b: Board, mv: bv32, isO: bool)
    ensures Apply(b, mv, isO, true).x == Apply(b, mv, isO, false).x
  {
  }

  lemma PromoteO(b: Board, mv: bv32, isO: bool)
    ensures Apply(b, mv, isO, true).o == Apply(b, mv, isO, false).o
  {
  }

  lemma PromoteKings(b: Board, mv: bv32, isO: bool)
    ensures var s := Apply(b, mv, isO, false);
            Apply(b, mv, isO, true).kings == Crown(s.x, s.o, s.kings)
  {
  }

  lemma CrownWords(x: bv32, o: bv32, kings: bv32)
    ensures x & O_BACK_RANK & !Crown(x, o, kings) == 0
    ensures o & X_BACK_RANK & !Crown(x, o, kings) == 0
    ensures kings & !Crown(x, o, kings) == 0
  {
  }

  /**
   * With promotion the pieces stand where they stand without it; every X
   * piece on row 0 and every O piece on row 7 is a king, and every king
   * stays one.
   */
  lemma ApplyPromotes(b: Board, mv: bv32, isO: bool)
    ensures var r := Apply(b, mv, isO, true);
            var s := Apply(b, mv, isO, false);
            r.x == s.x && r.o == s.o && r.kings == Crown(s.x, s.o, s.kings) &&
            r.x & O_BACK_RANK & !r.kings == 0 && r.o & X_BACK_RANK & !r.kings == 0
  {
    var s := Apply(b, mv, isO, false);
    PromoteX(b, mv, isO);
    PromoteO(b, mv, isO);
    PromoteKings(b, mv, isO);
    CrownWords(s.x, s.o, s.kings);
  }

  // Validity.

  lemma LandingOffOpponent(mover: bv32, opp: bv32, origin: bv32, landing: bv32)
    requires mover & opp == 0 && origin & !mover == 0
    requires landing == origin || landing & (mover | opp) == 0
    ensures landing & opp == 0
  {
  }

  lemma SidesAfterWords(mover: bv32, opp: bv32, origin: bv32, landing: bv32, mv: bv32, m: bv32, p: bv32)
    requires m == (mover & !origin) | landing && p == opp & !mv
    requires mv & landing == landing && mover & opp == 0
    ensures m & p == 0
  {
  }

  lemma KingAfterWords(mover: bv32, opp: bv32, kings: bv32, origin: bv32, landing: bv32, caps: bv32,
                       mv: bv32, m: bv32, p: bv32, k: bv32)
    requires m == (mover & !origin) | landing && p == opp & !mv
    requires k == (kings & !caps & !origin) | landing
    requires mv == origin | landing | caps
    requires kings & !(mover | opp) == 0 && landing & opp == 0 && origin & !mover == 0
    ensures k & !(m | p) == 0
  {
  }

  lemma ManAfterWords(mover: bv32, opp: bv32, kings: bv32, origin: bv32, landing: bv32, caps: bv32,
                      mv: bv32, m: bv32, p: bv32, k: bv32)
    requires m == (mover & !origin) | landing && p == opp & !mv
    requires k == kings & !caps
    requires mv == origin | landing | caps
    requires kings & !(mover | opp) == 0 && landing & opp == 0 && origin & !mover == 0
    requires origin & kings == 0
    ensures k & !(m | p) == 0
  {
  }

  lemma KingMovedIs(kings: bv32, origin: bv32, landing: bv32, caps: bv32)
    requires kings & origin != 0
    ensures KingsMoved(kings, origin, landing, caps) == (kings & !caps & !origin) | landing
  {
  }

  lemma ManMovedIs(kings: bv32, origin: bv32, landing: bv32, caps: bv32)
    requires kings & origin == 0
    ensures KingsMoved(kings, origin, landing, caps) == kings & !caps
  {
  }

  lemma KingsMovedCovered(mover: bv32, opp: bv32, kings: bv32, origin: bv32, landing: bv32, caps: bv32,
                          mv: bv32, m: bv32, p: bv32, k: bv32)
    requires m == (mover & !origin) | landing && p == opp & !mv
    requires k == KingsMoved(kings, origin, landing, caps)
    requires mv == origin | landing | caps && IsSquare(origin)
    requires kings & !(mover | opp) == 0 && landing & opp == 0 && origin & !mover == 0
    ensures k & !(m | p) == 0
  {
    SquareInOrOut(origin, kings);
    if kings & origin != 0 {
      KingMovedIs(kings, origin, landing, caps);
      KingAfterWords(mover, opp, kings, origin, landing, caps, mv, m, p, k);
    } else {
      ManMovedIs(kings, origin, landing, caps);
      ManAfterWords(mover, opp, kings, origin, landing, caps, mv, m, p, k);
    }
  }

  lemma MaskHoldsLanding(origin: bv32, landing: bv32, caps: bv32, mv: bv32)
    requires mv == origin | landing | caps
    ensures mv & landing == landing
  {
  }

  lemma ValidFromWords(r: Board, isO: bool, m: bv32, p: bv32)
    requires r.Side(isO) == m && r.Side(!isO) == p
    requires m & p == 0 && r.kings & !(m | p) == 0
    ensures r.Valid()
  {
    SidesSplit(r, isO);
  }

  lemma OpponentAfter(b: Board, mv: bv32, isO: bool, opp: bv32)
    requires opp == b.Side(!isO)
    ensures Apply(b, mv, isO, false).Side(!isO) == opp & !mv
  {
    ApplyOpponent(b, mv, isO, false);
  }

  lemma ShapeWordFacts(b: Board, isO: bool, mover: bv32, opp: bv32, origin: bv32, landing: bv32, caps: bv32)
    requires b.Valid() && MoveShape(b, isO, origin, landing, caps)
    requires mover == b.Side(isO) && opp == b.Side(!isO)
    ensures mover & opp == 0 && origin & !mover == 0 && IsSquare(origin)
    ensures b.kings & !(mover | opp) == 0 && landing & opp == 0
  {
    ShapeOfWords(b, isO, mover, opp, origin, landing, caps);
    ValidOfWords(b, isO, mover, opp);
    LandingOffOpponent(mover, opp, origin, landing);
  }

  lemma CoverWords(mover: bv32, opp: bv32, kings: bv32, origin: bv32, landing: bv32, caps: bv32,
                   mv: bv32, m: bv32, p: bv32, k: bv32)
    requires m == (mover & !origin) | landing && p == opp & !mv
    requires k == KingsMoved(kings, origin, landing, caps)
    requires mv == origin | landing | caps && IsSquare(origin) && mover & opp == 0
    requires kings & !(mover | opp) == 0 && landing & opp == 0 && origin & !mover == 0
    ensures m & p == 0 && k & !(m | p) == 0
  {
    MaskHoldsLanding(origin, landing, caps, mv);
    SidesAfterWords(mover, opp, origin, landing, mv, m, p);
    KingsMovedCovered(mover, opp, kings, origin, landing, caps, mv, m, p, k);
  }

  lemma ValidWord(b: Board, isO: bool, mover: bv32, opp: bv32, kings: bv32,
                  origin: bv32, landing: bv32, caps: bv32)
    requires b.Valid() && MoveShape(b, isO, origin, landing, caps)
    requires mover == b.Side(isO) && opp == b.Side(!isO) && kings == b.kings
    ensures Apply(b, origin | landing | caps, isO, false).Valid()
  {
    var mv := origin | landing | caps;
    var m := (mover & !origin) | landing;
    var p := opp & !mv;
    var k := KingsMoved(kings, origin, landing, caps);
    MoverMoves(b, isO, mover, origin, landing, caps);
    OpponentAfter(b, mv, isO, opp);
    KingsMove(b, isO, kings, mover, opp, origin, landing, caps);
    ShapeWordFacts(b, isO, mover, opp, origin, landing, caps);
    CoverWords(mover, opp, kings, origin, landing, caps, mv, m, p, k);
    ValidFromWords(Apply(b, mv, isO, false), isO, m, p);
  }

  lemma CrownCovered(x: bv32, o: bv32, kings: bv32, c: bv32)
    requires c == Crown(x, o, kings) && kings & !(x | o) == 0
    ensures c & !(x | o) == 0
  {
  }

  lemma ValidFromParts(r: Board, x: bv32, o: bv32, k: bv32)
    requires r.x == x && r.o == o && r.kings == k
    requires x & o == 0 && k & !(x | o) == 0
    ensures r.Valid()
  {
  }

  lemma PromotedValid(b: Board, mv: bv32, isO: bool, x: bv32, o: bv32, kings: bv32, c: bv32)
    requires Apply(b, mv, isO, false) == Board(x, o, kings) && c == Crown(x, o, kings)
    requires x & o == 0 && kings & !(x | o) == 0
    ensures Apply(b, mv, isO, true).Valid()
  {
    PromoteX(b, mv, isO);
    PromoteO(b, mv, isO);
    PromoteKings(b, mv, isO);
    CrownCovered(x, o, kings, c);
    ValidFromParts(Apply(b, mv, isO, true), x, o, c);
  }

  /** A generator-shaped move keeps a valid board valid, with or without promotion. */
  lemma ApplyValid(b: Board, isO: bool, origin: bv32, landing: bv32, caps: bv32, promote: bool)
    requires b.Valid() && MoveShape(b, isO, origin, landing, caps)
    ensures Apply(b, origin | landing | caps, isO, promote).Valid()
  {
    ValidWord(b, isO, b.Side(isO), b.Side(!isO), b.kings, origin, landing, caps);
    if promote {
      var s := Apply(b, origin | landing | caps, isO, false);
      PromotedValid(b, origin | landing | caps, isO, s.x, s.o, s.kings, Crown(s.x, s.o, s.kings));
    }
  }

  /** `Apply` in terms of the words a caller has read out of the board array. */
  lemma ApplyIs(b: Board, mv: bv32, isO: bool, promote: bool, mover: bv32, opponent: bv32, kings: bv32,
                x: bv32, o: bv32, k: bv32)
    requires mover == b.Side(isO) && opponent == b.Side(!isO) && kings == b.kings
    requires var m := MoverAfter(mover, Steps(mv, Captured(mv, opponent)));
             var p := Remaining(opponent, Captured(mv, opponent));
             x == (if isO then p else m) && o == (if isO then m else p)
    requires var kk := KingsAfter(kings, Captured(mv, opponent), Steps(mv, Captured(mv, opponent)));
             k == if promote then Crown(x, o, kk) else kk
    ensures Apply(b, mv, isO, promote) == Board(x, o, k)
  {
  }

  /**
   * `simulate_move`: writes into `newBoard` the board `board` becomes when
   * side `isO` plays `mv`, slot by slot in the order the engine does: the
   * mover's word, the opponent's word, the king flags, then the promotion,
   * which reads the new words back. The engine's copy-then-toggle of the
   * mover's word and of the flags is one assignment each here, through
   * `MoverAfter` and `KingsAfter`. No step reads a slot of `board` that an
   * earlier step changed, so the result is the same when the two arrays are
   * one and the same, as when the engine plays its chosen move in place.
   */
  method SimulateMove(board: array<bv32>, newBoard: array<bv32>, mv: bv32, isO: bool, promote: bool)
    requires board.Length == 3 && newBoard.Length == 3
    modifies newBoard
    ensures newBoard[..] == Slots(Apply(FromSlots(old(board[..])), mv, isO, promote))
  {
    ghost var b := FromSlots(board[..]);
    var me := if isO then 1 else 0;
    var them := if isO then 0 else 1;
    ghost var mover, opponent, kings := board[me], board[them], board[2];
    var captures := Captured(mv, board[them]);
    var steps := Steps(mv, captures);
    SimulatedWordsAre(b, mv, isO, mover, opponent, kings, captures, steps);
    ghost var m, p, kept := MoverAfter(mover, steps), Remaining(opponent, captures), KingsAfter(kings, captures, steps);
    newBoard[me] := MoverAfter(board[me], steps);
    assert newBoard[me] == m && board[them] == opponent && board[2] == kings;
    newBoard[them] := Remaining(board[them], captures);
    assert newBoard[me] == m && newBoard[them] == p && board[2] == kings;
    newBoard[2] := KingsAfter(board[2], captures, steps);
    assert newBoard[me] == m && newBoard[them] == p && newBoard[2] == kept;
    if promote {
      newBoard[2] := Crown(newBoard[0], newBoard[1], newBoard[2]);
    }
    SimulatedSlots(b, mv, isO, promote, m, p, kept, newBoard[..]);
  }

  /** The mover's word, the opponent's word and the king flags before promotion, after `mv`. */
  function SimulatedWords(b: Board, mv: bv32, isO: bool): (bv32, bv32, bv32)
  {
    var captured := Captured(mv, b.Side(!isO));
    var steps := Steps(mv, captured);
    (MoverAfter(b.Side(isO), steps), Remaining(b.Side(!isO), captured), KingsAfter(b.kings, captured, steps))
  }

  lemma SimulatedWordsAre(b: Board, mv: bv32, isO: bool, mover: bv32, opponent: bv32, kings: bv32,
                          captures: bv32, steps: bv32)
    requires mover == b.Side(isO) && opponent == b.Side(!isO) && kings == b.kings
    requires captures == Captured(mv, opponent) && steps == Steps(mv, captures)
    ensures SimulatedWords(b, mv, isO) ==
            (MoverAfter(mover, steps), Remaining(opponent, captures), KingsAfter(kings, captures, steps))
  {
  }

  /** The three slots `SimulateMove` writes, as the words of `Apply`. */
  lemma SimulatedSlots(b: Board, mv: bv32, isO: bool, promote: bool, m: bv32, p: bv32, kept: bv32, s: seq<bv32>)
    requires (m, p, kept) == SimulatedWords(b, mv, isO) && |s| == 3
    requires s[if isO then 1 else 0] == m && s[if isO then 0 else 1] == p
    requires s[2] == if promote then Crown(s[0], s[1], kept) else kept
    ensures s == Slots(Apply(b, mv, isO, promote))
  {
    ApplyIs(b, mv, isO, promote, b.Side(isO), b.Side(!isO), b.kings, s[0], s[1], s[2]);
  }
}
