# Checkers bitboard engine and rule helpers, in Dafny

This project models the core of a console checkers game in C++. There are two parts:

- the computer player, `PlayerAI`, which does move generation, material evaluation, and minimax and alpha-beta search;
- the rule helpers that the game's human turn uses on the global board.

Both parts work on the same encoding. The 32 dark squares are the bits of a 32-bit word, and row `r` holds bits `4r .. 4r+3`. A position is three such words, `{x_board, o_board, kings}`, stored in that order. The datatype `Layout.Board` carries them.

The modules follow the source:

- `Layout`: the header's masks, the board layout and the result pair.
- `Geometry`: the diagonal step `move`, which both source files define with the same body.
- `Material`: `bitsize` and `evaluate`.
- `Transition`: `simulate_move`.
- `Generator`: both `get_piece_moves` and `get_all_moves`.
- `Legality`: what the masks of `get_all_moves` look like, and why playing them keeps a position valid.
- `Completeness`: what `get_piece_moves` does not miss: no key is ever dropped, and every quiet step and every accepted capture chain is recorded.
- `Search`: the recursive searches, as functions.
- `Engine`: the class `PlayerAI`, with its board array and its methods.
- `Findings`: the searches as written, where they read an uninitialised move.
- `Rules`: the globals of `main.cpp` as the class `Game`, with its helpers.

Code that changes state in place is modelled as methods proved against the functions above:

- `simulate_move`, which writes an array that may alias its input;
- the loops of `bitsize`, `get_piece_moves`, `get_all_moves` and the searches;
- `update`, `minimax(depth, max)`, `alphabeta(depth, max)` and `next_move`;
- `add_piece`, `remove_piece`, `available_captures`, `has_move`, `is_winner` and `change_turn`.

Scores are `int`. `FLT_MAX` is the sentinel `Search.INF = 1000`, and `Material.EvaluateBound` shows it lies outside every score `evaluate` can produce.

Where the code and its documented intent differ, the model follows the code:

- Captures are optional.
- A capture chain may stop on any landing square.
- Men are not crowned in the middle of a chain.
- `is_space` uses `+` rather than `|`.
- `minimax(depth, max)` and `alphabeta(depth, max)` call `simulate_move` even when the search found no move. The code then plays whatever `result.move` holds. The model plays the empty mask there (`Engine.MoveWord`), which only crowns (`Engine.PlayNothing`). The stale word the code reads is studied under "Findings".

## Model

| member | source | states |
|---|---|---|
| Layout.StartIsValid | main.cpp:20-22 | The opening position is valid, O holds rows 0-2 (bits 0-11), and X holds rows 5-7 (bits 20-31). |
| Layout.BackRanks | include/PlayerAI.h:34-35 | `O_BACK_RANK` is row 0, `X_BACK_RANK` is row 7, and the two do not meet. |
| Layout.EdgeColumns | include/PlayerAI.h:32-37 | `L_COL_MASK` lies within `EVEN_MASK`. `R_COL_MASK` does not meet `EVEN_MASK`. The two edge masks are disjoint. `EVEN_MASK` is rows 0, 2, 4 and 6. |
| Layout.SlotsRoundTrip | include/PlayerAI.h:14 | A three-slot array read as `{x, o, kings}` and written back is unchanged. |
| Layout.Slots | include/PlayerAI.h:39 | Writing a board into three slots and reading it back gives the same board. |
| Layout.SquareNext | main.cpp:173 | `pos <<= 1` goes from square `i` to square `i+1`, and falls off the word after square 31. |
| Geometry.Shift | src/PlayerAI.cpp:264-272 | The shift that `move` computes is always 3, 4 or 5. |
| Geometry.MoveIsShift | src/PlayerAI.cpp:262-283 | Off the forbidden edge column, a step is `pos << shift` when the shift direction is up (`o_turn == forward`) and `pos >> shift` otherwise, with the computed shift. |
| Geometry.MoveSquare | src/PlayerAI.cpp:262-283 | A single square steps to a single square or to 0. |
| Geometry.MoveOffBoard | src/PlayerAI.cpp:274-280 | A step returns 0 exactly when the edge column forbids it or when it would leave the top or the bottom row. |
| Geometry.MoveBack | src/PlayerAI.cpp:264-282 | If `move(p,l,f,s) = q != 0`, then `move(q,!l,!f,s) = p`. |
| Geometry.MoveFlipsRowParity | src/PlayerAI.cpp:267-268 | Every step moves to a row of the other parity. |
| Geometry.JumpLeavesSquare | src/PlayerAI.cpp:196 | Two steps in one direction never come back to the start square. |
| Material.Bitsize | src/PlayerAI.cpp:285-292 | The shifting loop returns the number of set bits. |
| Material.PopCountAllBits | src/PlayerAI.cpp:285-292 | Counting from the low end by shifting agrees with counting over all 32 bit positions. |
| Material.PopCountZero | src/PlayerAI.cpp:285-292 | `bitsize(n) = 0` exactly when `n = 0`, and it is never above 32. |
| Material.PopCountDisjointUnion | src/PlayerAI.cpp:285-292 | The count of the union of two disjoint words is the sum of their counts. |
| Material.PopCountProperSubset | src/PlayerAI.cpp:285-292 | A proper subset of the bits has strictly fewer bits. |
| Material.MenAndKingsPartition | src/PlayerAI.cpp:165-168 | The men (`side & ~kings`) and the kings (`side & kings`) of a side are disjoint and make up the side. |
| Material.PopCountSplit | src/PlayerAI.cpp:165-168 | The counts of a side's men and kings add up to the side's count. |
| Material.EvaluateBoard | src/PlayerAI.cpp:161-171 | `evaluate` is 3·(X men − O men) + 5·(X kings − O kings), counted with `bitsize`. |
| Material.EvaluateBound | src/PlayerAI.cpp:161-171 | Every score lies in [-160, 160], on any board. |
| Material.EvaluateSwap | src/PlayerAI.cpp:161-171 | Exchanging `board[0]` and `board[1]` negates the score. |
| Material.StartIsLevel | src/PlayerAI.cpp:161-171 | The starting position scores 0. |
| Transition.SimulateMove | src/PlayerAI.cpp:230-247 | The slots are written in the source's order: the mover's word, the opponent's word, the king flags, then the promotion. The new array holds the board after side `is_o` plays the mask. The result is the same when `new_board` is `board` itself. |
| Transition.ApplyOpponent | src/PlayerAI.cpp:232-239 | The opponent loses exactly the squares of the mask that it held, and gains none. |
| Transition.ApplyMover | src/PlayerAI.cpp:235-237 | For a generated move, the mover's board loses the origin and gains the landing square. Nothing else changes. |
| Transition.ApplyLoopKeepsMover | src/PlayerAI.cpp:236-237 | A chain that ends on its origin leaves the mover's board unchanged. |
| Transition.ApplyKings | src/PlayerAI.cpp:241-243 | Without promotion, the captured squares lose their flags and a king's flag moves from origin to landing. No other flag changes. |
| Transition.ApplyPromotes | src/PlayerAI.cpp:245-246 | With promotion, the pieces stand where they would without it. The flags are those of the move plus the crowning of both far rows, so every X piece on row 0 and every O piece on row 7 is a king. |
| Transition.ApplyValid | src/PlayerAI.cpp:230-247 | A generated move keeps a valid board valid, with or without promotion. |
| Generator.IndexOf | src/PlayerAI.cpp:206-207 | `find` returns the position of the key, or reports that no entry has it. |
| Generator.CapturesGrow | src/PlayerAI.cpp:198-204 | A jump over a piece not yet captured leaves fewer uncaptured squares, so the chain recursion terminates. |
| Generator.MergeEntryLookup | src/PlayerAI.cpp:206-210 | After one merge step, a new key takes the new value. An existing key takes it only when it holds strictly more captures. Every other key is unchanged. |
| Generator.MergeInto | src/PlayerAI.cpp:204-211 | The merge loop computes `Merge` of the recursive result into the map. |
| Generator.TryDirQuiet | src/PlayerAI.cpp:189-192 | With nothing captured yet, a step onto an empty neighbour records `pos \| new_pos ↦ 0`. |
| Generator.TryDirJump | src/PlayerAI.cpp:195-211 | A jump over a fresh opponent piece, onto an on-board landing that is empty or the origin, merges the chain continued on the board with the jump applied and one more capture. |
| Generator.TryDirStays | src/PlayerAI.cpp:187-213 | In every other case, the direction adds nothing. |
| Generator.ManDirections | src/PlayerAI.cpp:184-220 | A man tries forward-left, then forward-right, and nothing else. |
| Generator.KingDirections | src/PlayerAI.cpp:184-220 | A king tries all four directions: forward-left, forward-right, back-left, back-right. |
| Generator.TryDirection | src/PlayerAI.cpp:187-213 | The loop body for one direction computes `TryDir`. |
| Generator.FollowJump | src/PlayerAI.cpp:198-211 | A jump simulates the capture without promotion, recurses with the grown capture set and merges the result. |
| Generator.ScanDirections | src/PlayerAI.cpp:184-220 | The do-while loop over the directions computes `ScanDirs`. |
| Generator.GetPieceMoves | src/PlayerAI.cpp:173-223 | The recursive generator returns `PieceMoves` of the board. |
| Generator.GetPieceMovesAt | src/PlayerAI.cpp:225-228 | The two-argument form starts from the piece's own square with nothing captured. |
| Generator.PieceMovesChains | src/PlayerAI.cpp:181-210 | Every key holds the origin, every value holds the captures so far, and no key occurs twice. |
| Generator.PushMasks | src/PlayerAI.cpp:254-256 | The inner loop appends `key \| value` for every entry, in order. |
| Generator.GetAllMoves | src/PlayerAI.cpp:249-259 | The result is the masks of every mover piece, scanning bits 0 to 31. |
| Generator.AllMovesMeetMover | src/PlayerAI.cpp:249-259 | Every emitted mask meets the mover's board, so it is never 0. |
| Legality.PieceMovesShaped | src/PlayerAI.cpp:173-223 | Every entry found from a board reached along a capture chain is a move of the shape `simulate_move` expects, relative to the board the turn started from. The key is the origin and the landing square. The landing square is empty or the origin. The value holds only opponent pieces. |
| Legality.TryDirShaped | src/PlayerAI.cpp:187-213 | Each branch of one direction (quiet step, jump with the chain continued, nothing) keeps every entry of the map of that shape. |
| Legality.PieceShaped | src/PlayerAI.cpp:225-228 | On a board whose sides are disjoint, every entry `get_piece_moves` returns for a piece of the mover is of that shape. |
| Legality.AllMovesPlayable | src/PlayerAI.cpp:249-259 | On a board whose sides are disjoint, every mask `get_all_moves` emits is origin, landing square and captures. The origin is its part on the mover's board, the captures its part on the opponent's board, and the landing square the rest, or the origin when there is no rest. Together these have the shape `simulate_move` expects. |
| Legality.AllMovesMeetMoverOnce | src/PlayerAI.cpp:249-259 | On a board whose sides are disjoint, every emitted mask meets the mover's board in exactly one square, the origin. |
| Legality.AllMovesKeepValid | src/PlayerAI.cpp:230-259 | Playing any emitted mask, with or without promotion, keeps a valid position valid. |
| Completeness.PutKeys | src/PlayerAI.cpp:182 | `moves[k] = v` adds `k` to the map's keys and removes none. |
| Completeness.MergeEntryKeys | src/PlayerAI.cpp:206-210 | One step of the merge loop adds the entry's key and removes none, whether the entry is inserted, overwrites or loses. |
| Completeness.MergeKeys | src/PlayerAI.cpp:204-211 | After the merge loop the keys are exactly those of both maps. |
| Completeness.TryDirKeys | src/PlayerAI.cpp:187-213 | One pass of the do-while body keeps every key it had, and adds `pos \| new_pos` for a quiet step or every key of the continuation for an accepted jump. |
| Completeness.ScanDirsKeeps | src/PlayerAI.cpp:185-220 | The do-while loop keeps every key it starts with. |
| Completeness.ScanDirsVisits | src/PlayerAI.cpp:185-220 | The do-while loop records the keys of every direction it has still to visit: the two forward ones for a man, all four for a king. |
| Completeness.PieceMovesComplete | src/PlayerAI.cpp:173-222 | The map holds `pos \| origin` when `captures` is nonzero, and the keys of every direction the piece may move in. |
| Completeness.QuietMoveFound | src/PlayerAI.cpp:190-192 | Every quiet step of an uncaptured piece onto an empty on-board neighbour, in a direction it may move in, is a key of `get_piece_moves(board, pos)`. |
| Completeness.JumpKeysKept | src/PlayerAI.cpp:198-211 | For a jump the test accepts, every key of the continuation from the landing square is a key of the map from `pos`. |
| Completeness.JumpFound | src/PlayerAI.cpp:198-211 | Every jump the test accepts leaves `landing \| origin` as a key. |
| Completeness.ChainFound | src/PlayerAI.cpp:173-222 | Every capture chain of one or more jumps, each accepted by the jump test on the board the earlier jumps leave, ends on a landing square recorded under `origin \| landing`. |
| Completeness.ChainFoundAt | src/PlayerAI.cpp:225-228 | From a piece's own square, every such chain is a key of `get_piece_moves(board, pos)`. |
| Search.MinimaxShape | src/PlayerAI.cpp:27-75 | The score is one that `evaluate` can produce. A move is returned exactly when depth > 0 and the side to move has a move, and it is one of those moves. |
| Search.MinimaxLoopBest | src/PlayerAI.cpp:40-69 | If some child beats the start value, the loop ends on the best child score and the first move reaching it. Otherwise nothing changes. |
| Search.MinimaxChoosesFirstBest | src/PlayerAI.cpp:40-72 | Above the leaves and with a move, the node scores the best child score and keeps the first move in generation order that reaches it (`<` at :49, `>` at :64). |
| Search.ScoresInRange | src/PlayerAI.cpp:48 | Every child score is one that `evaluate` can produce. |
| Search.AlphaBetaShape | src/PlayerAI.cpp:83-139 | The same shape holds for alpha-beta, whatever the window. |
| Search.AlphaBetaFailSoft | src/PlayerAI.cpp:83-139 | For a window inside [-INF, INF], a score inside the window is the minimax score. A score at or below alpha bounds it from above, and one at or above beta from below. |
| Search.AlphaBetaRootLoop | src/PlayerAI.cpp:96-133 | From the full window, the loop narrows alpha or beta to `evalLimit` and never cuts off. It equals the minimax loop. |
| Search.AlphaBetaIsMinimax | src/PlayerAI.cpp:155-158 | With the full window, alpha-beta returns exactly what minimax returns, the move included. |
| Engine.PlayerAI.constructor | src/PlayerAI.cpp:12-15 | The board holds the given words, and both win flags are false. |
| Engine.PlayerAI.Update | src/PlayerAI.cpp:141-149 | The three words go to slots x, o, kings, and the flags are copied. |
| Engine.PlayerAI.OBoard | include/PlayerAI.h:27 | `o_board()` is slot 1, the O side. |
| Engine.PlayerAI.XBoard | include/PlayerAI.h:28 | `x_board()` is slot 0, the X side. |
| Engine.PlayerAI.Kings | include/PlayerAI.h:29 | `kings()` is slot 2. |
| Engine.PlayerAI.MinimaxFrom | src/PlayerAI.cpp:27-75 | The array-based search returns `Search.Minimax` of the board. |
| Engine.PlayerAI.MinimaxChildren | src/PlayerAI.cpp:40-69 | The loop over the moves computes the minimax loop from `(∓FLT_MAX, none)`. |
| Engine.PlayerAI.MinimaxChild | src/PlayerAI.cpp:45-48 | Each child is simulated into a fresh array with promotion and searched one level shallower. |
| Engine.PlayerAI.AlphaBetaFrom | src/PlayerAI.cpp:83-139 | The array-based search returns `Search.AlphaBeta` of the board and window. |
| Engine.PlayerAI.AlphaBetaChildren | src/PlayerAI.cpp:96-133 | The loop with its cut-off computes the alpha-beta loop. |
| Engine.PlayerAI.AlphaBetaChild | src/PlayerAI.cpp:101-104 | Each child is simulated with promotion and searched with the current window. |
| Engine.PlayerAI.Minimax | src/PlayerAI.cpp:21-25 | The board becomes the root board after the side `!max_player` plays the chosen move in place, with promotion. A valid board stays valid. |
| Engine.PlayerAI.AlphaBeta | src/PlayerAI.cpp:77-81 | The same happens with alpha-beta's move, which is minimax's move. A valid board stays valid. |
| Engine.PlayerAI.NextMove | src/PlayerAI.cpp:151-159 | The engine takes over the given position and flags, then plays minimax's choice at depth 11 for `player`. The board is valid afterwards when the given position was valid. |
| Engine.PlayNothing | src/PlayerAI.cpp:24 | Playing the empty mask moves nothing and only crowns the pieces on the far rows. |
| Engine.PlayKeepsValid | src/PlayerAI.cpp:21-25 | Playing a move `get_all_moves` offers, or the empty mask, with promotion keeps a valid position valid. |
| Engine.SearchKeepsValid | src/PlayerAI.cpp:21-25 | The board after playing the search's choice is valid whenever the board searched was valid. |
| Findings.NoPiecesNoMoves | src/PlayerAI.cpp:249-259 | A side with no pieces has no moves. |
| Findings.MinimaxStrandedNode | src/PlayerAI.cpp:37-72 | As written, a min node whose side has no pieces returns the stale word as its move and `FLT_MAX` as its score. The corrected search returns no move and `evaluate`. |
| Findings.AlphaBetaStrandedNode | src/PlayerAI.cpp:93-136 | The same holds for alpha-beta, whatever the window. |
| Findings.AsWrittenWithZero | src/PlayerAI.cpp:38 | When the uninitialised word happens to be 0, the searches as written are the corrected ones. |
| Rules.IsSpace | main.cpp:30-33 | `is_space(0)` is false. |
| Rules.SumIsUnion | main.cpp:32 | On disjoint boards, `o_board + x_board` equals `o_board \| x_board`. |
| Rules.IsSpaceSquare | main.cpp:30-33 | On disjoint boards, a single square is a space exactly when neither side holds it. |
| Rules.GetKingSide | main.cpp:35-44 | A king character maps to its side's man, and every other character maps to itself. |
| Rules.GetPiece | main.cpp:104-108 | The square draws `O`, `@`, `X`, `#` or `*` according to `o_board`, `x_board` and `kings`, with O taking precedence. |
| Rules.PieceSide | main.cpp:46-52 | On a valid board, the piece drawn on a square is on its own side exactly when the square is not a space, and it is O's when `o_board` holds the square. |
| Rules.PieceOfSide | main.cpp:104-108 | On any board, the drawn piece is on some side exactly when `o_board` or `x_board` holds the square, and it is O's exactly when `o_board` does. |
| Rules.TurnChar | main.cpp:194-197 | The turn character is `O` exactly on O's turn, and `X` otherwise. |
| Rules.TurnCharSide | main.cpp:46-52 | `same_side(pos, getTurnChar())` holds exactly for the pieces of the side to move. |
| Rules.MoveOwn | main.cpp:99-102 | The three-argument `move` takes the side from `o_board` membership. |
| Rules.CaptureFrom | main.cpp:120-133 | One pass of the loop reports whether the neighbour is an opponent piece and the square beyond it is on-board and empty. |
| Rules.StepFrom | main.cpp:150-160 | One pass reports whether the neighbour is empty, or is an opponent piece with an empty square beyond it. |
| Rules.CaptureIsMove | main.cpp:110-168 | A capture that `available_captures` reports is a move that `has_move` accepts. |
| Rules.WinnerWithoutPieces | main.cpp:170-178 | `is_winner` holds vacuously when the opponent has no pieces. |
| Rules.AddedWords | main.cpp:54-63 | Adding sets `pos` on the chosen side, and in `kings` exactly when the piece is a king or was already flagged. The other side and every other square are unchanged. |
| Rules.RemovedWords | main.cpp:65-73 | Removing clears `pos` from the chosen side and always from `kings`. The other side is unchanged. |
| Rules.AddThenRemove | main.cpp:54-73 | Removing a piece just added to an empty square restores the position. |
| Rules.AddedValid | main.cpp:54-63 | Adding on a square that neither side holds keeps the position valid. |
| Rules.RemovedValid | main.cpp:65-73 | Removing keeps the position valid. |
| Rules.PromotedOnlyRank | main.cpp:180-184 | `change_turn` keeps both boards and crowns only pieces of the mover that stand on its far row. |
| Rules.PromotedWholeRank | main.cpp:180-184 | Every mover piece on the far row is crowned, and every king stays one. |
| Rules.PromotedStaysValid | main.cpp:180-184 | Crowning keeps a valid position valid. |
| Rules.PromotedBothIsCrown | main.cpp:180-184 | One turn of each side crowns exactly what the engine's promotion crowns. |
| Rules.Game.constructor | main.cpp:20-25 | The globals start in the opening position, with O to move and no winner. |
| Rules.Game.AddPiece | main.cpp:54-63 | The globals become `Added` of the old position. The turn and the flags are unchanged. |
| Rules.Game.RemovePiece | main.cpp:65-73 | The globals become `Removed` of the old position. The turn and the flags are unchanged. |
| Rules.Game.AvailableCaptures | main.cpp:110-139 | Entry `i+1` (order LF, RF, LB, RB) is set exactly when direction `i` is a capture. Entry 0 is their OR. Entries past the piece's directions are untouched. |
| Rules.Game.HasMove | main.cpp:141-168 | The result is true exactly when some allowed direction is open. |
| Rules.Game.IsWinner | main.cpp:170-178 | The result is true exactly when no opponent piece on any of the 32 squares has a move. |
| Rules.Game.ChangeTurn | main.cpp:180-192 | Crowns the mover's far-row pieces and sets only the mover's win flag, computed on the crowned position. The boards are unchanged and the turn flips. |

## Left out

- `main()` is not modelled (main.cpp:199-448). It is console input and output and rendering. The row/column-to-bit conversion inside it is interleaved with reads.
- The destructor is not modelled.
- `ROW_END_MASK` is not modelled; nothing reads it.
- The global `piece_pos` is not modelled; only `main()` uses it.
- The engine's stored `o_wins`/`x_wins` are kept as fields but never read, as in the source.
- Floating point: scores are integers, and `±FLT_MAX` is `±Search.INF`.
- `unordered_map` iteration order is unspecified in the source. The model iterates in insertion order, so the tie-breaks between one piece's moves are proved relative to that order.
- The uninitialised `result.move` at depth 0 and the uninitialised `best_move` of a node without moves are `None` in the corrected searches. The engine plays them as the mask 0 (`Engine.MoveWord`), and `Engine.PlayNothing` shows what that does. The stale value itself is studied in `Findings`.
- `USE_ALPHABETA` is not modelled as a switch: `next_move` takes the alpha-beta branch, and `Engine.PlayerAI.AlphaBeta` proves that it plays the minimax move, so the two branches agree. `DEPTH` is the constant 11, and the searches take any depth of type `nat`. The source's `depth` is an `int`: a negative depth never reaches the `depth == 0` base case (src/PlayerAI.cpp:30, :86), and the recursion stops only at a position without moves. Only `DEPTH` is ever passed, so negative depths are not modelled.
- The two copies of `move` (main.cpp:76-97 and src/PlayerAI.cpp:262-283) have the same body. Both are modelled by `Geometry.Move`, written as one constant shift per case. The shift the source computes is `Geometry.Shift`, and `Geometry.MoveIsShift` ties the two together.
- Transition.SimulateMove: the copy of `board[is_o]` followed by its conditional toggle (src/PlayerAI.cpp:235-237), and the masking of `board[2]` followed by its conditional toggle (:241-243), are one assignment each, through `Transition.MoverAfter` and `Transition.KingsAfter`. The toggle's test at :236 reads `board[is_o]` after :235 stored that same value, so the aliased case reads the same word either way.
- Rules.AddedValid: requires that neither side holds `pos`, rather than `is_space(pos)` with `pos` a single square. `Rules.IsSpaceSquare` shows that the two agree.
- Rules.Game.AvailableCaptures: states each entry per direction. It does not restate the C++ requirement that the caller's array has at least five entries; it requires only enough entries for the piece's directions.

## Findings

| source | as written | input that shows it | evidently intended | confidence | as-written member | corrected member |
|---|---|---|---|---|---|---|
| src/PlayerAI.cpp:37-72 | `best_move` is declared without a value. When the side to move has no move, `result.move` is the stale word and `result.score` is ±`FLT_MAX` (`FLT_MAX` at the min node shown), since `best_move ?` tests the garbage. | A min node (O to move) at depth ≥ 1 with `o_board = 0`, and a nonzero stale word | No move, and the material score `evaluate(board)` (the `: evaluate(board)` branch at :72) | not executed | Findings.MinimaxStrandedNode | Search.MinimaxShape |
| src/PlayerAI.cpp:93-136 | The same in `alphabeta`: the stale word and `FLT_MAX` come back for a stuck node, whatever the window. | The same board, any `alpha` and `beta` | No move and `evaluate(board)` | not executed | Findings.AlphaBetaStrandedNode | Search.AlphaBetaShape |
