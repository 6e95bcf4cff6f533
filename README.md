# Chess rules engine, modelled in Dafny

This project models the rules engine of a two-player chess program. The engine is the class
`chess`. It holds an 8x8 board of occupants and the side to move. Its one public operation,
`play(from, to, promote)`, validates a move request and, when the move is legal, performs it.

Validation is a fixed sequence of tests, and the first that fails decides the answer:

- `no_piece`, `bad_piece` and `bad_move` come first.
- Then `blocked` and `lapsed`, which means en passant is no longer allowed.
- Then the check tests: `in_check`, `would_check`, and `has_moved` for castling.
- `bad_promote` comes last.

When every test passes, the move is performed:

- promotion is applied;
- an en passant victim is removed;
- the piece's flags are set;
- the piece moves, together with the rook when castling;
- the turn passes to the other side.

The answer is then `capture` or `ok`.

The project has six modules.

- `Geometry` covers displacements (`move`) and squares (`position`). Addition collapses to the sentinel square (0, 0) when it leaves the board.
- `Pieces` covers piece kinds, players, results and the `occupant` record.
- `Rules` holds every query and every board update of `chess` as a function on a board value, and the whole `play` protocol as `Rules.Play`. `Play` works on a `Game` (a board and the side to move) and returns the new game and the result. Three queries read the rules in a way that is open to question: `isCastling`, `isBlocked` and `isLapsed`. They, and everything built on them, take a `Rulebook` argument. `AsWritten` is the code exactly as it behaves. `Intended` applies the three corrections listed under "## Findings".
- `Engine` holds the class `Engine.Chess`. It has a 64-cell array and the side to move, and updates them in place step by step. Each method is proved to leave the state, or return the value, that the matching `Rules` function describes with the rulebook `AsWritten`. `Engine.Chess.Play` is proved equal to `Rules.Play(AsWritten, …)`, so the class answers every request as the code does, the three faults included.
- `Properties` holds lemmas about what the rules promise: how pieces move, what obstructs them, the order of the error answers, the board after a successful move, the en passant window and castling. Each lemma takes the rulebook as an argument and holds for both, unless its row says it is about the intended rules.
- `Findings` covers the three places where the code does not do what its rules evidently intend. For each one it gives a concrete board on which `play` as written goes wrong, and it proves the property of the intended rulebook for every input.

The board is stored as one flat array of 64 cells, laid out rank by rank: square (file f, rank r) is cell 8(r-1) + (f-1). The source stores a vector of files, each a vector of ranks. The layout cannot be seen through any operation.

## Model

| member | source | states |
|---|---|---|
| Geometry.Abs | chess.cpp:25 | each component of the result is the magnitude of the same component of the displacement |
| Geometry.Directionize | chess.cpp:8-15 | the result is the unit direction of the displacement and is zero only for the zero displacement; a diagonal stays diagonal; the result is straight exactly when the displacement is straight |
| Geometry.Add | chess.cpp:29-35 | the sum is always addressable; it is on the board exactly when the raw sum is, and then subtracting the start gives the displacement back; otherwise it is the sentinel (0, 0) |
| Geometry.AddSub | chess.cpp:27-35 | for two squares, adding their difference to the second square gives the first back |
| Geometry.AllPositions | chess.cpp:37-45 | 64 positions, each a square of the board, cell k holding the square stored in cell k |
| Geometry.AllPositionsOrdered | chess.cpp:37-45 | the positions come rank by rank, and by file within a rank |
| Geometry.AllPositionsComplete | chess.cpp:37-45 | every square of the board occurs, exactly once |
| Geometry.RayReachesTarget | chess.cpp:171-183 | the walk along a straight or diagonal line reaches the destination after its Chebyshev length of unit steps |
| Geometry.RayInterior | chess.cpp:171-183 | every point the walk visits before the destination is a square other than the destination, and one more collapsing step reaches the next point |
| Pieces.NewOccupant | chess.hpp:82-101 | a new piece is not empty, has the given owner and kind, and carries no flags |
| Pieces.Opponent | chess.cpp:399-401 | the opponent differs from the player |
| Rules.Place | chess.cpp:372-374 | the square holds the new occupant and every other square is unchanged |
| Rules.MakeMove | chess.cpp:190-193 | the origin becomes empty, the destination holds the moved occupant, and every other square is unchanged |
| Rules.SetFlags | chess.cpp:376-386 | the piece on the origin is marked as moved; a pawn's two-square advance opens its en passant window and any other pawn move clears its two-step mark; every other square is unchanged |
| Rules.RestartLapses | chess.cpp:403-410 | every pawn of the player has its en passant window closed and nothing else changes; whether a move is an en passant capture is the same before and after |
| Rules.FindKingPosition | chess.cpp:388-397 | the sentinel exactly when the player has no king; otherwise a square holding the player's king that comes first in board order |
| Rules.ApplyEnPassant | chess.cpp:429-434 | the square behind the destination, toward the mover, becomes empty, and every other square is unchanged |
| Rules.ApplyPromote | chess.cpp:474-477 | the piece on the square gets the new kind and keeps its owner and flags; every other square is unchanged |
| Rules.SimulationUndone | chess.cpp:217-243 | the trial move of `wouldCheck` followed by its undo leaves the board exactly as it was |
| Rules.EnPassantSimulationUndone | chess.cpp:217-243 | the same for a trial en passant capture: the restore puts the captured pawn back where it stood |
| Rules.InitialBoardSquares | chess.cpp:124-152 | every square of the starting board holds its starting occupant: pawns on ranks 2 and 7, the back-rank pieces on ranks 1 and 8 in the order rook, knight, bishop, queen, king, bishop, knight, rook |
| Rules.Validate | chess.cpp:249-283 | under either rulebook, validation lets a move through only when an own piece stands on a square at `from` |
| Rules.Screen | chess.cpp:262-283 | the tests after the shape test reject only with `blocked`, `lapsed`, `in_check`, `would_check` or `has_moved`; a move they let through is neither obstructed nor lapsed under the rulebook, and is not a castling whose king or rook has moved |
| Rules.CheckVerdict | chess.cpp:268-283 | the check tests reject only with `in_check`, `would_check` or `has_moved`, and `has_moved` only for a move the rulebook's castling test accepts; a castling they let through has neither king nor rook moved |
| Rules.Judge | chess.cpp:252-289 | the whole validation, promotion test included, lets a move through only when an own piece stands on `from` |
| Engine.Chess.constructor | chess.cpp:124-152 | the new game holds the starting board with White to move |
| Engine.Chess.PlaceBackRank | chess.cpp:139-151 | the eight back-rank pieces of one side are placed on the given rank, in the order rook, knight, bishop, queen, king, bishop, knight, rook, and no other square changes |
| Engine.Chess.PlaceOccupant | chess.cpp:372-374 | the board becomes Rules.Place of the old board |
| Engine.Chess.MakeMove | chess.cpp:190-193 | the board becomes Rules.MakeMove of the old board |
| Engine.Chess.SwapPlayer | chess.cpp:195-198 | the side to move becomes the opponent; the board is untouched |
| Engine.Chess.SetFlags | chess.cpp:376-386 | the board becomes Rules.SetFlags of the old board |
| Engine.Chess.FindKingPosition | chess.cpp:388-397 | the scan of the array in board order returns Rules.FindKingPosition |
| Engine.Chess.RestartLapses | chess.cpp:403-410 | the loop over all squares leaves Rules.RestartLapses of the old board |
| Engine.Chess.IsBlocked | chess.cpp:161-188 | the answer is Rules.IsBlocked as written on the current board: an own piece on the destination, a pawn moving straight onto a piece, an occupied square strictly between the ends, or, for a move the castling test as written accepts, an occupied square beside the destination on the king's side of it |
| Engine.Chess.WalkRay | chess.cpp:171-183 | the step-by-step walk finds a piece exactly when a square strictly between the ends is occupied |
| Engine.Chess.IsChecked | chess.cpp:200-215 | the scan over every square answers Rules.IsChecked as written: some opponent piece can move onto the player's king and is not obstructed by the obstruction test as written, other than by a pawn's straight move |
| Engine.Chess.Threatens | chess.cpp:203-211 | the test of one square against the king answers Rules.Threatens as written |
| Engine.Chess.ScanThreats | chess.cpp:202-214 | the loop over every square finds a threat exactly when some square holds a piece that threatens the king (Rules.ThreatExists as written) |
| Engine.Chess.ApplyEnPassant | chess.cpp:429-434 | the board becomes Rules.ApplyEnPassant of the old board |
| Engine.Chess.WouldCheck | chess.cpp:217-243 | the answer is Rules.WouldCheck as written (the mover is in check after the trial move), and the trial is undone so the board is unchanged |
| Engine.Chess.WouldCheckCastling | chess.cpp:446-451 | the answer is Rules.WouldCheckCastling as written (the mover is in check with its piece on either square of the castling path), and the board is unchanged |
| Engine.Chess.ApplyPromote | chess.cpp:474-477 | the board becomes Rules.ApplyPromote of the old board |
| Engine.Chess.MakeCastling | chess.cpp:479-489 | the board becomes Rules.MakeCastling of the old board |
| Engine.Chess.Judge | chess.cpp:252-289 | the tests of `play` answer Rules.Judge as written and leave the board as it was |
| Engine.Chess.Screen | chess.cpp:262-283 | the tests after the shape test answer Rules.Screen as written and leave the board as it was |
| Engine.Chess.CheckVerdict | chess.cpp:268-283 | the check tests answer Rules.CheckVerdict as written; the trial moves are undone, so the board is as it was |
| Engine.Chess.CastlingVerdict | chess.cpp:269-278 | for any move the castling test as written accepts, whatever piece stands on the king's square, the check tests answer Rules.CheckVerdict as written; the trial steps are undone, so the board is as it was |
| Engine.Chess.Prepare | chess.cpp:284-299 | before the pieces move, the board becomes Rules.Prepare of the old board and the outcome is the one Rules.Commit reports |
| Engine.Chess.Play | chess.cpp:245-307 | the new state and the result are exactly those of Rules.Play as written on the old state |
| Engine.Chess.Perform | chess.cpp:284-306 | the success half of `play` leaves the state and result of Rules.Commit as written, moving the rook too whenever the castling test as written holds |
| Properties.SymmetricShapes | chess.cpp:51-69 | rooks, knights, bishops and queens accept a move exactly when they accept the reverse move |
| Properties.KnightShape | chess.cpp:111-114 | a knight moves exactly where the file and rank distances multiply to 2 |
| Properties.KingShape | chess.cpp:99-105 | a king moves at most one square in each direction, or makes a move the castling test as written accepts |
| Properties.QueenShape | chess.cpp:120-122 | a queen moves exactly where a rook or a bishop may |
| Properties.PawnShape | chess.cpp:71-97 | a pawn moves one rank forward, or two straight ahead if it never moved; a diagonal step needs a piece on the destination or an opponent's double-stepped piece behind it |
| Properties.CastlingMoverShapes | chess.cpp:51-122 | a move the castling test accepts has the shape of a king's, a rook's or a queen's move, and not of a pawn's, a knight's or a bishop's |
| Properties.KnightNeverObstructed | chess.cpp:161-188 | a knight is obstructed exactly by its own side's piece on the destination |
| Properties.PawnCannotCaptureStraight | chess.cpp:165-167 | a pawn's straight move is obstructed by any piece on the destination |
| Properties.InteriorPieceObstructs | chess.cpp:171-183 | any piece strictly between the ends of a straight or diagonal move obstructs it |
| Properties.ClearLineNotObstructed | chess.cpp:161-188 | a straight or diagonal move that is not a pawn's and that the rulebook's castling test does not accept is free when the line is clear and the destination holds no own piece |
| Properties.ProceedFacts | chess.cpp:252-289 | a move that passes validation has an own piece of the right shape, is not obstructed, not lapsed, not a castling with moved pieces, asks for a valid promotion, and goes somewhere new |
| Properties.ScreenPassed | chess.cpp:262-283 | a move the tests after the shape test let through is neither obstructed nor lapsed, is not a castling with moved pieces, and goes somewhere new |
| Properties.JudgeRejectsWithErrors | chess.hpp:51-80 | a refused move never reports `capture` or `ok` |
| Properties.RestartOnlyClosesOwnWindows | chess.cpp:403-410 | closing windows changes only the `canBeLapsed` flag of the player's own pawns |
| Properties.RestartKeepsTests | chess.cpp:249-267 | closing windows first does not change any test that validation makes of `from` and `to` |
| Properties.RestartKeepsCastling | chess.cpp:403-410 | closing windows does not change whether a move is a castling |
| Properties.RestartKeepsShape | chess.cpp:403-410 | closing windows does not change whether a piece may move that way |
| Properties.RestartKeepsHasMoved | chess.cpp:403-410 | closing windows does not change whether the king or a rook has moved |
| Properties.PlayOutcome | chess.cpp:245-307 | `play` succeeds exactly when validation accepts; a refused move changes only the closed windows and keeps the side to move; the turn passes exactly on success |
| Properties.Accepted | chess.cpp:284-306 | a successful `play` is validation followed by the move performed on the board with closed windows |
| Properties.EarlyRejections | chess.hpp:51-60 | `no_piece` exactly for an empty origin, `bad_piece` exactly for an opponent's piece, `bad_move` exactly for an own piece that cannot move that way |
| Properties.JudgeEarly | chess.cpp:252-261 | on one board, validation answers `no_piece`, `bad_piece` and `bad_move` each exactly when its test is the first to fail |
| Properties.LaterRejections | chess.cpp:262-283 | on the board the tests are made on: `blocked` exactly when the first three tests pass and the move is obstructed; `lapsed` exactly when it is also unobstructed and the lapse test holds; past those, `in_check` exactly when the mover was in check and the move is a castling or ends in check; `would_check` exactly when the mover was not in check and the move ends in check; `has_moved` exactly when a castling passes both check tests and its king or rook has moved |
| Properties.JudgeScreens | chess.cpp:262-267 | on one board, validation answers `blocked` and `lapsed` each exactly when its test is the first to fail |
| Properties.JudgeChecks | chess.cpp:268-283 | on one board, validation answers `in_check`, `would_check` and `has_moved` each exactly when its test is the first to fail |
| Properties.JudgeIsScreen | chess.cpp:252-289 | once the shape test passes, validation answers what the later tests answer, followed by the promotion test |
| Properties.ScreenOrder | chess.cpp:262-283 | after the shape test: `blocked` exactly for an obstructed move, `lapsed` exactly for an unobstructed lapsed one, and otherwise the answer of the check tests |
| Properties.CheckOrder | chess.cpp:268-283 | the check tests: `in_check` exactly when the mover was in check and the move is a castling or ends in check, `would_check` exactly when the mover was not in check and the move ends in check, `has_moved` exactly for a castling that passes both and has a moved king or rook |
| Properties.BadPromoteIsLast | chess.cpp:284-289 | `bad_promote` exactly when every other test passes and a pawn reaching the last rank asks for a pawn or a king |
| Properties.CastlingGeometry | chess.cpp:436-444 | castling goes from file 5 of the home rank to file 7 with the rook from file 8 to 6, or to file 3 with the rook from file 1 to 4 |
| Properties.CastlingSquares | chess.cpp:479-489 | castling moves the piece on the king's square and the rook and leaves every other square unchanged |
| Properties.PreparedSquares | chess.cpp:284-299 | before the pieces move, only the mover's flags and kind and an en passant victim have changed |
| Properties.PrepareKeepsCastling | chess.cpp:284-301 | the preparation does not change whether the move is a castling |
| Properties.CommitBoard | chess.cpp:288-306 | square by square, the board after a successful move in terms of the board before it |
| Properties.CommitRelocates | chess.cpp:300-304 | after the preparation the move castles exactly when the board asked for castling, and otherwise is an ordinary move |
| Properties.CaptureIffTaking | chess.cpp:292-295 | success reports `capture` exactly when the destination held a piece or the move was en passant |
| Properties.CommitResult | chess.cpp:292-295 | performing a move reports `capture` or `ok`, and `capture` exactly when the destination holds a piece or the move is en passant |
| Properties.EnPassantRemovesVictim | chess.cpp:296-298 | a successful en passant empties the victim's square |
| Properties.CommitEnPassant | chess.cpp:296-298 | performing an en passant capture empties the captured pawn's square and leaves the capturing pawn on the destination |
| Properties.MovedPieceArrives | chess.cpp:284-304 | after success the origin is empty and the destination holds the mover's piece, marked as moved, promoted when it reached the last rank |
| Properties.OrdinaryMoveKeepsOtherSquares | chess.cpp:292-304 | a successful move other than castling changes no other square beyond an en passant victim |
| Properties.CastlingMovesKingAndRook | chess.cpp:479-489 | a successful castling puts the piece from the king's square on file 7 or 3, marked as moved, and the rook, still marked as never moved, beside it; the two squares they left are empty |
| Properties.CastledKing | chess.cpp:479-489 | after a successful castling the destination holds the piece from the king's square, marked as moved, and its origin is empty |
| Properties.CastledRook | chess.cpp:479-489 | after a successful castling the rook stands beside the destination with its flags unchanged, and its corner is empty |
| Properties.CastlingKeepsOtherSquares | chess.cpp:479-489 | a successful castling changes no square other than the two squares of each moved piece |
| Properties.CastledPieceUnmoved | chess.cpp:268-283 | a successful castling found the piece on the king's square and the rook unmoved |
| Properties.PawnAdvanceFlags | chess.cpp:376-386 | a moved pawn's en passant window is open exactly after a two-square advance |
| Properties.OwnerMoveClosesWindows | chess.cpp:403-410 | after any request of the mover, successful or not, every pawn of the mover other than the one on the destination has its window closed |
| Properties.MovedPiecesKeepWindowsClosed | chess.cpp:403-410 | after a successful move, every pawn of the mover other than the one on the destination has its window closed |
| Properties.OpenWindowCapturePasses | chess.cpp:71-97 | a diagonal step behind an opponent pawn with an open window is en passant and passes to the check tests |
| Properties.ClosedWindowCaptureLapses | chess.cpp:412-420 | the same step onto an empty square once the window has closed is refused as `lapsed` |
| Properties.ClosedWindowReply | chess.cpp:412-420 | with a game as the argument: a diagonal step of the side to move onto an empty square behind an opponent pawn whose window has closed is answered `lapsed` |
| Properties.TwoStepLeavesSkippedSquare | chess.cpp:376-386 | after a two-square advance the skipped square is empty and the pawn's window is open |
| Properties.SkippedSquareEmpty | chess.cpp:376-386 | after a successful two-square advance the skipped square is empty |
| Properties.ReplyCaptureIsEnPassant | chess.cpp:412-427 | the opponent's immediate diagonal capture onto the skipped square is accepted as en passant unless a check test refuses it |
| Properties.StaleCaptureIsLapsed | chess.cpp:403-420 | once the double-stepped pawn's owner has moved again, that capture is `lapsed` |
| Properties.CastlingOutcomes | chess.hpp:69-75 | a request the castling test accepts is never answered `lapsed` or `bad_promote`; it is `bad_move` exactly when the mover's piece on the king's square is a pawn, a knight or a bishop; with the intended rules it never reports `capture` |
| Properties.LapsedNeedsClosedWindow | chess.cpp:265-267 | `lapsed` is answered only when the lapse test of the rulebook holds on the board the tests are made on |
| Properties.JudgeLapsed | chess.cpp:265-267 | on one board, validation answers `lapsed` only when the lapse test of the rulebook holds |
| Properties.HasMovedOnlyWhenCastling | chess.cpp:268-283 | `has_moved` is answered only to a move the rulebook's castling test accepts; as written that is any piece on the king's square moving two files toward an own rook |
| Properties.CastlingReportsOk | chess.cpp:292-295 | with the intended rules, a successful castling reports `ok` |
| Properties.CastlingAfterMoveRefused | chess.cpp:453-464 | once the piece on the king's square or the rook has moved, castling never succeeds; it is refused with `no_piece`, `bad_piece`, `bad_move`, `blocked`, `in_check`, `would_check` or `has_moved`, and with `bad_move` only when that piece is not a king |
| Properties.OpeningRejections | chess.cpp:556-562 | on the starting board a black pawn is `bad_piece` for White |
| Properties.RejectionsOnStartingSquares | chess.cpp:252-261 | on any board laid out like the starting one, with White to move: a black pawn is `bad_piece`, an empty square `no_piece`, a knight's non-L move `bad_move` |
| Findings.LapsedCaptureAsWritten | chess.cpp:412-420 | after 1. d4 c5 2. d5 Nc6, with both kings on their starting squares, the capture d5xc6 passes the shape and obstruction tests and is not en passant, yet the lapse test as written holds for it; the intended test does not |
| Findings.StaleCaptureTests | chess.cpp:412-420 | the same for any board with a white pawn on d5, a black piece on c6 and a black double-stepped pawn with a closed window on c5 |
| Findings.LapsedPlayAsWritten | chess.cpp:245-267 | `play` as written answers the capture d5xc6 on that board with `lapsed`; the intended rules do not |
| Findings.ScreenedLapse | chess.cpp:262-267 | a move of one's own piece that passes the shape and obstruction tests and meets the lapse test is answered `lapsed` |
| Findings.CaptureNeverLapsed | chess.cpp:412-420 | with the intended lapse test a move onto an occupied square is never `lapsed` |
| Findings.QueenCastlingAsWritten | chess.cpp:436-444 | with a moved white queen on e1, the white rook on h1 and f1 and g1 empty, the queen's move e1-g1 passes the shape and obstruction tests and is taken for castling as written, with a moved piece; the intended test does not take it for castling |
| Findings.MovedQueenCastlingTests | chess.cpp:436-444 | the same for any board with those four squares |
| Findings.QueenPlayAsWritten | chess.cpp:245-283 | `play` as written can only refuse that queen move, with `in_check`, `would_check` or `has_moved`; the intended rules never answer `has_moved` to it |
| Findings.OnlyKingsCastle | chess.cpp:436-444 | with the intended castling test a piece other than a king is never answered `has_moved`, and its successful move moves no other piece |
| Findings.CastlingOntoOpponentGuard | chess.cpp:161-188 | with the white king on e1, f1 empty, a black piece on g1 and the white rook on h1, castling e1-g1 passes the obstruction test as written and fails the intended one |
| Findings.CastlingOntoPieceAsWritten | chess.cpp:161-188 | on a board with the white king and rook unmoved on e1 and h1, f1 empty and a black knight on g1, castling e1-g1 passes the obstruction test as written, both pieces unmoved, and performing it reports `capture`; the intended test blocks it |
| Findings.CastlingOntoOpponentPlay | chess.cpp:245-306 | on any game with White to move, its king and rook unmoved on e1 and h1, f1 empty and a black piece on g1, `play` as written answers e1-g1 with `capture`, `in_check` or `would_check`, and after `capture` the king stands on g1 |
| Findings.CastlingOntoOpponentBlocked | chess.cpp:161-188 | on such a game the intended rules answer `blocked` |
| Findings.CastlingOntoPiecePlay | chess.cpp:245-306 | on the knight board, `play` as written castles onto the knight (`capture`, the king on g1) or refuses for a check reason; the intended rules answer `blocked` |
| Findings.UnblockedCastlingOutcomes | chess.cpp:262-306 | under either rulebook, a castling by an unmoved king with an unmoved rook that passes the obstruction test is answered `ok`, `capture`, `in_check` or `would_check`; `capture` exactly when the destination held a piece; on success the king stands on the destination, marked as moved |
| Findings.BlockedCastlingRefused | chess.cpp:262-264 | a castling by a king that fails the obstruction test is answered `blocked` |
| Findings.CastlingShapeThreatAsWritten | chess.cpp:200-215 | with the black king on e8, the black rook on h8, f8 empty and the white king on g8, the black king threatens g8 as written, so g8 counts as attacked; under the intended obstruction test it does not threaten g8 |
| Findings.CastlingShapeThreat | chess.cpp:200-215 | the same for any board with a black king on e8, f8 empty, a white piece on g8 and a black rook on h8 |
| Findings.CastlingShapeObstruction | chess.cpp:161-188 | on such a board the black king's e8-g8 has a king's shape and only the intended test finds it obstructed |
| Findings.UnblockedCastlingPath | chess.cpp:161-188 | with the intended test, an unblocked castling has every square between king and rook empty |
| Findings.CastlingBesideFree | chess.cpp:171-185 | with the intended test, an unblocked castling has the square beside the king's home square, toward the rook, empty |
| Findings.CastlingEndsFree | chess.cpp:161-188 | with the intended test, an unblocked castling has an empty destination and an empty square on its far side |
| Findings.CastlingNeedsEmptySquares | chess.cpp:161-188 | with the intended rules, a successful castling had every square between king and rook empty on the board it was played on |

## Left out

- `chess::print` (chess.cpp:309-366) is console output and is not modelled.
- The test functions and `main` (chess.cpp:491-589) are not replayed move by move. Deciding `isChecked` on concrete boards over many moves is too costly for the verifier. The first assertion of `main` is modelled by Properties.OpeningRejections.
- `getOccupant` returns a reference. The model reads squares with `At` and writes them with `Place`.
- Undefined behaviour becomes preconditions (`Rules.PlayDefined`). This covers a position off the board that is not the sentinel, and an en passant capture onto the first or last rank. There the trial move of `wouldCheck` would restore a square off the board.
- `std::abs` of the most negative `int` overflows. Coordinates are unbounded integers here; the engine only forms them from squares and small displacements, far from that limit.
- Geometry.Directionize: the source updates its receiver in place; the model returns the new value.
- `isChecked` is evaluated first in `play`, before any test, and Engine.Chess.Play does the same. It has no side effect, so the function Rules.Screen evaluates it only where Rules.CheckVerdict uses it.
- These are splits that exist for verification, not in the source: `WalkRay` (the loop of `isBlocked`), `Threatens` (the loop body of `isChecked`), `PlaceBackRank` (the loop body of the constructor), `ScanThreats` (the loop of `isChecked`), `Judge`, `Screen`, `CheckVerdict` and `CastlingVerdict` (the tests of `play`), `Perform` and `Prepare` (the second half of `play`), and `Rules.Validate`, `Rules.Screen`, `Rules.CheckVerdict`, `Rules.Judge`, `Rules.Prepare` and `Rules.Commit`.
- The `Rulebook` argument is not in the source. With `AsWritten` every function is the code as written; `Intended` exists only to state the corrections listed under "## Findings", and the class in module Engine never uses it.
- The model proves what `play` checks by its trial move. It does not separately prove that the final board after a success leaves the mover's king out of check.
- The operators `==` and `!=` on `move` and `position` are Dafny's datatype equality.

## Findings

| source | as written | input that shows it | evidently intended | confidence | as-written member | corrected member |
|---|---|---|---|---|---|---|
| chess.cpp:412-420 | `isLapsed` does not ask whether the destination is empty, so an ordinary diagonal capture whose target has an opponent's double-stepped pawn behind it (window closed) is answered `lapsed` | 1. d4 c5 2. d5 Nc6, then 3. dxc6 (pawn d5 takes the knight on c6 while the pawn on c5 stands behind it) | only a move onto an empty square can be a lapsed en passant | not executed | Findings.LapsedPlayAsWritten | Findings.CaptureNeverLapsed |
| chess.cpp:436-444 | `isCastling` does not look at the piece on the home square, so any piece on e1 moving two files toward a rook is treated as castling | a white queen that has moved to e1, rook on h1, f1 and g1 empty: e1-g1 can only be refused (`has_moved`, `in_check` or `would_check`) | only the king castles; the queen's move is an ordinary move | not executed | Findings.QueenPlayAsWritten | Findings.OnlyKingsCastle |
| chess.cpp:161-188 | `isBlocked` checks only the square next to the king's destination, so castling may land on an opponent's piece, which is then captured; through `isChecked` the same gap counts a castling-shaped king move as an attack | white king e1 and rook h1 unmoved, f1 empty, a black knight on g1: e1-g1 reports `capture` (or is refused for a check reason) and the knight disappears; black king e8, rook h8, f8 empty, white king g8: g8 counts as attacked (Findings.CastlingShapeThreatAsWritten) | every square between king and rook must be empty | not executed | Findings.CastlingOntoPiecePlay | Findings.CastlingNeedsEmptySquares |
