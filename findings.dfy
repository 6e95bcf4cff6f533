/** Three places where the engine's code does not do what its rules evidently intend. For
    each, a concrete board on which `play` as written (rulebook `AsWritten`, the one the class
    in module Engine is proved to follow) goes wrong, next to the property the intended
    rulebook enjoys for every input. */
module Findings {
  import opened Geometry
  import opened Pieces
  import opened Rules
  import Properties

  /** The board holding `f(q)` on every square `q`. */
  function BoardOf(f: Position -> Occupant): (b: Board)
    ensures forall q :: OnBoard(q) ==> At(b, q) == f(q)
  {
    var cells := seq(64, k requires 0 <= k < 64 => f(PosAt(k)));
    assert |cells| == 64;
    BoardOfSquares(f, cells);
    cells
  }

  lemma BoardOfSquares(f: Position -> Occupant, b: Board)
    requires forall k :: 0 <= k < 64 ==> b[k] == f(PosAt(k))
    ensures forall q :: OnBoard(q) ==> At(b, q) == f(q)
  {
    forall q | OnBoard(q)
      ensures At(b, q) == f(q)
    {
      IndexInverse(q);
    }
  }

  // ---------------------------------------------------------------------------------------
  // 1. `isLapsed` does not ask whether the destination is empty.

  /** After 1. d4 c5 2. d5 Nc6, with White to move and the kings still on e1 and e8: the pawn
      on d5 may take the knight on c6. The black pawn on c5 advanced two squares and Black
      has moved since, so its window is closed. */
  function LapsedBoard(): Board {
    BoardOf(p =>
      if p == Position(4, 5) then NewOccupant(White, Pawn).(didMove := true)
      else if p == Position(3, 5) then NewOccupant(Black, Pawn).(didMove := true, didTwoStep := true)
      else if p == Position(3, 6) then NewOccupant(Black, Knight)
      else if p == Position(5, 1) then NewOccupant(White, King)
      else if p == Position(5, 8) then NewOccupant(Black, King)
      else Empty)
  }

  /** On that board the capture d5xc6 is an ordinary capture that passes the shape and
      obstruction tests, yet the lapse test as written holds for it; the intended test does
      not. */
  lemma LapsedCaptureAsWritten()
    ensures var b, from, to := RestartLapses(LapsedBoard(), White), Position(4, 5), Position(3, 6);
            !At(b, from).isEmpty && At(b, from).owner == White && At(b, from).piece == Pawn
            && CanMove(b, from, to, Pawn, White)
            && !IsBlocked(AsWritten, b, White, from, to, White)
            && !At(b, to).isEmpty && At(b, to).owner == Black
            && !IsEnPassant(b, White, from, to)
            && IsLapsed(AsWritten, b, White, from, to)
            && !IsLapsed(Intended, b, White, from, to)
  {
    LapsedBoardSquares();
    StaleCaptureTests(RestartLapses(LapsedBoard(), White));
  }

  /** The squares of the lapsed board that matter, once White's windows are closed. */
  lemma LapsedBoardSquares()
    ensures var b := RestartLapses(LapsedBoard(), White);
            At(b, Position(4, 5)) == NewOccupant(White, Pawn).(didMove := true)
            && At(b, Position(3, 6)) == NewOccupant(Black, Knight)
            && At(b, Position(3, 5)) == NewOccupant(Black, Pawn).(didMove := true, didTwoStep := true)
  {
    var b := RestartLapses(LapsedBoard(), White);
    assert At(b, Position(4, 5)) == ClearLapse(At(LapsedBoard(), Position(4, 5)), White);
    assert At(b, Position(3, 6)) == ClearLapse(At(LapsedBoard(), Position(3, 6)), White);
    assert At(b, Position(3, 5)) == ClearLapse(At(LapsedBoard(), Position(3, 5)), White);
  }

  /** On any board with a white pawn on d5, a black piece on c6 and, on c5, a black pawn that
      advanced two squares with its window closed, d5xc6 passes the shape and obstruction
      tests and meets the lapse test as written but not the intended one. */
  lemma StaleCaptureTests(b: Board)
    requires !At(b, Position(4, 5)).isEmpty && At(b, Position(4, 5)).owner == White && At(b, Position(4, 5)).piece == Pawn
    requires !At(b, Position(3, 6)).isEmpty && At(b, Position(3, 6)).owner == Black
    requires var v := At(b, Position(3, 5)); v.owner == Black && v.didTwoStep && !v.canBeLapsed
    ensures var from, to := Position(4, 5), Position(3, 6);
            CanMove(b, from, to, Pawn, White)
            && !IsBlocked(AsWritten, b, White, from, to, White)
            && !IsEnPassant(b, White, from, to)
            && IsLapsed(AsWritten, b, White, from, to)
            && !IsLapsed(Intended, b, White, from, to)
  {
    var from, to := Position(4, 5), Position(3, 6);
    assert Sub(to, from) == Move(-1, 1) && Add(to, Vert(Backward(White))) == Position(3, 5);
    assert CanMovePawn(b, from, to, White);
    assert !PathOccupied(b, from, to);
  }

  /** So `play` as written answers the capture d5xc6 with `lapsed`, and the intended rules do
      not. */
  lemma LapsedPlayAsWritten()
    ensures var g, from, to := Game(LapsedBoard(), White), Position(4, 5), Position(3, 6);
            PlayDefined(g, from, to)
            && Play(AsWritten, g, from, to, Queen).1 == Lapsed
            && Play(Intended, g, from, to, Queen).1 != Lapsed
  {
    var g, from, to := Game(LapsedBoard(), White), Position(4, 5), Position(3, 6);
    LapsedCaptureAsWritten();
    assert At(RestartLapses(g.board, White), to) == At(g.board, to);
    assert PlayDefined(g, from, to);
    ScreenedLapse(AsWritten, g, from, to, Queen);
    CaptureNeverLapsed(g, from, to, Queen);
  }

  /** A move of one's own piece that passes the shape and obstruction tests and meets the
      lapse test is answered `lapsed`. */
  lemma ScreenedLapse(rb: Rulebook, g: Game, from: Position, to: Position, promote: PieceType)
    requires PlayDefined(g, from, to) && OnBoard(from)
    requires var b, pl := RestartLapses(g.board, g.player), g.player;
             !At(b, from).isEmpty && At(b, from).owner == pl && CanMove(b, from, to, At(b, from).piece, pl)
             && !IsBlocked(rb, b, pl, from, to, pl) && IsLapsed(rb, b, pl, from, to)
    ensures Play(rb, g, from, to, promote).1 == Lapsed
  {
    Properties.LaterRejections(rb, g, from, to, promote);
  }

  /** With the intended test, a move onto an occupied square is never answered `lapsed`. */
  lemma CaptureNeverLapsed(g: Game, from: Position, to: Position, promote: PieceType)
    requires PlayDefined(g, from, to)
    requires !At(g.board, to).isEmpty
    ensures Play(Intended, g, from, to, promote).1 != Lapsed
  {
    Properties.LapsedNeedsClosedWindow(Intended, g, from, to, promote);
  }

  // ---------------------------------------------------------------------------------------
  // 2. `isCastling` does not ask which piece stands on the king's home square.

  /** A white queen that has moved to e1, the white king on d2, the rook on h1 and the black
      king on e8. */
  function QueenOnKingSquareBoard(): Board {
    BoardOf(p =>
      if p == Position(5, 1) then NewOccupant(White, Queen).(didMove := true)
      else if p == Position(8, 1) then NewOccupant(White, Rook)
      else if p == Position(4, 2) then NewOccupant(White, King).(didMove := true)
      else if p == Position(5, 8) then NewOccupant(Black, King)
      else Empty)
  }

  /** The queen's ordinary move e1-g1 is taken for castling by the test as written, and the
      queen has moved; the intended test does not take it for castling. */
  lemma QueenCastlingAsWritten()
    ensures var b, from, to := RestartLapses(QueenOnKingSquareBoard(), White), Position(5, 1), Position(7, 1);
            At(b, from).piece == Queen && At(b, from).owner == White
            && CanMove(b, from, to, Queen, White)
            && IsCastling(AsWritten, b, from, to, White)
            && !IsBlocked(AsWritten, b, White, from, to, White)
            && Rules.HasMoved(b, from, to)
            && !IsCastling(Intended, b, from, to, White)
  {
    var b := RestartLapses(QueenOnKingSquareBoard(), White);
    assert At(b, Position(5, 1)) == ClearLapse(At(QueenOnKingSquareBoard(), Position(5, 1)), White);
    assert At(b, Position(6, 1)) == ClearLapse(At(QueenOnKingSquareBoard(), Position(6, 1)), White);
    assert At(b, Position(7, 1)) == ClearLapse(At(QueenOnKingSquareBoard(), Position(7, 1)), White);
    assert At(b, Position(8, 1)) == ClearLapse(At(QueenOnKingSquareBoard(), Position(8, 1)), White);
    MovedQueenCastlingTests(b);
  }

  /** On any board with a white queen that has moved on e1, f1 and g1 empty and a white rook
      on h1, the queen's move e1-g1 passes the shape and obstruction tests and is castling
      with a moved piece as written; the intended test does not take it for castling. */
  lemma MovedQueenCastlingTests(b: Board)
    requires var q := At(b, Position(5, 1)); !q.isEmpty && q.owner == White && q.piece == Queen && q.didMove
    requires At(b, Position(6, 1)).isEmpty && At(b, Position(7, 1)).isEmpty
    requires At(b, Position(8, 1)).piece == Rook && At(b, Position(8, 1)).owner == White
    ensures var from, to := Position(5, 1), Position(7, 1);
            CanMove(b, from, to, Queen, White)
            && IsCastling(AsWritten, b, from, to, White)
            && !IsBlocked(AsWritten, b, White, from, to, White)
            && Rules.HasMoved(b, from, to)
            && !IsCastling(Intended, b, from, to, White)
  {
    var from, to := Position(5, 1), Position(7, 1);
    KingsidePathClear(b, 1);
    assert Add(to, Horiz(-1)) == Position(6, 1);
    assert IsCastling(AsWritten, b, from, to, White);
    Properties.CastlingMoverShapes(AsWritten, b, from, to, White, Queen);
  }

  /** So `play` as written can only refuse the queen's move e1-g1, a move along an empty rank:
      out of check it is `would_check` or `has_moved`. The intended rules never answer
      `has_moved` to it. */
  lemma QueenPlayAsWritten()
    ensures var g, from, to := Game(QueenOnKingSquareBoard(), White), Position(5, 1), Position(7, 1);
            PlayDefined(g, from, to)
            && (var r := Play(AsWritten, g, from, to, Queen).1; r == InCheck || r == Result.WouldCheck || r == Result.HasMoved)
            && Play(Intended, g, from, to, Queen).1 != Result.HasMoved
  {
    var g, from, to := Game(QueenOnKingSquareBoard(), White), Position(5, 1), Position(7, 1);
    QueenCastlingAsWritten();
    assert PlayDefined(g, from, to);
    assert IsCastling(AsWritten, g.board, from, to, White);
    Properties.RestartKeepsTests(AsWritten, g.board, White, from, to);
    Properties.CastlingAfterMoveRefused(AsWritten, g, from, to, Queen);
    Properties.EarlyRejections(AsWritten, g, from, to, Queen);
    Properties.LaterRejections(AsWritten, g, from, to, Queen);
    Properties.HasMovedOnlyWhenCastling(Intended, g, from, to, Queen);
  }

  /** With the intended test, a piece other than a king is never answered `has_moved`, and
      a successful move of such a piece moves it alone: no rook comes along. */
  lemma OnlyKingsCastle(g: Game, from: Position, to: Position, promote: PieceType, q: Position)
    requires PlayDefined(g, from, to) && At(g.board, from).piece != King
    requires OnBoard(q) && q != from && q != to
    requires IsEnPassant(g.board, g.player, from, to) ==> q != Add(to, Vert(Backward(g.player)))
    ensures Play(Intended, g, from, to, promote).1 != Result.HasMoved
    ensures IsSuccess(Play(Intended, g, from, to, promote).1)
            ==> At(Play(Intended, g, from, to, promote).0.board, q) == At(RestartLapses(g.board, g.player), q)
  {
    Properties.HasMovedOnlyWhenCastling(Intended, g, from, to, promote);
    if IsSuccess(Play(Intended, g, from, to, promote).1) {
      Properties.OrdinaryMoveKeepsOtherSquares(Intended, g, from, to, promote, q);
    }
  }

  // ---------------------------------------------------------------------------------------
  // 3. `isBlocked` lets castling land on a piece of the opponent.

  /** White king on e1 and rook on h1, neither moved, f1 empty, a black knight on g1, the
      black king on e8. */
  function KnightOnCastlingSquareBoard(): Board {
    BoardOf(p =>
      if p == Position(5, 1) then NewOccupant(White, King)
      else if p == Position(8, 1) then NewOccupant(White, Rook)
      else if p == Position(7, 1) then NewOccupant(Black, Knight)
      else if p == Position(5, 8) then NewOccupant(Black, King)
      else Empty)
  }

  /** On any board with the white king on e1, f1 empty, a black piece on g1 and the white
      rook on h1, castling e1-g1 passes the obstruction test as written and fails the
      intended one. */
  lemma CastlingOntoOpponentGuard(b: Board)
    requires At(b, Position(5, 1)).piece == King && At(b, Position(5, 1)).owner == White
    requires At(b, Position(6, 1)).isEmpty
    requires !At(b, Position(7, 1)).isEmpty && At(b, Position(7, 1)).owner == Black
    requires At(b, Position(8, 1)).piece == Rook && At(b, Position(8, 1)).owner == White
    ensures !IsBlocked(AsWritten, b, White, Position(5, 1), Position(7, 1), White)
    ensures IsBlocked(Intended, b, White, Position(5, 1), Position(7, 1), White)
  {
    var from, to := Position(5, 1), Position(7, 1);
    KingsidePathClear(b, 1);
    assert Add(to, Horiz(-1)) == Position(6, 1);
    assert IsCastling(Intended, b, from, to, White);
  }

  /** With f empty on rank `r`, nothing stands between e and g on that rank. */
  lemma KingsidePathClear(b: Board, r: int)
    requires 1 <= r <= 8 && At(b, Position(6, r)).isEmpty
    ensures IsStraight(Sub(Position(7, r), Position(5, r)))
    ensures !PathOccupied(b, Position(5, r), Position(7, r))
  {
    CastlingFirstStep(Position(5, r), Position(7, r), r);
  }

  /** Castling e1-g1 over the knight passes the obstruction test as written; performed, it
      reports `capture`. The intended test blocks it. */
  lemma CastlingOntoPieceAsWritten()
    ensures var b, from, to := RestartLapses(KnightOnCastlingSquareBoard(), White), Position(5, 1), Position(7, 1);
            IsCastling(AsWritten, b, from, to, White) && IsCastling(Intended, b, from, to, White)
            && CanMove(b, from, to, King, White)
            && !IsBlocked(AsWritten, b, White, from, to, White)
            && !Rules.HasMoved(b, from, to)
            && !At(b, to).isEmpty && At(b, to).owner == Black
            && Commit(AsWritten, b, White, from, to, Queen).1 == Capture
            && IsBlocked(Intended, b, White, from, to, White)
  {
    KnightBoardSetup();
    CastlingOntoOpponentCommit(Game(KnightOnCastlingSquareBoard(), White));
  }

  /** The knight board is such a game. */
  lemma KnightBoardSetup()
    ensures OpponentOnCastlingSquare(Game(KnightOnCastlingSquareBoard(), White))
  {
    var b := KnightOnCastlingSquareBoard();
    assert At(b, Position(5, 1)) == NewOccupant(White, King);
    assert At(b, Position(6, 1)) == Empty;
    assert At(b, Position(7, 1)) == NewOccupant(Black, Knight);
    assert At(b, Position(8, 1)) == NewOccupant(White, Rook);
  }

  /** On such a game, after `restartLapses`, castling e1-g1 is a king's move that passes the
      obstruction test as written, with both pieces unmoved, and performing it reports
      `capture`; the intended test blocks it. */
  lemma CastlingOntoOpponentCommit(g: Game)
    requires OpponentOnCastlingSquare(g)
    ensures var b, from, to := RestartLapses(g.board, White), Position(5, 1), Position(7, 1);
            IsCastling(AsWritten, b, from, to, White) && IsCastling(Intended, b, from, to, White)
            && CanMove(b, from, to, King, White)
            && !IsBlocked(AsWritten, b, White, from, to, White)
            && !Rules.HasMoved(b, from, to)
            && !At(b, to).isEmpty && At(b, to).owner == Black
            && Commit(AsWritten, b, White, from, to, Queen).1 == Capture
            && IsBlocked(Intended, b, White, from, to, White)
  {
    var b, from, to := RestartLapses(g.board, White), Position(5, 1), Position(7, 1);
    CastlingOntoOpponentSetup(g);
    CastlingOntoOpponentRestart(g);
    CastlingOntoOpponentKingMove(g);
    CastlingOntoOpponentCaptures(g);
  }

  /** Performed after `restartLapses` on such a game, castling e1-g1 reports `capture`. */
  lemma CastlingOntoOpponentCaptures(g: Game)
    requires OpponentOnCastlingSquare(g)
    ensures Commit(AsWritten, RestartLapses(g.board, White), White, Position(5, 1), Position(7, 1), Queen).1 == Capture
  {
    var b, from, to := RestartLapses(g.board, White), Position(5, 1), Position(7, 1);
    CastlingOntoOpponentRestart(g);
    assert !IsEnPassant(b, White, from, to);
    Properties.CommitResult(AsWritten, b, White, from, to, Queen);
  }

  /** After `restartLapses` the move e1-g1 of such a game is still a castling by the king,
      with both pieces unmoved. */
  lemma CastlingOntoOpponentKingMove(g: Game)
    requires OpponentOnCastlingSquare(g)
    ensures var b, from, to := RestartLapses(g.board, White), Position(5, 1), Position(7, 1);
            IsCastling(AsWritten, b, from, to, White) && IsCastling(Intended, b, from, to, White)
            && CanMove(b, from, to, King, White) && !Rules.HasMoved(b, from, to)
  {
    var b, from, to := RestartLapses(g.board, White), Position(5, 1), Position(7, 1);
    CastlingOntoOpponentShape(g);
    Properties.RestartKeepsTests(AsWritten, g.board, White, from, to);
    Properties.RestartKeepsTests(Intended, g.board, White, from, to);
    Properties.CastlingMoverShapes(AsWritten, b, from, to, White, King);
  }

  /** White to move, its king and king's rook unmoved on e1 and h1, f1 empty and a black
      piece on g1. */
  predicate OpponentOnCastlingSquare(g: Game) {
    g.player == White
    && At(g.board, Position(5, 1)) == NewOccupant(White, King)
    && At(g.board, Position(6, 1)).isEmpty
    && !At(g.board, Position(7, 1)).isEmpty && At(g.board, Position(7, 1)).owner == Black
    && At(g.board, Position(8, 1)) == NewOccupant(White, Rook)
  }

  /** On such a game `play` as written either castles onto that piece, reporting `capture`,
      with the king on g1, or refuses for a check reason. */
  lemma CastlingOntoOpponentPlay(g: Game)
    requires OpponentOnCastlingSquare(g)
    ensures PlayDefined(g, Position(5, 1), Position(7, 1))
    ensures var r := Play(AsWritten, g, Position(5, 1), Position(7, 1), Queen).1;
            r == Capture || r == InCheck || r == Result.WouldCheck
    ensures var (a, r) := Play(AsWritten, g, Position(5, 1), Position(7, 1), Queen);
            r == Capture ==> At(a.board, Position(7, 1)) == NewOccupant(White, King).(didMove := true)
  {
    CastlingOntoOpponentOutcome(g);
    CastlingOntoOpponentKing(g);
  }

  /** The outcomes of `play` as written on such a game. */
  lemma CastlingOntoOpponentOutcome(g: Game)
    requires OpponentOnCastlingSquare(g)
    ensures PlayDefined(g, Position(5, 1), Position(7, 1))
    ensures var r := Play(AsWritten, g, Position(5, 1), Position(7, 1), Queen).1;
            r == Capture || r == InCheck || r == Result.WouldCheck
  {
    CastlingOntoOpponentSetup(g);
    UnblockedCastlingOutcomes(AsWritten, g, Position(5, 1), Position(7, 1), Queen);
  }

  /** Where the king lands when `play` as written castles on such a game. */
  lemma CastlingOntoOpponentKing(g: Game)
    requires OpponentOnCastlingSquare(g)
    ensures PlayDefined(g, Position(5, 1), Position(7, 1))
    ensures var (a, r) := Play(AsWritten, g, Position(5, 1), Position(7, 1), Queen);
            r == Capture ==> At(a.board, Position(7, 1)) == NewOccupant(White, King).(didMove := true)
  {
    CastlingOntoOpponentSetup(g);
    UnblockedCastlingOutcomes(AsWritten, g, Position(5, 1), Position(7, 1), Queen);
  }

  /** The intended rules answer `blocked` on such a game. */
  lemma CastlingOntoOpponentBlocked(g: Game)
    requires OpponentOnCastlingSquare(g)
    ensures PlayDefined(g, Position(5, 1), Position(7, 1))
    ensures Play(Intended, g, Position(5, 1), Position(7, 1), Queen).1 == Result.Blocked
  {
    CastlingOntoOpponentSetup(g);
    BlockedCastlingRefused(Intended, g, Position(5, 1), Position(7, 1), Queen);
  }

  /** The tests `play` makes on such a game, before and after `restartLapses`. */
  lemma CastlingOntoOpponentSetup(g: Game)
    requires OpponentOnCastlingSquare(g)
    ensures var from, to, b := Position(5, 1), Position(7, 1), RestartLapses(g.board, White);
            PlayDefined(g, from, to)
            && IsCastling(AsWritten, g.board, from, to, White) && IsCastling(Intended, g.board, from, to, White)
            && !IsBlocked(AsWritten, b, White, from, to, White) && IsBlocked(Intended, b, White, from, to, White)
            && !Rules.HasMoved(g.board, from, to)
  {
    CastlingOntoOpponentShape(g);
    var b := RestartLapses(g.board, White);
    CastlingOntoOpponentRestart(g);
    CastlingOntoOpponentGuard(b);
  }

  /** The castling and moved-piece tests on such a game. */
  lemma CastlingOntoOpponentShape(g: Game)
    requires OpponentOnCastlingSquare(g)
    ensures var from, to := Position(5, 1), Position(7, 1);
            PlayDefined(g, from, to)
            && IsCastling(AsWritten, g.board, from, to, White) && IsCastling(Intended, g.board, from, to, White)
            && !Rules.HasMoved(g.board, from, to)
  {
    assert Add(Position(5, 1), Horiz(3)) == Position(8, 1);
  }

  /** Closing White's windows leaves the four squares of such a game as they were. */
  lemma CastlingOntoOpponentRestart(g: Game)
    requires OpponentOnCastlingSquare(g)
    ensures var b := RestartLapses(g.board, White);
            At(b, Position(5, 1)).piece == King && At(b, Position(5, 1)).owner == White
            && At(b, Position(6, 1)).isEmpty
            && !At(b, Position(7, 1)).isEmpty && At(b, Position(7, 1)).owner == Black
            && At(b, Position(8, 1)).piece == Rook && At(b, Position(8, 1)).owner == White
  {
    var b := RestartLapses(g.board, White);
    assert At(b, Position(5, 1)) == ClearLapse(At(g.board, Position(5, 1)), White);
    assert At(b, Position(6, 1)) == ClearLapse(At(g.board, Position(6, 1)), White);
    assert At(b, Position(7, 1)) == ClearLapse(At(g.board, Position(7, 1)), White);
    assert At(b, Position(8, 1)) == ClearLapse(At(g.board, Position(8, 1)), White);
  }

  /** A castling by an unmoved king with an unmoved rook that passes the obstruction test
      either succeeds or is refused for a check reason, under either rulebook. */
  lemma UnblockedCastlingOutcomes(rb: Rulebook, g: Game, from: Position, to: Position, promote: PieceType)
    requires PlayDefined(g, from, to) && OnBoard(from)
    requires IsCastling(rb, g.board, from, to, g.player)
    requires !At(g.board, from).isEmpty && At(g.board, from).owner == g.player && At(g.board, from).piece == King
    requires !IsBlocked(rb, RestartLapses(g.board, g.player), g.player, from, to, g.player)
    requires !Rules.HasMoved(g.board, from, to)
    ensures var r := Play(rb, g, from, to, promote).1;
            (r == Ok || r == Capture || r == InCheck || r == Result.WouldCheck)
            && (IsSuccess(r) ==> (r == Capture <==> !At(g.board, to).isEmpty))
            && (IsSuccess(r) ==> At(Play(rb, g, from, to, promote).0.board, to) == At(g.board, from).(didMove := true))
  {
    Properties.RestartKeepsTests(rb, g.board, g.player, from, to);
    Properties.RestartOnlyClosesOwnWindows(g.board, g.player, from);
    Properties.CastlingMoverShapes(rb, g.board, from, to, g.player, King);
    Properties.EarlyRejections(rb, g, from, to, promote);
    Properties.LaterRejections(rb, g, from, to, promote);
    Properties.CastlingOutcomes(rb, g, from, to, promote);
    if IsSuccess(Play(rb, g, from, to, promote).1) {
      Properties.CaptureIffTaking(rb, g, from, to, promote);
      Properties.CastledKing(rb, g, from, to, promote);
    }
  }

  /** A castling by a king that fails the obstruction test is refused with `blocked`. */
  lemma BlockedCastlingRefused(rb: Rulebook, g: Game, from: Position, to: Position, promote: PieceType)
    requires PlayDefined(g, from, to) && OnBoard(from)
    requires IsCastling(rb, g.board, from, to, g.player)
    requires !At(g.board, from).isEmpty && At(g.board, from).owner == g.player && At(g.board, from).piece == King
    requires IsBlocked(rb, RestartLapses(g.board, g.player), g.player, from, to, g.player)
    ensures Play(rb, g, from, to, promote).1 == Result.Blocked
  {
    Properties.RestartKeepsTests(rb, g.board, g.player, from, to);
    Properties.CastlingMoverShapes(rb, g.board, from, to, g.player, King);
    Properties.LaterRejections(rb, g, from, to, promote);
  }

  /** So on the knight board `play` as written castles onto the knight or refuses for a
      check reason, where the intended rules answer `blocked`. */
  lemma CastlingOntoPiecePlay()
    ensures var g, from, to := Game(KnightOnCastlingSquareBoard(), White), Position(5, 1), Position(7, 1);
            PlayDefined(g, from, to)
            && (var r := Play(AsWritten, g, from, to, Queen).1; r == Capture || r == InCheck || r == Result.WouldCheck)
            && (Play(AsWritten, g, from, to, Queen).1 == Capture
                ==> At(Play(AsWritten, g, from, to, Queen).0.board, to) == NewOccupant(White, King).(didMove := true))
            && Play(Intended, g, from, to, Queen).1 == Result.Blocked
  {
    KnightBoardSetup();
    CastlingOntoOpponentPlay(Game(KnightOnCastlingSquareBoard(), White));
    CastlingOntoOpponentBlocked(Game(KnightOnCastlingSquareBoard(), White));
  }

  /** A black king on e8 and a black rook on h8, neither moved, f8 empty, a white king on g8. */
  function KingBesideCastlingKingBoard(): Board {
    BoardOf(p =>
      if p == Position(5, 8) then NewOccupant(Black, King)
      else if p == Position(8, 8) then NewOccupant(Black, Rook)
      else if p == Position(7, 8) then NewOccupant(White, King)
      else Empty)
  }

  /** The same gap in the check test: as written, the black king's castling shape e8-g8 is
      not obstructed by the white king on g8, so the black king counts as threatening g8
      and that square as attacked; with the intended obstruction test it does not. */
  lemma CastlingShapeThreatAsWritten()
    ensures var b, e8, g8 := KingBesideCastlingKingBoard(), Position(5, 8), Position(7, 8);
            Threatens(AsWritten, b, White, e8, g8) && ThreatExists(AsWritten, b, White, g8)
            && !Threatens(Intended, b, White, e8, g8)
  {
    var b := KingBesideCastlingKingBoard();
    assert At(b, Position(5, 8)) == NewOccupant(Black, King);
    assert At(b, Position(6, 8)) == Empty;
    assert At(b, Position(7, 8)) == NewOccupant(White, King);
    assert At(b, Position(8, 8)) == NewOccupant(Black, Rook);
    CastlingShapeThreat(b);
  }

  /** On any board with the black king on e8, f8 empty, a white piece on g8 and a black rook
      on h8, the king's castling shape counts as a threat to g8 as written and not under the
      intended obstruction test. */
  lemma CastlingShapeThreat(b: Board)
    requires At(b, Position(5, 8)).piece == King && At(b, Position(5, 8)).owner == Black && !At(b, Position(5, 8)).isEmpty
    requires At(b, Position(6, 8)).isEmpty
    requires !At(b, Position(7, 8)).isEmpty && At(b, Position(7, 8)).owner == White
    requires At(b, Position(8, 8)).piece == Rook && At(b, Position(8, 8)).owner == Black
    ensures Threatens(AsWritten, b, White, Position(5, 8), Position(7, 8))
    ensures ThreatExists(AsWritten, b, White, Position(7, 8))
    ensures !Threatens(Intended, b, White, Position(5, 8), Position(7, 8))
  {
    var e8, g8 := Position(5, 8), Position(7, 8);
    CastlingShapeObstruction(b);
    assert Threatens(AsWritten, b, White, e8, g8);
    IndexInverse(e8);
    assert Threatens(AsWritten, b, White, PosAt(Index(e8)), g8);
  }

  /** On such a board the black king may move e8-g8 by shape, and only the intended test
      finds that move obstructed. */
  lemma CastlingShapeObstruction(b: Board)
    requires At(b, Position(5, 8)).piece == King && At(b, Position(5, 8)).owner == Black && !At(b, Position(5, 8)).isEmpty
    requires At(b, Position(6, 8)).isEmpty
    requires !At(b, Position(7, 8)).isEmpty && At(b, Position(7, 8)).owner == White
    requires At(b, Position(8, 8)).piece == Rook && At(b, Position(8, 8)).owner == Black
    ensures CanMove(b, Position(5, 8), Position(7, 8), King, Black)
    ensures !IsBlocked(AsWritten, b, White, Position(5, 8), Position(7, 8), Black)
    ensures IsBlocked(Intended, b, White, Position(5, 8), Position(7, 8), Black)
  {
    var e8, g8 := Position(5, 8), Position(7, 8);
    KingsidePathClear(b, 8);
    assert Add(g8, Horiz(-1)) == Position(6, 8);
    assert IsCastling(AsWritten, b, e8, g8, Black) && IsCastling(Intended, b, e8, g8, Black);
    Properties.CastlingMoverShapes(AsWritten, b, e8, g8, Black, King);
  }

  /** With the intended test, a castling that is not blocked has every square between the
      king and the rook empty: f1 and g1 on the king's side, b1, c1 and d1 on the queen's side
      (on rank 8 for Black). */
  lemma UnblockedCastlingPath(b: Board, pl: Player, from: Position, to: Position)
    requires OnBoard(from) && IsCastling(Intended, b, from, to, pl) && !IsBlocked(Intended, b, pl, from, to, pl)
    ensures var r := HomeRank(pl);
            if to.file == 7 then At(b, Position(6, r)).isEmpty && At(b, Position(7, r)).isEmpty
            else At(b, Position(2, r)).isEmpty && At(b, Position(3, r)).isEmpty && At(b, Position(4, r)).isEmpty
  {
    CastlingBesideFree(b, pl, from, to);
    CastlingEndsFree(b, pl, from, to);
  }

  /** With the intended test, an unblocked castling has an empty square beside the king:
      f1, or d1 on the queen's side. */
  lemma CastlingBesideFree(b: Board, pl: Player, from: Position, to: Position)
    requires OnBoard(from) && IsCastling(Intended, b, from, to, pl) && !IsBlocked(Intended, b, pl, from, to, pl)
    ensures At(b, Position(if to.file == 7 then 6 else 4, HomeRank(pl))).isEmpty
  {
    Properties.CastlingGeometry(Intended, b, from, to, pl);
    CastlingFirstStep(from, to, HomeRank(pl));
    if !At(b, Step(from, UnitDirection(Sub(to, from)), 1)).isEmpty {
      Properties.InteriorPieceObstructs(Intended, b, pl, from, to, pl, 1);
    }
  }

  /** The first square a castling king crosses: f1, or d1 on the queen's side. */
  lemma CastlingFirstStep(from: Position, to: Position, r: int)
    requires 1 <= r <= 8 && from == Position(5, r) && (to == Position(7, r) || to == Position(3, r))
    ensures IsStraight(Sub(to, from)) && Chebyshev(Sub(to, from)) == 2
    ensures Step(from, UnitDirection(Sub(to, from)), 1) == Position(if to.file == 7 then 6 else 4, r)
  {
  }

  /** With the intended test, an unblocked castling has an empty destination and an empty
      square on its queen's side: g1 and f1, or c1 and b1. */
  lemma CastlingEndsFree(b: Board, pl: Player, from: Position, to: Position)
    requires OnBoard(from) && IsCastling(Intended, b, from, to, pl) && !IsBlocked(Intended, b, pl, from, to, pl)
    ensures var r := HomeRank(pl);
            to == Position(if to.file == 7 then 7 else 3, r)
            && At(b, to).isEmpty && At(b, Position(to.file - 1, r)).isEmpty
  {
    Properties.CastlingGeometry(Intended, b, from, to, pl);
    assert IsStraight(Sub(to, from));
    assert Add(to, Horiz(-1)) == Position(to.file - 1, HomeRank(pl));
  }

  /** The same for a castling that `play` accepts under the intended rules, about the board
      it was played on. */
  lemma CastlingNeedsEmptySquares(g: Game, from: Position, to: Position, promote: PieceType)
    requires PlayDefined(g, from, to) && IsSuccess(Play(Intended, g, from, to, promote).1)
    requires IsCastling(Intended, g.board, from, to, g.player)
    ensures var b, r := g.board, HomeRank(g.player);
            if to.file == 7 then At(b, Position(6, r)).isEmpty && At(b, Position(7, r)).isEmpty
            else At(b, Position(2, r)).isEmpty && At(b, Position(3, r)).isEmpty && At(b, Position(4, r)).isEmpty
  {
    var b, pl := RestartLapses(g.board, g.player), g.player;
    Properties.Accepted(Intended, g, from, to, promote);
    Properties.ProceedFacts(Intended, b, pl, from, to, promote);
    Properties.RestartKeepsTests(Intended, g.board, pl, from, to);
    PathBeforeRestart(g.board, pl, from, to);
  }

  /** The squares an unblocked castling needs empty were already empty before the mover's
      windows were closed. */
  lemma PathBeforeRestart(b0: Board, pl: Player, from: Position, to: Position)
    requires var b := RestartLapses(b0, pl);
             OnBoard(from) && IsCastling(Intended, b, from, to, pl) && !IsBlocked(Intended, b, pl, from, to, pl)
    ensures var r := HomeRank(pl);
            if to.file == 7 then At(b0, Position(6, r)).isEmpty && At(b0, Position(7, r)).isEmpty
            else At(b0, Position(2, r)).isEmpty && At(b0, Position(3, r)).isEmpty && At(b0, Position(4, r)).isEmpty
  {
    var b, r := RestartLapses(b0, pl), HomeRank(pl);
    UnblockedCastlingPath(b, pl, from, to);
    forall f | 1 <= f <= 8
      ensures At(b0, Position(f, r)).isEmpty == At(b, Position(f, r)).isEmpty
    {
      Properties.RestartOnlyClosesOwnWindows(b0, pl, Position(f, r));
    }
  }
}
