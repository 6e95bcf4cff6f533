/** What the rules promise, stated as lemmas about the functions of module Rules: the
    shapes the pieces move in, what obstructs a move, and what one call of `play` does to the
    game on its error path and on its success path. */
module Properties {
  import opened Geometry
  import opened Pieces
  import opened Rules

  // ---------------------------------------------------------------------------------------
  // Piece shapes

  /** Rooks, knights, bishops and queens test the displacement `from - to`; their shapes are
      symmetric, so the direction of the move does not matter to them. */
  lemma SymmetricShapes(b: Board, from: Position, to: Position, kind: PieceType, pl: Player)
    requires Addressable(from) && Addressable(to)
    requires kind != Pawn && kind != King
    ensures CanMove(b, from, to, kind, pl) == CanMove(b, to, from, kind, pl)
  {
  }

  /** A knight jumps exactly to the squares whose file and rank distances multiply to 2. */
  lemma KnightShape(m: Move)
    ensures CanMoveKnight(m) <==> AbsInt(m.file) * AbsInt(m.rank) == 2
  {
  }

  /** A king moves to a square at Chebyshev distance at most one, or castles. */
  lemma KingShape(b: Board, from: Position, to: Position, pl: Player)
    requires Addressable(from) && Addressable(to)
    ensures CanMoveKing(b, from, to, pl) <==> Chebyshev(Sub(to, from)) <= 1 || IsCastling(AsWritten, b, from, to, pl)
  {
  }

  /** A queen is accepted exactly where a rook or a bishop would be. */
  lemma QueenShape(b: Board, from: Position, to: Position, pl: Player)
    requires Addressable(from) && Addressable(to)
    ensures CanMove(b, from, to, Queen, pl) <==> CanMove(b, from, to, Rook, pl) || CanMove(b, from, to, Bishop, pl)
  {
  }

  /** A pawn only moves forward, by one rank, or by two ranks straight ahead when it has never
      moved; a step to another file goes one file aside and needs a piece to take, on the
      destination or, for en passant, behind it. */
  lemma PawnShape(b: Board, from: Position, to: Position, pl: Player)
    requires OnBoard(from) && Addressable(to)
    requires CanMovePawn(b, from, to, pl)
    ensures OnBoard(to)
    ensures Sub(to, from).rank == Forward(pl) || Sub(to, from).rank == 2 * Forward(pl)
    ensures Sub(to, from).rank == 2 * Forward(pl) ==> Sub(to, from).file == 0 && !At(b, from).didMove
    ensures Sub(to, from).file != 0 ==>
              AbsInt(Sub(to, from).file) == 1 && Sub(to, from).rank == Forward(pl)
              && (!At(b, to).isEmpty
                  || (At(b, Add(to, Vert(Backward(pl)))).owner != pl && At(b, Add(to, Vert(Backward(pl)))).didTwoStep))
  {
  }

  // ---------------------------------------------------------------------------------------
  // Obstruction

  /** A knight's move is obstructed only by a piece of the mover on the destination: the
      squares it jumps over never matter. */
  lemma KnightNeverObstructed(rb: Rulebook, b: Board, side: Player, from: Position, to: Position, pl: Player)
    requires OnBoard(from) && Addressable(to)
    requires CanMoveKnight(Sub(from, to))
    ensures IsBlocked(rb, b, side, from, to, pl) <==> !At(b, to).isEmpty && At(b, to).owner == pl
  {
    KnightJumpIsNoLine(from, to);
  }

  /** A knight's jump is neither straight nor diagonal, in either direction. */
  lemma KnightJumpIsNoLine(from: Position, to: Position)
    requires CanMoveKnight(Sub(from, to))
    ensures !IsStraight(Sub(to, from)) && !IsDiagonal(Sub(to, from))
  {
  }

  /** A pawn cannot take with a straight move: any piece on the destination stops it. */
  lemma PawnCannotCaptureStraight(rb: Rulebook, b: Board, from: Position, to: Position, pl: Player)
    requires OnBoard(from) && Addressable(to)
    requires At(b, from).piece == Pawn && IsStraight(Sub(to, from)) && !At(b, to).isEmpty
    ensures IsBlocked(rb, b, pl, from, to, pl)
  {
  }

  /** A piece on any square strictly between the ends of a straight or diagonal move
      obstructs it. */
  lemma InteriorPieceObstructs(rb: Rulebook, b: Board, side: Player, from: Position, to: Position, pl: Player, i: int)
    requires OnBoard(from) && Addressable(to)
    requires IsStraight(Sub(to, from)) || IsDiagonal(Sub(to, from))
    requires 0 < i < Chebyshev(Sub(to, from))
    requires !At(b, Step(from, UnitDirection(Sub(to, from)), i)).isEmpty
    ensures IsBlocked(rb, b, side, from, to, pl)
  {
    RayInterior(from, to, i);
  }

  /** A move other than castling and other than a pawn's straight move is free when the
      destination holds no piece of the mover and every square between the ends is empty. */
  lemma ClearLineNotObstructed(rb: Rulebook, b: Board, side: Player, from: Position, to: Position, pl: Player)
    requires OnBoard(from) && Addressable(to)
    requires IsStraight(Sub(to, from)) || IsDiagonal(Sub(to, from))
    requires At(b, to).isEmpty || At(b, to).owner != pl
    requires At(b, from).piece != Pawn && !IsCastling(rb, b, from, to, pl)
    requires forall i :: 0 < i < Chebyshev(Sub(to, from)) ==> At(b, Step(from, UnitDirection(Sub(to, from)), i)).isEmpty
    ensures !IsBlocked(rb, b, side, from, to, pl)
  {
    RayInsideBoard(from, to);
  }

  // ---------------------------------------------------------------------------------------
  // Validation

  /** What a move that passed validation is known to satisfy: an own piece on a square of the
      board, the right shape, no obstruction, no closed en passant window, no castling out of
      a position the engine rejects, and a valid promotion request. */
  lemma ProceedFacts(rb: Rulebook, b: Board, pl: Player, from: Position, to: Position, promote: PieceType)
    requires Addressable(from) && OnBoard(to)
    requires !(IsEnPassant(b, pl, from, to) && (to.rank == 1 || to.rank == 8))
    requires Judge(rb, b, pl, from, to, promote) == Proceed
    ensures OnBoard(from) && !At(b, from).isEmpty && At(b, from).owner == pl
    ensures CanMove(b, from, to, At(b, from).piece, pl)
    ensures !IsBlocked(rb, b, pl, from, to, pl)
    ensures !IsLapsed(rb, b, pl, from, to)
    ensures IsCastling(rb, b, from, to, pl) ==> !Rules.HasMoved(b, from, to)
    ensures IsPromote(b, from, to) ==> IsValidPromote(promote)
    ensures from != to
  {
    assert Validate(rb, b, pl, from, to) == Proceed;
    ScreenPassed(rb, b, pl, from, to);
  }

  /** What the tests after the shape test establish when they let a move through. */
  lemma ScreenPassed(rb: Rulebook, b: Board, pl: Player, from: Position, to: Position)
    requires OnBoard(from) && OnBoard(to) && !At(b, from).isEmpty && At(b, from).owner == pl
    requires CanMove(b, from, to, At(b, from).piece, pl)
    requires !(IsEnPassant(b, pl, from, to) && (to.rank == 1 || to.rank == 8))
    requires Screen(rb, b, pl, from, to) == Proceed
    ensures !IsBlocked(rb, b, pl, from, to, pl) && !IsLapsed(rb, b, pl, from, to)
    ensures IsCastling(rb, b, from, to, pl) ==> !Rules.HasMoved(b, from, to)
    ensures from != to
  {
    if from == to {
      assert IsBlocked(rb, b, pl, from, to, pl);
    }
  }

  /** Validation never reports a success outcome. */
  lemma JudgeRejectsWithErrors(rb: Rulebook, b: Board, pl: Player, from: Position, to: Position, promote: PieceType)
    requires Addressable(from) && OnBoard(to)
    requires !(IsEnPassant(b, pl, from, to) && (to.rank == 1 || to.rank == 8))
    ensures Judge(rb, b, pl, from, to, promote).Reject? ==> !IsSuccess(Judge(rb, b, pl, from, to, promote).result)
  {
  }

  /** Closing the mover's windows changes nothing but the `canBeLapsed` flag of the mover's
      own pawns: the opponent's pieces and every other field are untouched. */
  lemma RestartOnlyClosesOwnWindows(b: Board, pl: Player, q: Position)
    requires Addressable(q)
    ensures At(RestartLapses(b, pl), q).(canBeLapsed := At(b, q).canBeLapsed) == At(b, q)
    ensures At(RestartLapses(b, pl), q).canBeLapsed
            <==> At(b, q).canBeLapsed && !(!At(b, q).isEmpty && At(b, q).owner == pl && At(b, q).piece == Pawn)
  {
  }

  /** Closing windows leaves every field a move's shape, obstruction, castling and promotion
      tests read: those tests answer the same before and after `restartLapses`. */
  lemma RestartKeepsTests(rb: Rulebook, b: Board, pl: Player, from: Position, to: Position)
    requires OnBoard(from) && Addressable(to)
    ensures var c := RestartLapses(b, pl);
            At(c, from).isEmpty == At(b, from).isEmpty && At(c, from).owner == At(b, from).owner
            && At(c, from).piece == At(b, from).piece
            && CanMove(c, from, to, At(b, from).piece, pl) == CanMove(b, from, to, At(b, from).piece, pl)
            && IsCastling(rb, c, from, to, pl) == IsCastling(rb, b, from, to, pl)
            && IsPromote(c, from, to) == IsPromote(b, from, to)
            && Rules.HasMoved(c, from, to) == Rules.HasMoved(b, from, to)
  {
    RestartOnlyClosesOwnWindows(b, pl, from);
    RestartKeepsCastling(rb, b, pl, from, to);
    RestartKeepsShape(b, pl, from, to);
    RestartKeepsHasMoved(b, pl, from, to);
  }

  /** Closing the mover's windows does not change whether a move is castling. */
  lemma RestartKeepsCastling(rb: Rulebook, b: Board, pl: Player, from: Position, to: Position)
    ensures IsCastling(rb, RestartLapses(b, pl), from, to, pl) == IsCastling(rb, b, from, to, pl)
  {
    var r := HomeRank(pl);
    if from == Position(5, r) {
      RestartOnlyClosesOwnWindows(b, pl, from);
      RestartOnlyClosesOwnWindows(b, pl, Position(8, r));
      RestartOnlyClosesOwnWindows(b, pl, Position(1, r));
    }
  }

  /** Closing the mover's windows does not change whether a piece may move that way. */
  lemma RestartKeepsShape(b: Board, pl: Player, from: Position, to: Position)
    requires OnBoard(from) && Addressable(to)
    ensures CanMove(RestartLapses(b, pl), from, to, At(b, from).piece, pl) == CanMove(b, from, to, At(b, from).piece, pl)
  {
    RestartOnlyClosesOwnWindows(b, pl, from);
    if At(b, from).piece == Pawn {
      RestartOnlyClosesOwnWindows(b, pl, to);
      RestartOnlyClosesOwnWindows(b, pl, Add(to, Vert(-Forward(pl))));
    } else if At(b, from).piece == King {
      RestartKeepsCastling(AsWritten, b, pl, from, to);
    }
  }

  /** Closing the mover's windows does not change whether the king or a rook has moved. */
  lemma RestartKeepsHasMoved(b: Board, pl: Player, from: Position, to: Position)
    requires OnBoard(from)
    ensures Rules.HasMoved(RestartLapses(b, pl), from, to) == Rules.HasMoved(b, from, to)
  {
    RestartOnlyClosesOwnWindows(b, pl, from);
    RestartOnlyClosesOwnWindows(b, pl, Add(from, Horiz(3)));
    RestartOnlyClosesOwnWindows(b, pl, Add(from, Horiz(-4)));
  }

  // ---------------------------------------------------------------------------------------
  // The outcome of `play`

  /** One call of `play`: the outcome is a success exactly when validation accepts the move;
      an error keeps the side to move and leaves the board as `restartLapses` made it, so
      only the mover's own pawns lose their en passant window; a success, and only a
      success, passes the turn. */
  lemma PlayOutcome(rb: Rulebook, g: Game, from: Position, to: Position, promote: PieceType)
    requires PlayDefined(g, from, to)
    ensures var b := RestartLapses(g.board, g.player);
            IsSuccess(Play(rb, g, from, to, promote).1) <==> Judge(rb, b, g.player, from, to, promote) == Proceed
    ensures !IsSuccess(Play(rb, g, from, to, promote).1)
            ==> Play(rb, g, from, to, promote).0 == Game(RestartLapses(g.board, g.player), g.player)
    ensures IsSuccess(Play(rb, g, from, to, promote).1) <==> Play(rb, g, from, to, promote).0.player == Opponent(g.player)
  {
    var b := RestartLapses(g.board, g.player);
    JudgeRejectsWithErrors(rb, b, g.player, from, to, promote);
  }

  /** A successful `play` validated the move on the board `restartLapses` produced and then
      performed it there. */
  lemma Accepted(rb: Rulebook, g: Game, from: Position, to: Position, promote: PieceType)
    requires PlayDefined(g, from, to) && IsSuccess(Play(rb, g, from, to, promote).1)
    ensures var b := RestartLapses(g.board, g.player);
            Judge(rb, b, g.player, from, to, promote) == Proceed
            && OnBoard(from)
            && Play(rb, g, from, to, promote) == Commit(rb, b, g.player, from, to, promote)
  {
    PlayOutcome(rb, g, from, to, promote);
  }

  /** The first three tests of `play`, in their order: no piece on `from`, a piece of the
      opponent there, a piece that cannot move that way. */
  lemma EarlyRejections(rb: Rulebook, g: Game, from: Position, to: Position, promote: PieceType)
    requires PlayDefined(g, from, to)
    ensures var r, o := Play(rb, g, from, to, promote).1, At(g.board, from);
            (r == NoPiece <==> o.isEmpty)
            && (r == BadPiece <==> !o.isEmpty && o.owner != g.player)
            && (r == BadMove <==> !o.isEmpty && o.owner == g.player && !CanMove(g.board, from, to, o.piece, g.player))
  {
    var b, pl := RestartLapses(g.board, g.player), g.player;
    PlayOutcome(rb, g, from, to, promote);
    if OnBoard(from) {
      RestartKeepsTests(rb, g.board, pl, from, to);
    }
    JudgeEarly(rb, b, pl, from, to, promote);
  }

  /** The first three verdicts of validation on one board, each exactly when its test fails
      first. */
  lemma JudgeEarly(rb: Rulebook, b: Board, pl: Player, from: Position, to: Position, promote: PieceType)
    requires Addressable(from) && OnBoard(to)
    requires !(IsEnPassant(b, pl, from, to) && (to.rank == 1 || to.rank == 8))
    ensures var v, o := Judge(rb, b, pl, from, to, promote), At(b, from);
            (v == Reject(NoPiece) <==> o.isEmpty)
            && (v == Reject(BadPiece) <==> !o.isEmpty && o.owner != pl)
            && (v == Reject(BadMove) <==> !o.isEmpty && o.owner == pl && !CanMove(b, from, to, o.piece, pl))
  {
    var o, v := At(b, from), Validate(rb, b, pl, from, to);
    assert Judge(rb, b, pl, from, to, promote) == if v == Proceed then PromotionVerdict(b, from, to, promote) else v;
    if o.isEmpty {
      assert v == Reject(NoPiece);
    } else if o.owner != pl {
      assert v == Reject(BadPiece);
    } else if !CanMove(b, from, to, o.piece, pl) {
      assert v == Reject(BadMove);
    } else {
      assert v == Screen(rb, b, pl, from, to);
    }
  }

  /** The rejections after the first three tests, in their order, each on the board the
      tests are made on (the one `restartLapses` produced): `blocked` exactly when the move has
      passed the first three tests and is obstructed; `lapsed` when it is also unobstructed and
      the lapse test holds; then, past those, `in_check` when the mover was in check and the
      move is a castling or ends in check, `would_check` when the mover was not in check and
      the move ends in check, and `has_moved` for a castling that passes both check tests
      while the king or the rook has moved. */
  lemma LaterRejections(rb: Rulebook, g: Game, from: Position, to: Position, promote: PieceType)
    requires PlayDefined(g, from, to)
    ensures var r, b, pl := Play(rb, g, from, to, promote).1, RestartLapses(g.board, g.player), g.player;
            var o := At(b, from);
            var shaped := OnBoard(from) && !o.isEmpty && o.owner == pl && CanMove(b, from, to, o.piece, pl);
            var screened := shaped && !IsBlocked(rb, b, pl, from, to, pl) && !IsLapsed(rb, b, pl, from, to);
            (r == Result.Blocked <==> shaped && IsBlocked(rb, b, pl, from, to, pl))
            && (r == Lapsed <==> shaped && !IsBlocked(rb, b, pl, from, to, pl) && IsLapsed(rb, b, pl, from, to))
            && (r == InCheck
                <==> screened && IsChecked(rb, b, pl) && (IsCastling(rb, b, from, to, pl) || EndsInCheck(rb, b, pl, from, to)))
            && (r == Result.WouldCheck <==> screened && !IsChecked(rb, b, pl) && EndsInCheck(rb, b, pl, from, to))
            && (r == Result.HasMoved
                <==> (screened && IsCastling(rb, b, from, to, pl) && !IsChecked(rb, b, pl)
                      && !EndsInCheck(rb, b, pl, from, to) && Rules.HasMoved(b, from, to)))
  {
    var b := RestartLapses(g.board, g.player);
    PlayOutcome(rb, g, from, to, promote);
    JudgeScreens(rb, b, g.player, from, to, promote);
    JudgeChecks(rb, b, g.player, from, to, promote);
  }

  /** The obstruction and lapse verdicts of validation on one board, each exactly when its
      test is the first to fail. */
  lemma JudgeScreens(rb: Rulebook, b: Board, pl: Player, from: Position, to: Position, promote: PieceType)
    requires Addressable(from) && OnBoard(to)
    requires !(IsEnPassant(b, pl, from, to) && (to.rank == 1 || to.rank == 8))
    ensures var v, o := Judge(rb, b, pl, from, to, promote), At(b, from);
            var shaped := OnBoard(from) && !o.isEmpty && o.owner == pl && CanMove(b, from, to, o.piece, pl);
            (v == Reject(Result.Blocked) <==> shaped && IsBlocked(rb, b, pl, from, to, pl))
            && (v == Reject(Lapsed) <==> shaped && !IsBlocked(rb, b, pl, from, to, pl) && IsLapsed(rb, b, pl, from, to))
  {
    var o := At(b, from);
    if OnBoard(from) && !o.isEmpty && o.owner == pl && CanMove(b, from, to, o.piece, pl) {
      JudgeIsScreen(rb, b, pl, from, to, promote);
      ScreenOrder(rb, b, pl, from, to);
    } else {
      JudgeEarly(rb, b, pl, from, to, promote);
    }
  }

  /** The check and castling verdicts of validation on one board, each exactly when its test
      is the first to fail. */
  lemma JudgeChecks(rb: Rulebook, b: Board, pl: Player, from: Position, to: Position, promote: PieceType)
    requires Addressable(from) && OnBoard(to)
    requires !(IsEnPassant(b, pl, from, to) && (to.rank == 1 || to.rank == 8))
    ensures var v, o := Judge(rb, b, pl, from, to, promote), At(b, from);
            var screened := OnBoard(from) && !o.isEmpty && o.owner == pl && CanMove(b, from, to, o.piece, pl)
                            && !IsBlocked(rb, b, pl, from, to, pl) && !IsLapsed(rb, b, pl, from, to);
            (v == Reject(InCheck)
             <==> screened && IsChecked(rb, b, pl) && (IsCastling(rb, b, from, to, pl) || EndsInCheck(rb, b, pl, from, to)))
            && (v == Reject(Result.WouldCheck) <==> screened && !IsChecked(rb, b, pl) && EndsInCheck(rb, b, pl, from, to))
            && (v == Reject(Result.HasMoved)
                <==> (screened && IsCastling(rb, b, from, to, pl) && !IsChecked(rb, b, pl)
                      && !EndsInCheck(rb, b, pl, from, to) && Rules.HasMoved(b, from, to)))
  {
    var o := At(b, from);
    if OnBoard(from) && !o.isEmpty && o.owner == pl && CanMove(b, from, to, o.piece, pl) {
      JudgeIsScreen(rb, b, pl, from, to, promote);
      ScreenOrder(rb, b, pl, from, to);
      if !IsBlocked(rb, b, pl, from, to, pl) && !IsLapsed(rb, b, pl, from, to) {
        CheckOrder(rb, b, pl, from, to, IsChecked(rb, b, pl));
      }
    } else {
      JudgeEarly(rb, b, pl, from, to, promote);
    }
  }

  /** Once the shape test passed, validation answers what the later tests answer, followed by
      the promotion test. */
  lemma JudgeIsScreen(rb: Rulebook, b: Board, pl: Player, from: Position, to: Position, promote: PieceType)
    requires OnBoard(from) && OnBoard(to) && !At(b, from).isEmpty && At(b, from).owner == pl
    requires CanMove(b, from, to, At(b, from).piece, pl)
    requires !(IsEnPassant(b, pl, from, to) && (to.rank == 1 || to.rank == 8))
    ensures var s := Screen(rb, b, pl, from, to);
            Judge(rb, b, pl, from, to, promote) == if s == Proceed then PromotionVerdict(b, from, to, promote) else s
  {
  }

  /** The order of the tests after the shape test: obstruction, then the lapse test, then the
      check tests. */
  lemma ScreenOrder(rb: Rulebook, b: Board, pl: Player, from: Position, to: Position)
    requires OnBoard(from) && OnBoard(to) && !At(b, from).isEmpty
    requires CanMove(b, from, to, At(b, from).piece, pl)
    requires !(IsEnPassant(b, pl, from, to) && (to.rank == 1 || to.rank == 8))
    ensures var v := Screen(rb, b, pl, from, to);
            (v == Reject(Result.Blocked) <==> IsBlocked(rb, b, pl, from, to, pl))
            && (v == Reject(Lapsed) <==> !IsBlocked(rb, b, pl, from, to, pl) && IsLapsed(rb, b, pl, from, to))
            && (!IsBlocked(rb, b, pl, from, to, pl) && !IsLapsed(rb, b, pl, from, to)
                ==> v == CheckVerdict(rb, b, pl, from, to, IsChecked(rb, b, pl)))
  {
  }

  /** The order of the check tests: out of check, through or into check, then moved pieces
      for a castling; ending in check for any other move. */
  lemma CheckOrder(rb: Rulebook, b: Board, pl: Player, from: Position, to: Position, wasChecked: bool)
    requires OnBoard(from) && OnBoard(to) && !At(b, from).isEmpty
    requires CanMove(b, from, to, At(b, from).piece, pl)
    requires !(IsEnPassant(b, pl, from, to) && (to.rank == 1 || to.rank == 8))
    ensures var v := CheckVerdict(rb, b, pl, from, to, wasChecked);
            (v == Reject(InCheck) <==> wasChecked && (IsCastling(rb, b, from, to, pl) || EndsInCheck(rb, b, pl, from, to)))
            && (v == Reject(Result.WouldCheck) <==> !wasChecked && EndsInCheck(rb, b, pl, from, to))
            && (v == Reject(Result.HasMoved)
                <==> (IsCastling(rb, b, from, to, pl) && !wasChecked && !EndsInCheck(rb, b, pl, from, to)
                      && Rules.HasMoved(b, from, to)))
  {
  }

  /** The promotion test comes last: `bad_promote` is reported exactly when a pawn reaching
      the first or last rank asks to become a pawn or a king and every other test passed. */
  lemma BadPromoteIsLast(rb: Rulebook, g: Game, from: Position, to: Position, promote: PieceType)
    requires PlayDefined(g, from, to)
    ensures var b := RestartLapses(g.board, g.player);
            Play(rb, g, from, to, promote).1 == BadPromote
            <==> IsPromote(g.board, from, to) && !IsValidPromote(promote) && Validate(rb, b, g.player, from, to) == Proceed
  {
    var b := RestartLapses(g.board, g.player);
    PlayOutcome(rb, g, from, to, promote);
    if Validate(rb, b, g.player, from, to) == Proceed {
      RestartKeepsTests(rb, g.board, g.player, from, to);
    }
  }

  // ---------------------------------------------------------------------------------------
  // Castling

  /** The squares of a castling move: the king leaves file 5 of its home rank for file 7 on
      the king's side or file 3 on the queen's side; the rook leaves file 8 for file 6, or
      file 1 for file 4. */
  lemma CastlingGeometry(rb: Rulebook, b: Board, from: Position, to: Position, pl: Player)
    requires IsCastling(rb, b, from, to, pl)
    ensures CastlingDefined(from, to)
    ensures from == Position(5, HomeRank(pl))
    ensures to.file == 7 ==>
              to == Position(7, HomeRank(pl))
              && RookFrom(from, to) == Position(8, HomeRank(pl)) && RookTo(from, to) == Position(6, HomeRank(pl))
    ensures to.file != 7 ==>
              to == Position(3, HomeRank(pl))
              && RookFrom(from, to) == Position(1, HomeRank(pl)) && RookTo(from, to) == Position(4, HomeRank(pl))
  {
    var r := HomeRank(pl);
    assert from == Position(5, r);
    if Sub(to, from) == Horiz(2) {
      assert to == Position(7, r);
      assert Add(to, Horiz(1)) == Position(8, r) && Add(to, Horiz(-1)) == Position(6, r);
    } else {
      assert to == Position(3, r);
      assert Add(to, Horiz(-2)) == Position(1, r) && Add(to, Horiz(1)) == Position(4, r);
    }
  }

  /** `makeCastling` moves exactly two pieces: the piece on the king's square to its
      destination and the rook beside it on the inner side. The two vacated squares are
      empty and every other square keeps its occupant. */
  lemma CastlingSquares(b: Board, from: Position, to: Position, q: Position)
    requires OnBoard(q) && from.file == 5 && (from.rank == 1 || from.rank == 8)
    requires to == Position(7, from.rank) || to == Position(3, from.rank)
    ensures CastlingDefined(from, to)
    ensures At(MakeCastling(b, from, to), q)
            == if q == from || q == RookFrom(from, to) then Empty
               else if q == to then At(b, from)
               else if q == RookTo(from, to) then At(b, RookFrom(from, to))
               else At(b, q)
  {
    var rf, rt := RookFrom(from, to), RookTo(from, to);
    if to.file == 7 {
      assert rf == Position(8, from.rank) && rt == Position(6, from.rank);
    } else {
      assert rf == Position(1, from.rank) && rt == Position(4, from.rank);
    }
    TwoPieceMove(b, from, to, rf, rt, q);
  }

  /** Moving a rook from `rf` to `rt` and then a king from `from` to `to`, four distinct
      squares, changes those four squares only. */
  lemma TwoPieceMove(b: Board, from: Position, to: Position, rf: Position, rt: Position, q: Position)
    requires OnBoard(from) && OnBoard(to) && OnBoard(rf) && OnBoard(rt) && OnBoard(q)
    requires from != rf && from != rt && to != rf && to != rt && from != to && rf != rt
    ensures var rookMoved := MakeMove(b, rf, rt);
            At(Place(Place(rookMoved, to, At(rookMoved, from)), from, Empty), q)
            == if q == from || q == rf then Empty
               else if q == to then At(b, from)
               else if q == rt then At(b, rf)
               else At(b, q)
  {
  }

  // ---------------------------------------------------------------------------------------
  // The success path of `play`

  /** The board just before the pieces move: the moving piece, promoted if it reached the
      last rank, carries the flags of its move; a pawn taken en passant is gone; every other
      square is as it was. Castling is recognised on it exactly as on the original board. */
  lemma PreparedSquares(b: Board, pl: Player, from: Position, to: Position, promote: PieceType, q: Position)
    requires OnBoard(from) && OnBoard(to) && OnBoard(q)
    requires !At(b, from).isEmpty && At(b, from).owner == pl
    requires IsPromote(b, from, to) ==> IsValidPromote(promote)
    requires !(IsEnPassant(b, pl, from, to) && (to.rank == 1 || to.rank == 8))
    ensures var o := At(b, from);
            var moving := if IsPromote(b, from, to) then o.(piece := promote) else o;
            At(Prepare(b, pl, from, to, promote), q)
            == if q == from then Flagged(moving, Sub(to, from))
               else if IsEnPassant(b, pl, from, to) && q == Add(to, Vert(Backward(pl))) then Empty
               else At(b, q)
  {
    var o := At(b, from);
    var moving := if IsPromote(b, from, to) then o.(piece := promote) else o;
    var promoted := if IsPromote(b, from, to) then ApplyPromote(b, from, promote) else b;
    assert At(promoted, from) == moving;
    var ep := IsEnPassant(b, pl, from, to);
    assert IsEnPassant(promoted, pl, from, to) == ep;
    var c := Add(to, Vert(Backward(pl)));
    var captured := if ep then ApplyEnPassant(promoted, pl, to) else promoted;
    assert ep ==> c != from;
    assert At(captured, from) == moving;
    assert At(captured, q) == if ep && q == c then Empty else if q == from then moving else At(b, q);
    assert SetFlags(captured, from, to) == Prepare(b, pl, from, to, promote);
  }

  /** Castling is recognised on the prepared board exactly as on the original one: the
      preparation changes the kind of a piece only by promoting a pawn, which is not a king,
      and a square emptied by en passant held no rook. */
  lemma PrepareKeepsCastling(rb: Rulebook, b: Board, pl: Player, from: Position, to: Position, promote: PieceType)
    requires OnBoard(from) && OnBoard(to)
    requires !At(b, from).isEmpty && At(b, from).owner == pl
    requires IsPromote(b, from, to) ==> IsValidPromote(promote)
    requires !(IsEnPassant(b, pl, from, to) && (to.rank == 1 || to.rank == 8))
    ensures IsCastling(rb, Prepare(b, pl, from, to, promote), from, to, pl) == IsCastling(rb, b, from, to, pl)
  {
    var r := HomeRank(pl);
    PreparedSquares(b, pl, from, to, promote, from);
    if from == Position(5, r) {
      PreparedSquares(b, pl, from, to, promote, Position(8, r));
      PreparedSquares(b, pl, from, to, promote, Position(1, r));
    }
  }

  /** The board a successful move leaves, square by square, in terms of the board `b` it was
      validated on: the origin is vacated; the destination holds the moving piece, promoted
      if it reached the last rank and carrying the flags of its move; castling puts the rook
      beside the king; an en passant capture empties the square behind the destination;
      every other square keeps its occupant. */
  lemma CommitBoard(rb: Rulebook, b: Board, pl: Player, from: Position, to: Position, promote: PieceType, q: Position)
    requires OnBoard(from) && OnBoard(to) && OnBoard(q) && from != to
    requires !At(b, from).isEmpty && At(b, from).owner == pl
    requires IsPromote(b, from, to) ==> IsValidPromote(promote)
    requires !(IsEnPassant(b, pl, from, to) && (to.rank == 1 || to.rank == 8))
    ensures var a, o := Commit(rb, b, pl, from, to, promote).0.board, At(b, from);
            var moving := if IsPromote(b, from, to) then o.(piece := promote) else o;
            var captured := Add(to, Vert(Backward(pl)));
            At(a, q)
            == if q == from then Empty
               else if q == to then Flagged(moving, Sub(to, from))
               else if IsCastling(rb, b, from, to, pl) && q == RookFrom(from, to) then Empty
               else if IsCastling(rb, b, from, to, pl) && q == RookTo(from, to) then At(b, RookFrom(from, to))
               else if IsEnPassant(b, pl, from, to) && q == captured then Empty
               else At(b, q)
  {
    CommitRelocates(rb, b, pl, from, to, promote);
    if IsCastling(rb, b, from, to, pl) {
      CastledPreparedSquare(rb, b, pl, from, to, promote, q);
    } else {
      MovedPreparedSquare(b, pl, from, to, promote, q);
    }
  }

  /** After the preparation, `Commit` castles exactly when the board it was given asks for
      castling, and otherwise makes an ordinary move. */
  lemma CommitRelocates(rb: Rulebook, b: Board, pl: Player, from: Position, to: Position, promote: PieceType)
    requires OnBoard(from) && OnBoard(to)
    requires !At(b, from).isEmpty && At(b, from).owner == pl
    requires IsPromote(b, from, to) ==> IsValidPromote(promote)
    requires !(IsEnPassant(b, pl, from, to) && (to.rank == 1 || to.rank == 8))
    ensures IsCastling(rb, b, from, to, pl) ==> CastlingDefined(from, to)
    ensures Commit(rb, b, pl, from, to, promote).0.board
            == if IsCastling(rb, b, from, to, pl) then MakeCastling(Prepare(b, pl, from, to, promote), from, to)
               else MakeMove(Prepare(b, pl, from, to, promote), from, to)
  {
    PrepareKeepsCastling(rb, b, pl, from, to, promote);
    if IsCastling(rb, b, from, to, pl) {
      CastlingGeometry(rb, b, from, to, pl);
    }
  }

  /** Castling on the prepared board: the king's and the rook's squares change, nothing else. */
  lemma CastledPreparedSquare(rb: Rulebook, b: Board, pl: Player, from: Position, to: Position, promote: PieceType, q: Position)
    requires OnBoard(from) && OnBoard(to) && OnBoard(q) && from != to
    requires !At(b, from).isEmpty && At(b, from).owner == pl
    requires IsPromote(b, from, to) ==> IsValidPromote(promote)
    requires !(IsEnPassant(b, pl, from, to) && (to.rank == 1 || to.rank == 8))
    requires IsCastling(rb, b, from, to, pl) && CastlingDefined(from, to)
    ensures var o := At(b, from);
            var moving := if IsPromote(b, from, to) then o.(piece := promote) else o;
            At(MakeCastling(Prepare(b, pl, from, to, promote), from, to), q)
            == if q == from || q == RookFrom(from, to) then Empty
               else if q == to then Flagged(moving, Sub(to, from))
               else if q == RookTo(from, to) then At(b, RookFrom(from, to))
               else At(b, q)
  {
    var flagged := Prepare(b, pl, from, to, promote);
    PreparedSquares(b, pl, from, to, promote, q);
    PreparedSquares(b, pl, from, to, promote, from);
    PreparedSquares(b, pl, from, to, promote, RookFrom(from, to));
    CastlingGeometry(rb, b, from, to, pl);
    CastlingSquares(flagged, from, to, q);
  }

  /** An ordinary move on the prepared board: the origin empties, the destination takes the
      moving piece, an en passant victim is gone, nothing else changes. */
  lemma MovedPreparedSquare(b: Board, pl: Player, from: Position, to: Position, promote: PieceType, q: Position)
    requires OnBoard(from) && OnBoard(to) && OnBoard(q) && from != to
    requires !At(b, from).isEmpty && At(b, from).owner == pl
    requires IsPromote(b, from, to) ==> IsValidPromote(promote)
    requires !(IsEnPassant(b, pl, from, to) && (to.rank == 1 || to.rank == 8))
    ensures var o := At(b, from);
            var moving := if IsPromote(b, from, to) then o.(piece := promote) else o;
            At(MakeMove(Prepare(b, pl, from, to, promote), from, to), q)
            == if q == from then Empty
               else if q == to then Flagged(moving, Sub(to, from))
               else if IsEnPassant(b, pl, from, to) && q == Add(to, Vert(Backward(pl))) then Empty
               else At(b, q)
  {
    PreparedSquares(b, pl, from, to, promote, q);
    PreparedSquares(b, pl, from, to, promote, from);
  }

  /** A successful move reports `capture` exactly when the destination held a piece or the
      move takes a pawn en passant; otherwise it reports `ok`. */
  lemma CaptureIffTaking(rb: Rulebook, g: Game, from: Position, to: Position, promote: PieceType)
    requires PlayDefined(g, from, to) && IsSuccess(Play(rb, g, from, to, promote).1)
    ensures Play(rb, g, from, to, promote).1 == Capture
            <==> !At(g.board, to).isEmpty || IsEnPassant(g.board, g.player, from, to)
  {
    var b, pl := RestartLapses(g.board, g.player), g.player;
    Accepted(rb, g, from, to, promote);
    CommitResult(rb, b, pl, from, to, promote);
    RestartOnlyClosesOwnWindows(g.board, pl, to);
  }

  /** The outcome `Commit` reports: `capture` when the destination held a piece or the move
      takes en passant, `ok` otherwise. */
  lemma CommitResult(rb: Rulebook, b: Board, pl: Player, from: Position, to: Position, promote: PieceType)
    requires OnBoard(from) && OnBoard(to) && from != to
    requires !(IsEnPassant(b, pl, from, to) && (to.rank == 1 || to.rank == 8))
    ensures var r := Commit(rb, b, pl, from, to, promote).1;
            (r == Capture || r == Ok)
            && (r == Capture <==> !At(b, to).isEmpty || IsEnPassant(b, pl, from, to))
  {
    var promoted := if IsPromote(b, from, to) then ApplyPromote(b, from, promote) else b;
    assert At(promoted, to) == At(b, to);
    assert IsEnPassant(promoted, pl, from, to) == IsEnPassant(b, pl, from, to);
  }

  /** A successful en passant capture empties the square behind the destination, where the
      captured pawn stood, and puts the capturing pawn on the destination. */
  lemma EnPassantRemovesVictim(rb: Rulebook, g: Game, from: Position, to: Position, promote: PieceType)
    requires PlayDefined(g, from, to) && IsSuccess(Play(rb, g, from, to, promote).1)
    requires IsEnPassant(g.board, g.player, from, to)
    ensures OnBoard(Add(to, Vert(Backward(g.player))))
    ensures At(Play(rb, g, from, to, promote).0.board, Add(to, Vert(Backward(g.player)))) == Empty
    ensures At(Play(rb, g, from, to, promote).0.board, to).piece == Pawn
    ensures At(Play(rb, g, from, to, promote).0.board, to).owner == g.player
  {
    var b, pl := RestartLapses(g.board, g.player), g.player;
    Accepted(rb, g, from, to, promote);
    ProceedFacts(rb, b, pl, from, to, promote);
    CommitEnPassant(rb, b, pl, from, to, promote);
  }

  /** The en passant capture `Commit` performs: the pawn behind the destination is gone and
      the capturing pawn stands on the destination. */
  lemma CommitEnPassant(rb: Rulebook, b: Board, pl: Player, from: Position, to: Position, promote: PieceType)
    requires OnBoard(from) && OnBoard(to) && from != to
    requires !At(b, from).isEmpty && At(b, from).owner == pl
    requires IsPromote(b, from, to) ==> IsValidPromote(promote)
    requires IsEnPassant(b, pl, from, to) && to.rank != 1 && to.rank != 8
    ensures OnBoard(Add(to, Vert(Backward(pl))))
    ensures At(Commit(rb, b, pl, from, to, promote).0.board, Add(to, Vert(Backward(pl)))) == Empty
    ensures At(Commit(rb, b, pl, from, to, promote).0.board, to).piece == Pawn
    ensures At(Commit(rb, b, pl, from, to, promote).0.board, to).owner == pl
  {
    var c := Add(to, Vert(Backward(pl)));
    assert OnBoard(c) && c != to;
    CommitBoard(rb, b, pl, from, to, promote, c);
    CommitBoard(rb, b, pl, from, to, promote, to);
  }

  /** After a successful move the origin is empty and the destination holds the mover's
      piece, marked as moved, and of the requested kind when it was a pawn reaching the first
      or last rank. */
  lemma MovedPieceArrives(rb: Rulebook, g: Game, from: Position, to: Position, promote: PieceType)
    requires PlayDefined(g, from, to) && IsSuccess(Play(rb, g, from, to, promote).1)
    ensures OnBoard(from) && from != to
    ensures At(Play(rb, g, from, to, promote).0.board, from) == Empty
    ensures var o := At(Play(rb, g, from, to, promote).0.board, to);
            !o.isEmpty && o.owner == g.player && o.didMove
            && o.piece == if IsPromote(g.board, from, to) then promote else At(g.board, from).piece
  {
    var b, pl := RestartLapses(g.board, g.player), g.player;
    Accepted(rb, g, from, to, promote);
    ProceedFacts(rb, b, pl, from, to, promote);
    RestartKeepsTests(rb, g.board, pl, from, to);
    CommitArrival(rb, b, pl, from, to, promote);
  }

  /** The two ends of a move `Commit` performs: the origin is vacated and the destination
      holds the mover's piece, marked as moved, promoted when it reached the last rank. */
  lemma CommitArrival(rb: Rulebook, b: Board, pl: Player, from: Position, to: Position, promote: PieceType)
    requires OnBoard(from) && OnBoard(to) && from != to
    requires !At(b, from).isEmpty && At(b, from).owner == pl
    requires IsPromote(b, from, to) ==> IsValidPromote(promote)
    requires !(IsEnPassant(b, pl, from, to) && (to.rank == 1 || to.rank == 8))
    ensures At(Commit(rb, b, pl, from, to, promote).0.board, from) == Empty
    ensures var o := At(Commit(rb, b, pl, from, to, promote).0.board, to);
            !o.isEmpty && o.owner == pl && o.didMove
            && o.piece == if IsPromote(b, from, to) then promote else At(b, from).piece
  {
    CommitBoard(rb, b, pl, from, to, promote, from);
    CommitBoard(rb, b, pl, from, to, promote, to);
  }

  /** A successful move other than castling changes no square but its origin, its
      destination and, en passant, the square of the captured pawn: every other square holds
      what it held once `restartLapses` had run. */
  lemma OrdinaryMoveKeepsOtherSquares(rb: Rulebook, g: Game, from: Position, to: Position, promote: PieceType, q: Position)
    requires PlayDefined(g, from, to) && IsSuccess(Play(rb, g, from, to, promote).1)
    requires !IsCastling(rb, g.board, from, to, g.player)
    requires OnBoard(q) && q != from && q != to
    requires IsEnPassant(g.board, g.player, from, to) ==> q != Add(to, Vert(Backward(g.player)))
    ensures At(Play(rb, g, from, to, promote).0.board, q) == At(RestartLapses(g.board, g.player), q)
  {
    var b, pl := RestartLapses(g.board, g.player), g.player;
    Accepted(rb, g, from, to, promote);
    ProceedFacts(rb, b, pl, from, to, promote);
    RestartKeepsTests(rb, g.board, pl, from, to);
    CommitBoard(rb, b, pl, from, to, promote, q);
  }

  /** A successful castling moves exactly two pieces. On the king's side the piece on the
      king's square goes from file 5 to file 7 and the rook from file 8 to file 6; on the
      queen's side from 5 to 3 and from 1 to 4. That piece (a king, under the intended rules;
      as written also a rook or queen standing there) is marked as moved, the rook keeps its
      flags (so it is still marked as never moved) and the two vacated squares are empty. */
  lemma CastlingMovesKingAndRook(rb: Rulebook, g: Game, from: Position, to: Position, promote: PieceType)
    requires PlayDefined(g, from, to) && IsSuccess(Play(rb, g, from, to, promote).1)
    requires IsCastling(rb, g.board, from, to, g.player)
    ensures var r, b, a := HomeRank(g.player), RestartLapses(g.board, g.player), Play(rb, g, from, to, promote).0.board;
            var rookFrom, rookTo := Position(if to.file == 7 then 8 else 1, r), Position(if to.file == 7 then 6 else 4, r);
            from == Position(5, r) && (to == Position(7, r) || to == Position(3, r))
            && At(a, to) == At(b, from).(didMove := true)
            && At(a, rookTo) == At(b, rookFrom) && At(b, rookFrom).piece == Rook && !At(b, rookFrom).didMove
            && At(a, from) == Empty && At(a, rookFrom) == Empty
  {
    CastledKing(rb, g, from, to, promote);
    CastledRook(rb, g, from, to, promote);
  }

  /** The king's half of a successful castling: the piece on the king's square. */
  lemma CastledKing(rb: Rulebook, g: Game, from: Position, to: Position, promote: PieceType)
    requires PlayDefined(g, from, to) && IsSuccess(Play(rb, g, from, to, promote).1)
    requires IsCastling(rb, g.board, from, to, g.player)
    ensures var r, b, a := HomeRank(g.player), RestartLapses(g.board, g.player), Play(rb, g, from, to, promote).0.board;
            from == Position(5, r) && (to == Position(7, r) || to == Position(3, r))
            && At(a, to) == At(b, from).(didMove := true) && At(a, from) == Empty
  {
    var b, pl := RestartLapses(g.board, g.player), g.player;
    Accepted(rb, g, from, to, promote);
    RestartKeepsCastling(rb, g.board, pl, from, to);
    CastledKingOnBoard(rb, b, pl, from, to, promote);
  }

  /** The same on the board `play` validated the castling on. */
  lemma CastledKingOnBoard(rb: Rulebook, b: Board, pl: Player, from: Position, to: Position, promote: PieceType)
    requires Addressable(from) && OnBoard(to) && !(IsEnPassant(b, pl, from, to) && (to.rank == 1 || to.rank == 8))
    requires Judge(rb, b, pl, from, to, promote) == Proceed && IsCastling(rb, b, from, to, pl)
    ensures var r, c := HomeRank(pl), Commit(rb, b, pl, from, to, promote).0.board;
            from == Position(5, r) && (to == Position(7, r) || to == Position(3, r))
            && At(c, to) == At(b, from).(didMove := true) && At(c, from) == Empty
  {
    ProceedFacts(rb, b, pl, from, to, promote);
    CastledSquare(rb, b, pl, from, to, promote, from);
    CastledSquare(rb, b, pl, from, to, promote, to);
  }

  /** The rook's half of a successful castling. */
  lemma CastledRook(rb: Rulebook, g: Game, from: Position, to: Position, promote: PieceType)
    requires PlayDefined(g, from, to) && IsSuccess(Play(rb, g, from, to, promote).1)
    requires IsCastling(rb, g.board, from, to, g.player)
    ensures var r, b, a := HomeRank(g.player), RestartLapses(g.board, g.player), Play(rb, g, from, to, promote).0.board;
            var rookFrom, rookTo := Position(if to.file == 7 then 8 else 1, r), Position(if to.file == 7 then 6 else 4, r);
            At(a, rookTo) == At(b, rookFrom) && At(b, rookFrom).piece == Rook && !At(b, rookFrom).didMove
            && At(a, rookFrom) == Empty
  {
    var b, pl := RestartLapses(g.board, g.player), g.player;
    Accepted(rb, g, from, to, promote);
    ProceedFacts(rb, b, pl, from, to, promote);
    RestartKeepsTests(rb, g.board, pl, from, to);
    RookCastled(rb, b, pl, from, to, promote);
  }

  /** The rook's half of a castling, on the board it was validated on. */
  lemma RookCastled(rb: Rulebook, b: Board, pl: Player, from: Position, to: Position, promote: PieceType)
    requires OnBoard(from) && OnBoard(to) && from != to
    requires !At(b, from).isEmpty && At(b, from).owner == pl && IsCastling(rb, b, from, to, pl)
    requires CanMove(b, from, to, At(b, from).piece, pl) && !Rules.HasMoved(b, from, to)
    requires IsPromote(b, from, to) ==> IsValidPromote(promote)
    requires !(IsEnPassant(b, pl, from, to) && (to.rank == 1 || to.rank == 8))
    ensures var r, a := HomeRank(pl), Commit(rb, b, pl, from, to, promote).0.board;
            var rookFrom, rookTo := Position(if to.file == 7 then 8 else 1, r), Position(if to.file == 7 then 6 else 4, r);
            At(a, rookTo) == At(b, rookFrom) && At(b, rookFrom).piece == Rook && !At(b, rookFrom).didMove
            && At(a, rookFrom) == Empty
  {
    var r := HomeRank(pl);
    CastlingRook(rb, b, pl, from, to);
    CastledSquare(rb, b, pl, from, to, promote, Position(if to.file == 7 then 8 else 1, r));
    CastledSquare(rb, b, pl, from, to, promote, Position(if to.file == 7 then 6 else 4, r));
  }

  /** The rook a castling moves stands on its home corner and has never moved. */
  lemma CastlingRook(rb: Rulebook, b: Board, pl: Player, from: Position, to: Position)
    requires IsCastling(rb, b, from, to, pl) && !Rules.HasMoved(b, from, to)
    ensures var rookFrom := Position(if to.file == 7 then 8 else 1, HomeRank(pl));
            At(b, rookFrom).piece == Rook && !At(b, rookFrom).didMove
  {
    var r := HomeRank(pl);
    assert from == Position(5, r);
    if Sub(to, from) == Horiz(2) {
      assert to.file == 7 && Add(from, Horiz(3)) == Position(8, r);
    } else {
      assert to.file == 3 && Add(from, Horiz(-4)) == Position(1, r);
    }
  }

  /** A successful castling changes no square but the king's and the rook's two squares each. */
  lemma CastlingKeepsOtherSquares(rb: Rulebook, g: Game, from: Position, to: Position, promote: PieceType, q: Position)
    requires PlayDefined(g, from, to) && IsSuccess(Play(rb, g, from, to, promote).1)
    requires IsCastling(rb, g.board, from, to, g.player)
    requires OnBoard(q) && q != from && q != to
    requires q != Position(if to.file == 7 then 8 else 1, HomeRank(g.player))
    requires q != Position(if to.file == 7 then 6 else 4, HomeRank(g.player))
    ensures At(Play(rb, g, from, to, promote).0.board, q) == At(RestartLapses(g.board, g.player), q)
  {
    var b, pl := RestartLapses(g.board, g.player), g.player;
    Accepted(rb, g, from, to, promote);
    ProceedFacts(rb, b, pl, from, to, promote);
    RestartKeepsTests(rb, g.board, pl, from, to);
    CastledSquare(rb, b, pl, from, to, promote, q);
  }

  /** One square of the board a castling leaves. */
  lemma CastledSquare(rb: Rulebook, b: Board, pl: Player, from: Position, to: Position, promote: PieceType, q: Position)
    requires OnBoard(from) && OnBoard(to) && OnBoard(q) && from != to
    requires !At(b, from).isEmpty && At(b, from).owner == pl && IsCastling(rb, b, from, to, pl)
    requires CanMove(b, from, to, At(b, from).piece, pl)
    requires IsPromote(b, from, to) ==> IsValidPromote(promote)
    requires !(IsEnPassant(b, pl, from, to) && (to.rank == 1 || to.rank == 8))
    ensures var r := HomeRank(pl);
            var rookFrom, rookTo := Position(if to.file == 7 then 8 else 1, r), Position(if to.file == 7 then 6 else 4, r);
            from == Position(5, r) && (to == Position(7, r) || to == Position(3, r))
            && At(Commit(rb, b, pl, from, to, promote).0.board, q)
               == if q == from || q == rookFrom then Empty
                  else if q == to then At(b, from).(didMove := true)
                  else if q == rookTo then At(b, rookFrom)
                  else At(b, q)
  {
    CastlingGeometry(rb, b, from, to, pl);
    CastlingMoverShapes(rb, b, from, to, pl, At(b, from).piece);
    CommitBoard(rb, b, pl, from, to, promote, q);
  }

  /** The pieces that can make a castling move: a king by the castling rule, and a rook or a
      queen, whose straight move it also is. A pawn, a knight or a bishop cannot. */
  lemma CastlingMoverShapes(rb: Rulebook, b: Board, from: Position, to: Position, pl: Player, kind: PieceType)
    requires IsCastling(rb, b, from, to, pl)
    ensures CanMove(b, from, to, kind, pl) <==> kind == King || kind == Rook || kind == Queen
  {
    assert Sub(to, from) == Horiz(2) || Sub(to, from) == Horiz(-2);
    assert Sub(to, from).rank == 0 && AbsInt(Sub(to, from).file) == 2;
    match kind
    case King =>
      assert IsCastling(AsWritten, b, from, to, pl);
      assert CanMoveKing(b, from, to, pl);
    case Pawn =>
      var m := Sub(to, from);
      assert Forward(pl) == 1 || Forward(pl) == -1;
      assert m != Vert(Forward(pl)) && m != Vert(2 * Forward(pl));
      assert m != Move(1, Forward(pl)) && m != Move(-1, Forward(pl));
    case _ => assert Sub(from, to).rank == 0 && AbsInt(Sub(from, to).file) == 2;
  }

  // ---------------------------------------------------------------------------------------
  // The en passant window

  /** A pawn's successful move (short of promotion) opens its en passant window and marks
      it as double-stepped exactly when it advanced two squares; any other pawn move leaves
      both flags clear. */
  lemma PawnAdvanceFlags(rb: Rulebook, g: Game, from: Position, to: Position, promote: PieceType)
    requires PlayDefined(g, from, to) && IsSuccess(Play(rb, g, from, to, promote).1)
    requires At(g.board, from).piece == Pawn && !IsPromote(g.board, from, to)
    ensures var o, twoStep := At(Play(rb, g, from, to, promote).0.board, to), Sub(to, from) == Vert(2 * Forward(g.player));
            (o.didTwoStep <==> twoStep) && (o.canBeLapsed <==> twoStep)
  {
    var b, pl := RestartLapses(g.board, g.player), g.player;
    Accepted(rb, g, from, to, promote);
    ProceedFacts(rb, b, pl, from, to, promote);
    RestartKeepsTests(rb, g.board, pl, from, to);
    RestartOnlyClosesOwnWindows(g.board, pl, from);
    CommitPawnFlags(rb, b, pl, from, to, promote);
  }

  /** The flags `Commit` gives a pawn that does not promote: a two-square advance opens its
      window; any other pawn move leaves the window as it was and clears the double-step
      mark. */
  lemma CommitPawnFlags(rb: Rulebook, b: Board, pl: Player, from: Position, to: Position, promote: PieceType)
    requires OnBoard(from) && OnBoard(to) && from != to
    requires !At(b, from).isEmpty && At(b, from).owner == pl
    requires At(b, from).piece == Pawn && !IsPromote(b, from, to) && CanMovePawn(b, from, to, pl)
    requires !(IsEnPassant(b, pl, from, to) && (to.rank == 1 || to.rank == 8))
    ensures var o, twoStep := At(Commit(rb, b, pl, from, to, promote).0.board, to), Sub(to, from) == Vert(2 * Forward(pl));
            (o.didTwoStep <==> twoStep) && (o.canBeLapsed <==> twoStep || At(b, from).canBeLapsed)
  {
    CommitBoard(rb, b, pl, from, to, promote, to);
    assert Abs(Sub(to, from)) == Vert(2) <==> Sub(to, from) == Vert(2 * Forward(pl));
  }

  /** Whatever the outcome of a move, every pawn of the mover other than one that has just
      arrived on the destination has its en passant window closed afterwards: a window stays
      open for one reply only. */
  lemma OwnerMoveClosesWindows(rb: Rulebook, g: Game, from: Position, to: Position, promote: PieceType, q: Position)
    requires PlayDefined(g, from, to) && OnBoard(q) && q != to
    requires var o := At(Play(rb, g, from, to, promote).0.board, q);
             !o.isEmpty && o.owner == g.player && o.piece == Pawn
    ensures !At(Play(rb, g, from, to, promote).0.board, q).canBeLapsed
  {
    PlayOutcome(rb, g, from, to, promote);
    if IsSuccess(Play(rb, g, from, to, promote).1) {
      MovedPiecesKeepWindowsClosed(rb, g, from, to, promote, q);
    }
  }

  /** The success half of OwnerMoveClosesWindows. */
  lemma MovedPiecesKeepWindowsClosed(rb: Rulebook, g: Game, from: Position, to: Position, promote: PieceType, q: Position)
    requires PlayDefined(g, from, to) && IsSuccess(Play(rb, g, from, to, promote).1) && OnBoard(q) && q != to
    requires var o := At(Play(rb, g, from, to, promote).0.board, q);
             !o.isEmpty && o.owner == g.player && o.piece == Pawn
    ensures !At(Play(rb, g, from, to, promote).0.board, q).canBeLapsed
  {
    var b, pl := RestartLapses(g.board, g.player), g.player;
    Accepted(rb, g, from, to, promote);
    ProceedFacts(rb, b, pl, from, to, promote);
    CommitKeepsWindowsClosed(rb, g.board, pl, from, to, promote, q);
  }

  /** Apart from the destination, a move leaves on each square an occupant of the board
      `restartLapses` produced, an empty square, or (castling) the rook: no pawn of the mover
      there has an open window. */
  lemma CommitKeepsWindowsClosed(rb: Rulebook, b0: Board, pl: Player, from: Position, to: Position, promote: PieceType, q: Position)
    requires OnBoard(from) && OnBoard(to) && OnBoard(q) && from != to && q != to
    requires var b := RestartLapses(b0, pl);
             !At(b, from).isEmpty && At(b, from).owner == pl
             && (IsPromote(b, from, to) ==> IsValidPromote(promote))
             && !(IsEnPassant(b, pl, from, to) && (to.rank == 1 || to.rank == 8))
    requires var o := At(Commit(rb, RestartLapses(b0, pl), pl, from, to, promote).0.board, q);
             !o.isEmpty && o.owner == pl && o.piece == Pawn
    ensures !At(Commit(rb, RestartLapses(b0, pl), pl, from, to, promote).0.board, q).canBeLapsed
  {
    var b := RestartLapses(b0, pl);
    CommitBoard(rb, b, pl, from, to, promote, q);
    RestartOnlyClosesOwnWindows(b0, pl, q);
    CastlingMovesRook(rb, b, from, to, pl);
  }

  /** The piece castling moves besides the king is a rook. */
  lemma CastlingMovesRook(rb: Rulebook, b: Board, from: Position, to: Position, pl: Player)
    ensures IsCastling(rb, b, from, to, pl) ==> CastlingDefined(from, to) && At(b, RookFrom(from, to)).piece == Rook
  {
    if IsCastling(rb, b, from, to, pl) {
      CastlingGeometry(rb, b, from, to, pl);
    }
  }

  /** A diagonal pawn step onto an empty square behind which an opponent's double-stepped
      pawn still has its window open is en passant, and it passes every test of `play` but
      the check tests. */
  lemma OpenWindowCapturePasses(rb: Rulebook, b: Board, pl: Player, from: Position, to: Position)
    requires OnBoard(from) && OnBoard(to)
    requires !At(b, from).isEmpty && At(b, from).owner == pl && At(b, from).piece == Pawn
    requires Sub(to, from) == Move(1, Forward(pl)) || Sub(to, from) == Move(-1, Forward(pl))
    requires At(b, to).isEmpty
    requires var victim := At(b, Add(to, Vert(Backward(pl))));
             victim.owner == Opponent(pl) && victim.didTwoStep && victim.canBeLapsed
    requires to.rank != 1 && to.rank != 8
    ensures IsEnPassant(b, pl, from, to)
    ensures Validate(rb, b, pl, from, to) in {Proceed, Reject(InCheck), Reject(Result.WouldCheck)}
  {
    assert CanMovePawn(b, from, to, pl);
    assert !PathOccupied(b, from, to);
    assert !IsCastling(rb, b, from, to, pl);
    assert !IsBlocked(rb, b, pl, from, to, pl);
    assert !IsLapsed(rb, b, pl, from, to);
    ScreenOrder(rb, b, pl, from, to);
  }

  /** The same capture once the window has closed is reported as `lapsed`. */
  lemma ClosedWindowCaptureLapses(rb: Rulebook, b: Board, pl: Player, from: Position, to: Position)
    requires OnBoard(from) && OnBoard(to)
    requires !At(b, from).isEmpty && At(b, from).owner == pl && At(b, from).piece == Pawn
    requires Sub(to, from) == Move(1, Forward(pl)) || Sub(to, from) == Move(-1, Forward(pl))
    requires At(b, to).isEmpty
    requires var victim := At(b, Add(to, Vert(Backward(pl))));
             victim.owner == Opponent(pl) && victim.didTwoStep && !victim.canBeLapsed
    ensures !IsEnPassant(b, pl, from, to)
    ensures Validate(rb, b, pl, from, to) == Reject(Lapsed)
  {
    assert CanMovePawn(b, from, to, pl);
    assert !PathOccupied(b, from, to);
    assert !IsCastling(rb, b, from, to, pl);
    assert !IsBlocked(rb, b, pl, from, to, pl);
    assert IsLapsed(rb, b, pl, from, to);
    ScreenOrder(rb, b, pl, from, to);
  }

  /** After a successful two-square pawn advance the square it passed over is empty, lies
      strictly inside the board, and has the advanced pawn right behind it, seen from the
      opponent; that pawn carries an open window. */
  lemma TwoStepLeavesSkippedSquare(rb: Rulebook, g: Game, from: Position, to: Position, promote: PieceType)
    requires PlayDefined(g, from, to) && IsSuccess(Play(rb, g, from, to, promote).1)
    requires At(g.board, from).piece == Pawn && !IsPromote(g.board, from, to)
    requires Sub(to, from) == Vert(2 * Forward(g.player))
    ensures var a, skipped := Play(rb, g, from, to, promote).0.board, Add(from, Vert(Forward(g.player)));
            OnBoard(skipped) && 1 < skipped.rank < 8
            && Add(skipped, Vert(Backward(Opponent(g.player)))) == to
            && At(a, skipped).isEmpty
            && !At(a, to).isEmpty && At(a, to).owner == g.player && At(a, to).piece == Pawn
            && At(a, to).didTwoStep && At(a, to).canBeLapsed
  {
    MovedPieceArrives(rb, g, from, to, promote);
    TwoStepGeometry(from, to, g.player);
    PawnAdvanceFlags(rb, g, from, to, promote);
    SkippedSquareEmpty(rb, g, from, to, promote);
  }

  /** The square a two-square advance passes over lies strictly inside the board, one step
      from the origin and one step behind the destination. */
  lemma TwoStepGeometry(from: Position, to: Position, pl: Player)
    requires OnBoard(from) && OnBoard(to) && Sub(to, from) == Vert(2 * Forward(pl))
    ensures var skipped := Add(from, Vert(Forward(pl)));
            OnBoard(skipped) && 1 < skipped.rank < 8 && skipped != from && skipped != to
            && Add(skipped, Vert(Backward(Opponent(pl)))) == to
            && Step(from, UnitDirection(Sub(to, from)), 1) == skipped
            && IsStraight(Sub(to, from)) && Chebyshev(Sub(to, from)) == 2
  {
    var skipped := Position(from.file, from.rank + Forward(pl));
    assert Add(from, Vert(Forward(pl))) == skipped;
    assert Add(skipped, Vert(Backward(Opponent(pl)))) == to;
  }

  /** The square a successful two-square advance passed over is empty afterwards. */
  lemma SkippedSquareEmpty(rb: Rulebook, g: Game, from: Position, to: Position, promote: PieceType)
    requires PlayDefined(g, from, to) && IsSuccess(Play(rb, g, from, to, promote).1)
    requires Sub(to, from) == Vert(2 * Forward(g.player))
    ensures OnBoard(Add(from, Vert(Forward(g.player))))
    ensures At(Play(rb, g, from, to, promote).0.board, Add(from, Vert(Forward(g.player)))).isEmpty
  {
    var b, pl := RestartLapses(g.board, g.player), g.player;
    Accepted(rb, g, from, to, promote);
    ProceedFacts(rb, b, pl, from, to, promote);
    CommitKeepsSkippedEmpty(rb, b, pl, from, to, promote);
  }

  /** The same about `Commit` on the board the advance was validated on. */
  lemma CommitKeepsSkippedEmpty(rb: Rulebook, b: Board, pl: Player, from: Position, to: Position, promote: PieceType)
    requires OnBoard(from) && OnBoard(to) && Sub(to, from) == Vert(2 * Forward(pl))
    requires !At(b, from).isEmpty && At(b, from).owner == pl && !IsBlocked(rb, b, pl, from, to, pl)
    requires IsPromote(b, from, to) ==> IsValidPromote(promote)
    requires !(IsEnPassant(b, pl, from, to) && (to.rank == 1 || to.rank == 8))
    ensures OnBoard(Add(from, Vert(Forward(pl))))
    ensures At(Commit(rb, b, pl, from, to, promote).0.board, Add(from, Vert(Forward(pl)))).isEmpty
  {
    var skipped := Add(from, Vert(Forward(pl)));
    TwoStepGeometry(from, to, pl);
    SkippedWasEmpty(rb, b, pl, from, to);
    VerticalNotCastling(rb, b, pl, from, to);
    CommitBoard(rb, b, pl, from, to, promote, skipped);
  }

  /** A vertical move is not castling. */
  lemma VerticalNotCastling(rb: Rulebook, b: Board, pl: Player, from: Position, to: Position)
    requires Sub(to, from).file == 0
    ensures !IsCastling(rb, b, from, to, pl)
  {
  }

  /** An unobstructed two-square advance passes over an empty square. */
  lemma SkippedWasEmpty(rb: Rulebook, b: Board, pl: Player, from: Position, to: Position)
    requires OnBoard(from) && OnBoard(to) && Sub(to, from) == Vert(2 * Forward(pl))
    requires !IsBlocked(rb, b, pl, from, to, pl)
    ensures At(b, Add(from, Vert(Forward(pl)))).isEmpty
  {
    TwoStepGeometry(from, to, pl);
    if !At(b, Add(from, Vert(Forward(pl)))).isEmpty {
      InteriorPieceObstructs(rb, b, pl, from, to, pl, 1);
    }
  }

  /** The opponent's reply right after a two-square advance: a pawn of theirs one file
      aside that steps diagonally onto the square passed over makes an en passant capture,
      and `play` answers it with `capture` unless the check tests object. */
  lemma ReplyCaptureIsEnPassant(rb: Rulebook, g: Game, from: Position, to: Position, promote: PieceType,
                                from2: Position, promote2: PieceType)
    requires PlayDefined(g, from, to) && IsSuccess(Play(rb, g, from, to, promote).1)
    requires At(g.board, from).piece == Pawn && !IsPromote(g.board, from, to)
    requires Sub(to, from) == Vert(2 * Forward(g.player))
    requires OnBoard(from2)
    requires var o := At(Play(rb, g, from, to, promote).0.board, from2);
             !o.isEmpty && o.owner == Opponent(g.player) && o.piece == Pawn
    requires var d := Sub(Add(from, Vert(Forward(g.player))), from2);
             d == Move(1, Forward(Opponent(g.player))) || d == Move(-1, Forward(Opponent(g.player)))
    ensures var g2, skipped := Play(rb, g, from, to, promote).0, Add(from, Vert(Forward(g.player)));
            g2.player == Opponent(g.player) && OnBoard(skipped)
            && PlayDefined(g2, from2, skipped) && IsEnPassant(g2.board, g2.player, from2, skipped)
            && Play(rb, g2, from2, skipped, promote2).1 in {Capture, InCheck, Result.WouldCheck}
  {
    var pl, opp := g.player, Opponent(g.player);
    var g2, skipped := Play(rb, g, from, to, promote).0, Add(from, Vert(Forward(pl)));
    PlayOutcome(rb, g, from, to, promote);
    TwoStepLeavesSkippedSquare(rb, g, from, to, promote);
    var b2 := RestartLapses(g2.board, opp);
    assert At(b2, to) == At(g2.board, to);
    OpenWindowCapturePasses(rb, b2, opp, from2, skipped);
    assert PlayDefined(g2, from2, skipped);
    assert !IsPromote(b2, from2, skipped);
    PlayOutcome(rb, g2, from2, skipped, promote2);
    if IsSuccess(Play(rb, g2, from2, skipped, promote2).1) {
      CaptureIffTaking(rb, g2, from2, skipped, promote2);
    }
  }

  /** Once the owner of a double-stepped pawn has moved again, the opponent's diagonal step
      onto the empty square behind that pawn is answered with `lapsed`. */
  lemma StaleCaptureIsLapsed(rb: Rulebook, g: Game, from: Position, to: Position, promote: PieceType, q: Position,
                             from2: Position, to2: Position, promote2: PieceType)
    requires PlayDefined(g, from, to) && IsSuccess(Play(rb, g, from, to, promote).1)
    requires OnBoard(q) && q != to
    requires var o := At(Play(rb, g, from, to, promote).0.board, q);
             !o.isEmpty && o.owner == g.player && o.piece == Pawn && o.didTwoStep
    requires OnBoard(from2) && OnBoard(to2)
    requires var o := At(Play(rb, g, from, to, promote).0.board, from2);
             !o.isEmpty && o.owner == Opponent(g.player) && o.piece == Pawn
    requires Sub(to2, from2) == Move(1, Forward(Opponent(g.player))) || Sub(to2, from2) == Move(-1, Forward(Opponent(g.player)))
    requires At(Play(rb, g, from, to, promote).0.board, to2).isEmpty
    requires Add(to2, Vert(Backward(Opponent(g.player)))) == q
    ensures PlayDefined(Play(rb, g, from, to, promote).0, from2, to2)
    ensures Play(rb, Play(rb, g, from, to, promote).0, from2, to2, promote2).1 == Lapsed
  {
    PlayOutcome(rb, g, from, to, promote);
    OwnerMoveClosesWindows(rb, g, from, to, promote, q);
    ClosedWindowReply(rb, Play(rb, g, from, to, promote).0, q, from2, to2, promote2);
  }

  /** The Play-level form of ClosedWindowCaptureLapses, for the side to move. */
  lemma ClosedWindowReply(rb: Rulebook, g: Game, q: Position, from: Position, to: Position, promote: PieceType)
    requires OnBoard(q) && OnBoard(from) && OnBoard(to)
    requires var o := At(g.board, q);
             !o.isEmpty && o.owner == Opponent(g.player) && o.piece == Pawn && o.didTwoStep && !o.canBeLapsed
    requires var o := At(g.board, from);
             !o.isEmpty && o.owner == g.player && o.piece == Pawn
    requires Sub(to, from) == Move(1, Forward(g.player)) || Sub(to, from) == Move(-1, Forward(g.player))
    requires At(g.board, to).isEmpty
    requires Add(to, Vert(Backward(g.player))) == q
    ensures PlayDefined(g, from, to)
    ensures Play(rb, g, from, to, promote).1 == Lapsed
  {
    var b := RestartLapses(g.board, g.player);
    assert At(b, q) == At(g.board, q);
    ClosedWindowCaptureLapses(rb, b, g.player, from, to);
    PlayOutcome(rb, g, from, to, promote);
  }

  // ---------------------------------------------------------------------------------------
  // Castling outcomes

  /** A castling request is never refused as `lapsed` or `bad_promote`. It is refused as
      `bad_move` exactly when the mover's piece on the king's home square is a pawn, a knight
      or a bishop, none of which moves two files along the rank. With the intended rules a
      successful castling reports `ok`, never `capture`. */
  lemma CastlingOutcomes(rb: Rulebook, g: Game, from: Position, to: Position, promote: PieceType)
    requires PlayDefined(g, from, to) && IsCastling(rb, g.board, from, to, g.player)
    ensures var r, o := Play(rb, g, from, to, promote).1, At(g.board, from);
            r != Lapsed && r != BadPromote
            && (r == BadMove <==> !o.isEmpty && o.owner == g.player && (o.piece == Pawn || o.piece == Knight || o.piece == Bishop))
    ensures rb == Intended ==> Play(rb, g, from, to, promote).1 != Capture
  {
    var r, b, pl := Play(rb, g, from, to, promote).1, RestartLapses(g.board, g.player), g.player;
    CastlingGeometry(rb, g.board, from, to, pl);
    EarlyRejections(rb, g, from, to, promote);
    CastlingMoverShapes(rb, g.board, from, to, pl, At(g.board, from).piece);
    assert r != BadPromote by {
      BadPromoteIsLast(rb, g, from, to, promote);
    }
    assert r != Lapsed by {
      LaterRejections(rb, g, from, to, promote);
      RestartKeepsTests(rb, g.board, pl, from, to);
    }
    if rb == Intended {
      CastlingReportsOk(g, from, to, promote);
    }
  }

  /** `lapsed` is reported only when the lapse test of the rulebook holds on the board the
      tests are made on: a pawn moves to a square behind which stands an opponent's
      double-stepped piece whose window has closed (and, under the intended rules, the
      destination is empty). */
  lemma LapsedNeedsClosedWindow(rb: Rulebook, g: Game, from: Position, to: Position, promote: PieceType)
    requires PlayDefined(g, from, to)
    ensures Play(rb, g, from, to, promote).1 == Lapsed ==> IsLapsed(rb, RestartLapses(g.board, g.player), g.player, from, to)
  {
    var b, pl := RestartLapses(g.board, g.player), g.player;
    PlayOutcome(rb, g, from, to, promote);
    JudgeLapsed(rb, b, pl, from, to, promote);
  }

  /** Validation answers `lapsed` only when the lapse test of its rulebook holds. */
  lemma JudgeLapsed(rb: Rulebook, b: Board, pl: Player, from: Position, to: Position, promote: PieceType)
    requires Addressable(from) && OnBoard(to)
    requires !(IsEnPassant(b, pl, from, to) && (to.rank == 1 || to.rank == 8))
    ensures Judge(rb, b, pl, from, to, promote) == Reject(Lapsed) ==> IsLapsed(rb, b, pl, from, to)
  {
    if Judge(rb, b, pl, from, to, promote) == Reject(Lapsed) {
      assert Validate(rb, b, pl, from, to) == Reject(Lapsed);
      assert !At(b, from).isEmpty && CanMove(b, from, to, At(b, from).piece, pl);
    }
  }

  /** On the starting board with White to move, touching a black pawn is `bad_piece`. */
  lemma OpeningRejections(rb: Rulebook)
    ensures Play(rb, Game(InitialBoard(), White), Position(1, 7), Position(1, 6), Pawn).1 == BadPiece
  {
    InitialBoardSquares();
    RejectionsOnStartingSquares(rb, InitialBoard());
  }

  /** On any board whose squares hold what the starting board holds, with White to move:
      touching a black pawn is `bad_piece`, an empty square `no_piece`, and a knight move
      that is not an L `bad_move`. */
  lemma RejectionsOnStartingSquares(rb: Rulebook, b: Board)
    requires forall q :: OnBoard(q) ==> At(b, q) == InitialOccupant(q)
    ensures var g := Game(b, White);
            Play(rb, g, Position(1, 7), Position(1, 6), Pawn).1 == BadPiece
            && Play(rb, g, Position(5, 4), Position(5, 5), Pawn).1 == NoPiece
            && Play(rb, g, Position(2, 1), Position(2, 3), Pawn).1 == BadMove
  {
    var g := Game(b, White);
    StartingSquaresUsed(b);
    EarlyRejections(rb, g, Position(1, 7), Position(1, 6), Pawn);
    EarlyRejections(rb, g, Position(5, 4), Position(5, 5), Pawn);
    EarlyRejections(rb, g, Position(2, 1), Position(2, 3), Pawn);
  }

  /** What the starting position holds on the squares the rejected moves above touch. */
  lemma StartingSquaresUsed(b: Board)
    requires forall q :: OnBoard(q) ==> At(b, q) == InitialOccupant(q)
    ensures var a7, e4, b1 := At(b, Position(1, 7)), At(b, Position(5, 4)), At(b, Position(2, 1));
            !a7.isEmpty && a7.owner == Black && e4.isEmpty
            && !b1.isEmpty && b1.owner == White && b1.piece == Knight
            && !CanMove(b, Position(2, 1), Position(2, 3), Knight, White)
  {
    assert At(b, Position(1, 7)) == InitialOccupant(Position(1, 7));
    assert At(b, Position(5, 4)) == InitialOccupant(Position(5, 4));
    assert At(b, Position(2, 1)) == InitialOccupant(Position(2, 1));
    assert At(b, Position(1, 5)) == InitialOccupant(Position(1, 5));
    assert At(b, Position(2, 2)) == InitialOccupant(Position(2, 2));
  }

  /** `has_moved` is only ever the answer to a castling. */
  lemma HasMovedOnlyWhenCastling(rb: Rulebook, g: Game, from: Position, to: Position, promote: PieceType)
    requires PlayDefined(g, from, to)
    ensures Play(rb, g, from, to, promote).1 == Result.HasMoved ==> IsCastling(rb, g.board, from, to, g.player)
  {
    var b, pl := RestartLapses(g.board, g.player), g.player;
    PlayOutcome(rb, g, from, to, promote);
    if Play(rb, g, from, to, promote).1 == Result.HasMoved {
      assert Judge(rb, b, pl, from, to, promote) == Reject(Result.HasMoved);
      assert Validate(rb, b, pl, from, to) == Reject(Result.HasMoved);
      RestartKeepsTests(rb, g.board, pl, from, to);
    }
  }

  /** With the intended rules a successful castling reports `ok`: the king's destination
      must be empty. */
  lemma CastlingReportsOk(g: Game, from: Position, to: Position, promote: PieceType)
    requires PlayDefined(g, from, to) && IsCastling(Intended, g.board, from, to, g.player)
    ensures IsSuccess(Play(Intended, g, from, to, promote).1) ==> Play(Intended, g, from, to, promote).1 == Ok
  {
    var b, pl := RestartLapses(g.board, g.player), g.player;
    if IsSuccess(Play(Intended, g, from, to, promote).1) {
      Accepted(Intended, g, from, to, promote);
      ProceedFacts(Intended, b, pl, from, to, promote);
      RestartKeepsTests(Intended, g.board, pl, from, to);
      CastlingGeometry(Intended, g.board, from, to, pl);
      assert IsStraight(Sub(to, from));
      CaptureIffTaking(Intended, g, from, to, promote);
    }
  }

  /** Once the king, or the rook of the side castled toward, has moved, castling on that
      side never succeeds: it is refused (with `has_moved` when no earlier test objects), and
      `bad_move` is the answer only when the piece on the king's square is not a king. */
  lemma CastlingAfterMoveRefused(rb: Rulebook, g: Game, from: Position, to: Position, promote: PieceType)
    requires PlayDefined(g, from, to) && IsCastling(rb, g.board, from, to, g.player)
    requires Rules.HasMoved(g.board, from, to)
    ensures !IsSuccess(Play(rb, g, from, to, promote).1)
    ensures Play(rb, g, from, to, promote).1
            in {NoPiece, BadPiece, BadMove, Result.Blocked, InCheck, Result.WouldCheck, Result.HasMoved}
    ensures Play(rb, g, from, to, promote).1 == BadMove ==> At(g.board, from).piece != King
  {
    var r := Play(rb, g, from, to, promote).1;
    CastlingOutcomes(rb, g, from, to, promote);
    if IsSuccess(r) {
      CastledPieceUnmoved(rb, g, from, to, promote);
    }
  }

  /** A successful castling found the king, or the piece standing in for it, and the rook
      unmoved. */
  lemma CastledPieceUnmoved(rb: Rulebook, g: Game, from: Position, to: Position, promote: PieceType)
    requires PlayDefined(g, from, to) && IsCastling(rb, g.board, from, to, g.player)
    requires IsSuccess(Play(rb, g, from, to, promote).1)
    ensures !Rules.HasMoved(g.board, from, to)
  {
    var b, pl := RestartLapses(g.board, g.player), g.player;
    Accepted(rb, g, from, to, promote);
    CastlingGeometry(rb, g.board, from, to, pl);
    RestartKeepsTests(rb, g.board, pl, from, to);
    ProceedFacts(rb, b, pl, from, to, promote);
  }
}
