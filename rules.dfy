/** The rules of the engine as functions on a board value: every query of class `chess`,
    every board update it performs, and the whole `play` protocol. The class in module
    Engine performs the same steps in place and is proved to agree with these functions. */
module Rules {
  import opened Geometry
  import opened Pieces

  /** The occupants of the 64 squares; cell k holds the square PosAt(k). */
  type Board = b: seq<Occupant> | |b| == 64 witness seq(64, _ => Empty)

  /** The whole game state: the board and the side to move. */
  datatype Game = Game(board: Board, player: Player)

  /** Which reading of the rules a function follows: `AsWritten` is the engine exactly as its
      source behaves; `Intended` applies the three corrections recorded in module Findings
      (castling is for a king only, castling needs the king's destination empty, and only a
      move onto an empty square can be a lapsed en passant capture). */
  datatype Rulebook = AsWritten | Intended

  // ---------------------------------------------------------------------------------------
  // Reading and writing squares

  /** `chess::at` (and `getOccupant` on a square): the sentinel reads as a default occupant. */
  function At(b: Board, p: Position): Occupant
    requires Addressable(p)
  {
    if p == Sentinel then Empty else b[Index(p)]
  }

  /** `chess::placeOccupant`: overwrite one square and nothing else. */
  function Place(b: Board, p: Position, o: Occupant): (r: Board)
    requires OnBoard(p)
    ensures At(r, p) == o
    ensures forall q :: Addressable(q) && q != p ==> At(r, q) == At(b, q)
  {
    b[Index(p) := o]
  }

  /** Two boards that agree on every square are equal. */
  lemma SameBoard(b: Board, c: Board)
    requires forall q :: OnBoard(q) ==> At(b, q) == At(c, q)
    ensures b == c
  {
    forall k | 0 <= k < 64
      ensures b[k] == c[k]
    {
      assert At(b, PosAt(k)) == At(c, PosAt(k));
    }
  }

  /** `chess::makeMove`: the occupant of `from` is copied to `to`, then `from` is emptied. */
  function MakeMove(b: Board, from: Position, to: Position): (r: Board)
    requires OnBoard(from) && OnBoard(to)
    ensures At(r, from) == Empty
    ensures from != to ==> At(r, to) == At(b, from)
    ensures forall q :: Addressable(q) && q != from && q != to ==> At(r, q) == At(b, q)
  {
    Place(Place(b, to, At(b, from)), from, Empty)
  }

  /** The flags a piece carries after a move by `m`: it has moved; a pawn's two-square
      advance opens its en passant window, any other pawn move clears `didTwoStep`. */
  function Flagged(o: Occupant, m: Move): Occupant {
    var flagged :=
      if o.piece == Pawn then
        if Abs(m) == Vert(2) then o.(didTwoStep := true, canBeLapsed := true)
        else o.(didTwoStep := false)
      else o;
    flagged.(didMove := true)
  }

  /** `chess::setFlags`: the piece on `from` gets the flags of a move to `to`. */
  function SetFlags(b: Board, from: Position, to: Position): (r: Board)
    requires OnBoard(from)
    ensures At(r, from) == Flagged(At(b, from), Sub(to, from))
    ensures forall q :: Addressable(q) && q != from ==> At(r, q) == At(b, q)
  {
    Place(b, from, Flagged(At(b, from), Sub(to, from)))
  }

  /** The effect of `restartLapses` on one occupant. */
  function ClearLapse(o: Occupant, pl: Player): Occupant {
    if !o.isEmpty && o.owner == pl && o.piece == Pawn then o.(canBeLapsed := false) else o
  }

  /** `chess::restartLapses`: close the en passant window of every pawn of `pl`. */
  function RestartLapses(b: Board, pl: Player): (r: Board)
    ensures forall q :: Addressable(q) ==> At(r, q) == ClearLapse(At(b, q), pl)
    ensures forall from, to :: Addressable(from) ==> IsEnPassant(r, pl, from, to) == IsEnPassant(b, pl, from, to)
  {
    seq(64, k requires 0 <= k < 64 => ClearLapse(b[k], pl))
  }

  // ---------------------------------------------------------------------------------------
  // Piece shapes (pseudo-legality: no obstruction, no check)

  /** `chess::canMovePawn`: one step forward; two steps forward for a pawn that never moved;
      one step diagonally forward onto an occupied square, or onto a square whose neighbour
      behind it holds a piece of another owner that has just advanced two squares. */
  predicate CanMovePawn(b: Board, from: Position, to: Position, pl: Player)
    requires Addressable(from) && Addressable(to)
  {
    var p := Forward(pl);
    var m := Sub(to, from);
    var toLapse := At(b, Add(to, Vert(-p)));
    m == Vert(p)
    || (!At(b, from).didMove && m == Vert(2 * p))
    || ((m == Move(1, p) || m == Move(-1, p))
        && (!At(b, to).isEmpty || (toLapse.owner != pl && toLapse.didTwoStep)))
  }

  /** `chess::canMoveKing`: a castling move or one step in any direction. */
  predicate CanMoveKing(b: Board, from: Position, to: Position, pl: Player)
    requires Addressable(from) && Addressable(to)
  {
    var m := Abs(Sub(to, from));
    IsCastling(AsWritten, b, from, to, pl) || (m.file <= 1 && m.rank <= 1)
  }

  predicate CanMoveRook(m: Move) {
    IsStraight(m)
  }

  predicate CanMoveKnight(m: Move) {
    var a := Abs(m);
    (a.file == 1 && a.rank == 2) || (a.file == 2 && a.rank == 1)
  }

  predicate CanMoveBishop(m: Move) {
    IsDiagonal(m)
  }

  predicate CanMoveQueen(m: Move) {
    IsStraight(m) || IsDiagonal(m)
  }

  /** `chess::canMove`: dispatch on the kind of piece. */
  predicate CanMove(b: Board, from: Position, to: Position, kind: PieceType, pl: Player)
    requires Addressable(from) && Addressable(to)
  {
    var m := Sub(from, to);
    match kind
    case Pawn => CanMovePawn(b, from, to, pl)
    case King => CanMoveKing(b, from, to, pl)
    case Rook => CanMoveRook(m)
    case Knight => CanMoveKnight(m)
    case Bishop => CanMoveBishop(m)
    case Queen => CanMoveQueen(m)
  }

  /** `chess::isCastling`: a move from the king's home square, two files toward a rook of
      `pl` standing on its home corner. As written, the source does not consult which piece
      stands on the home square; the intended rulebook also demands a king there (see module
      Findings). */
  predicate IsCastling(rb: Rulebook, b: Board, from: Position, to: Position, pl: Player) {
    var m := Sub(to, from);
    var r := HomeRank(pl);
    from == Position(5, r)
    && ((m == Horiz(2) && At(b, Position(8, r)).piece == Rook && At(b, Position(8, r)).owner == pl)
        || (m == Horiz(-2) && At(b, Position(1, r)).piece == Rook && At(b, Position(1, r)).owner == pl))
    && (rb == Intended ==> At(b, from).piece == King)
  }

  // ---------------------------------------------------------------------------------------
  // Obstruction

  /** Some square strictly between `from` and `to` on their common line is occupied. */
  predicate PathOccupied(b: Board, from: Position, to: Position)
    requires OnBoard(from) && Addressable(to)
    requires IsStraight(Sub(to, from)) || IsDiagonal(Sub(to, from))
  {
    RayInsideBoard(from, to);
    exists i :: 0 < i < Chebyshev(Sub(to, from))
      && !At(b, Step(from, UnitDirection(Sub(to, from)), i)).isEmpty
  }

  /** The squares of the ray from `from` toward `to` strictly between `from` and the
      `i`-th square of the ray (and before `to`) are all empty. */
  predicate RayClearBefore(b: Board, from: Position, to: Position, i: int)
    requires OnBoard(from) && Addressable(to)
    requires IsStraight(Sub(to, from)) || IsDiagonal(Sub(to, from))
  {
    RayInsideBoard(from, to);
    forall j :: 0 < j < i && j < Chebyshev(Sub(to, from))
      ==> At(b, Step(from, UnitDirection(Sub(to, from)), j)).isEmpty
  }

  /** Finding the `i`-th square of the ray empty extends the clear part by one square. */
  lemma RayClearStep(b: Board, from: Position, to: Position, i: int)
    requires OnBoard(from) && Addressable(to)
    requires IsStraight(Sub(to, from)) || IsDiagonal(Sub(to, from))
    requires 0 < i < Chebyshev(Sub(to, from))
    requires RayClearBefore(b, from, to, i)
    requires At(b, Step(from, UnitDirection(Sub(to, from)), i)).isEmpty
    ensures RayClearBefore(b, from, to, i + 1)
  {
  }

  /** `chess::isBlocked`, for a move of `pl` while `side` is to move: the destination holds
      a piece of `pl`; or a pawn moves straight onto a piece of the side not to move; or a
      square strictly between the two ends of a straight or diagonal move is occupied; or the
      move is castling and the square beside the king's destination, toward the rook's
      corner, is occupied. As written, a piece of the opponent on the king's destination does
      not stop castling; the intended rulebook also blocks castling there (see module
      Findings). */
  predicate IsBlocked(rb: Rulebook, b: Board, side: Player, from: Position, to: Position, pl: Player)
    requires OnBoard(from) && Addressable(to)
  {
    var dest := At(b, to);
    var m := Sub(to, from);
    (!dest.isEmpty && dest.owner == pl)
    || (!dest.isEmpty && At(b, from).piece == Pawn && IsStraight(m) && dest.owner == Opponent(side))
    || ((IsDiagonal(m) || IsStraight(m))
        && (PathOccupied(b, from, to)
            || (IsCastling(rb, b, from, to, pl)
                && ((rb == Intended && !dest.isEmpty) || !At(b, Add(to, Horiz(-1))).isEmpty))))
  }

  // ---------------------------------------------------------------------------------------
  // Check detection

  predicate IsKingOf(o: Occupant, pl: Player) {
    !o.isEmpty && o.piece == King && o.owner == pl
  }

  /** The first cell from `k` on holding the king of `pl`, or the sentinel. */
  function FindKingFrom(b: Board, pl: Player, k: nat): (r: Position)
    requires k <= 64
    decreases 64 - k
    ensures Addressable(r)
    ensures r == Sentinel ==> forall j :: k <= j < 64 ==> !IsKingOf(b[j], pl)
    ensures r != Sentinel ==> k <= Index(r) && IsKingOf(At(b, r), pl)
    ensures r != Sentinel ==> forall j :: k <= j < Index(r) ==> !IsKingOf(b[j], pl)
  {
    if k == 64 then Sentinel
    else if IsKingOf(b[k], pl) then PosAt(k)
    else FindKingFrom(b, pl, k + 1)
  }

  /** `chess::findKingPosition`: the first square in board order holding the king of `pl`,
      or the sentinel when `pl` has no king. */
  function FindKingPosition(b: Board, pl: Player): (r: Position)
    ensures Addressable(r)
    ensures r == Sentinel <==> forall q :: OnBoard(q) ==> !IsKingOf(At(b, q), pl)
    ensures r != Sentinel ==> IsKingOf(At(b, r), pl)
    ensures r != Sentinel ==> forall q :: OnBoard(q) && Index(q) < Index(r) ==> !IsKingOf(At(b, q), pl)
  {
    var r := FindKingFrom(b, pl, 0);
    assert r == Sentinel ==> forall q :: OnBoard(q) ==> !IsKingOf(b[Index(q)], pl);
    r
  }

  /** The piece on `p` attacks the square `king` of `pl`: it belongs to the other side, has
      the shape to reach `king` when that side is to move and is not obstructed; a pawn on a
      straight line to `king` never counts. */
  predicate Threatens(rb: Rulebook, b: Board, pl: Player, p: Position, king: Position)
    requires OnBoard(p) && Addressable(king)
  {
    var o := At(b, p);
    !o.isEmpty && o.owner != pl
    && CanMove(b, p, king, o.piece, Opponent(pl))
    && !IsBlocked(rb, b, pl, p, king, Opponent(pl))
    && !(o.piece == Pawn && IsStraight(Sub(king, p)))
  }

  /** Some square holds a piece that threatens `king`. */
  predicate ThreatExists(rb: Rulebook, b: Board, pl: Player, king: Position)
    requires Addressable(king)
  {
    exists k :: 0 <= k < 64 && Threatens(rb, b, pl, PosAt(k), king)
  }

  /** The same, quantified over files and ranks instead of cell numbers. */
  lemma ThreatOnSomeSquare(rb: Rulebook, b: Board, pl: Player, king: Position)
    requires Addressable(king)
    ensures ThreatExists(rb, b, pl, king)
            <==> exists f, r :: 1 <= f <= 8 && 1 <= r <= 8 && Threatens(rb, b, pl, Position(f, r), king)
  {
    CellsCoverSquares(p => OnBoard(p) && Threatens(rb, b, pl, p, king));
  }

  /** A property holds on some cell number's square exactly when it holds on some square
      named by file and rank. */
  lemma CellsCoverSquares(P: Position -> bool)
    ensures (exists k :: 0 <= k < 64 && P(PosAt(k)))
            <==> exists f, r :: 1 <= f <= 8 && 1 <= r <= 8 && P(Position(f, r))
  {
    forall k | 0 <= k < 64 && P(PosAt(k))
      ensures exists f, r :: 1 <= f <= 8 && 1 <= r <= 8 && P(Position(f, r))
    {
      CellIsSquare(P, k);
    }
    forall f, r | 1 <= f <= 8 && 1 <= r <= 8 && P(Position(f, r))
      ensures exists k :: 0 <= k < 64 && P(PosAt(k))
    {
      SquareIsCell(P, f, r);
    }
  }

  /** A property that holds on some cell holds on the square with that cell's file and rank. */
  lemma CellIsSquare(P: Position -> bool, k: int)
    requires 0 <= k < 64 && P(PosAt(k))
    ensures exists f, r :: 1 <= f <= 8 && 1 <= r <= 8 && P(Position(f, r))
  {
    var p := PosAt(k);
    assert p == Position(p.file, p.rank);
    assert 1 <= p.file <= 8 && 1 <= p.rank <= 8 && P(Position(p.file, p.rank));
  }

  /** A property that holds on some square holds on the cell that square is stored in. */
  lemma SquareIsCell(P: Position -> bool, f: int, r: int)
    requires 1 <= f <= 8 && 1 <= r <= 8 && P(Position(f, r))
    ensures exists k :: 0 <= k < 64 && P(PosAt(k))
  {
    var k := Index(Position(f, r));
    IndexInverse(Position(f, r));
    assert 0 <= k < 64 && P(PosAt(k));
  }

  /** `chess::isChecked`: some square holds a piece that threatens the king of `pl`. */
  predicate IsChecked(rb: Rulebook, b: Board, pl: Player) {
    ThreatExists(rb, b, pl, FindKingPosition(b, pl))
  }

  // ---------------------------------------------------------------------------------------
  // En passant

  /** `chess::isEnPassant`: a pawn of `pl` moves to a square whose neighbour toward `pl`'s
      side holds a piece of the opponent whose en passant window is open. */
  predicate IsEnPassant(b: Board, pl: Player, from: Position, to: Position)
    requires Addressable(from)
  {
    var toLapse := At(b, Add(to, Vert(Backward(pl))));
    At(b, from).piece == Pawn && toLapse.owner == Opponent(pl) && toLapse.canBeLapsed
  }

  /** `chess::isLapsed`: a pawn moves to a square whose neighbour toward `pl`'s side holds a
      double-stepped piece of the opponent whose window has closed. As written, the source
      does not consult the destination; the intended rulebook makes the test only for a move
      onto an empty square, the only move that can be an en passant capture (see module
      Findings). */
  predicate IsLapsed(rb: Rulebook, b: Board, pl: Player, from: Position, to: Position)
    requires Addressable(from) && Addressable(to)
  {
    var toLapse := At(b, Add(to, Vert(Backward(pl))));
    (rb == Intended ==> At(b, to).isEmpty)
    && At(b, from).piece == Pawn && toLapse.owner == Opponent(pl) && toLapse.didTwoStep
    && !toLapse.canBeLapsed
  }

  /** `chess::applyEnPassant`: remove the piece on the neighbour of `at` toward `pl`'s side. */
  function ApplyEnPassant(b: Board, pl: Player, at: Position): (r: Board)
    requires OnBoard(Add(at, Vert(Backward(pl))))
    ensures At(r, Add(at, Vert(Backward(pl)))) == Empty
    ensures forall q :: Addressable(q) && q != Add(at, Vert(Backward(pl))) ==> At(r, q) == At(b, q)
  {
    Place(b, Add(at, Vert(Backward(pl))), Empty)
  }

  // ---------------------------------------------------------------------------------------
  // Simulation of a move

  /** The positions `wouldCheck` reads and writes are squares: both ends and, when the move
      is en passant, both vertical neighbours of the destination. */
  predicate SimulationDefined(b: Board, pl: Player, from: Position, to: Position) {
    OnBoard(from) && OnBoard(to)
    && (IsEnPassant(b, pl, from, to) ==> OnBoard(Add(to, Vert(1))) && OnBoard(Add(to, Vert(-1))))
  }

  /** The board `wouldCheck` evaluates: the move made, with the en passant capture if any. */
  function Simulated(b: Board, pl: Player, from: Position, to: Position): Board
    requires SimulationDefined(b, pl, from, to)
  {
    if IsEnPassant(b, pl, from, to) then MakeMove(ApplyEnPassant(b, pl, to), from, to)
    else MakeMove(b, from, to)
  }

  /** `chess::wouldCheck`: after the move, the king of `pl` would be in check. */
  predicate WouldCheck(rb: Rulebook, b: Board, pl: Player, from: Position, to: Position)
    requires SimulationDefined(b, pl, from, to)
  {
    IsChecked(rb, Simulated(b, pl, from, to), pl)
  }

  /** Undoing a plain simulated move (`makeMove` back, then restoring the saved destination)
      gives back the board it started from, whatever the two squares hold. */
  lemma {:induction false} SimulationUndone(b: Board, from: Position, to: Position)
    requires OnBoard(from) && OnBoard(to)
    ensures Place(MakeMove(MakeMove(b, from, to), to, from), to, At(b, to)) == b
  {
    var r := Place(MakeMove(MakeMove(b, from, to), to, from), to, At(b, to));
    forall q | OnBoard(q)
      ensures At(r, q) == At(b, q)
    {
    }
    SameBoard(r, b);
  }

  /** The same for an en passant simulation, which also restores both vertical neighbours of
      the destination (one of them held the captured pawn). */
  lemma {:induction false} EnPassantSimulationUndone(b: Board, pl: Player, from: Position, to: Position)
    requires SimulationDefined(b, pl, from, to) && IsEnPassant(b, pl, from, to)
    ensures var up, down := Add(to, Vert(1)), Add(to, Vert(-1));
            Place(Place(Place(MakeMove(MakeMove(ApplyEnPassant(b, pl, to), from, to), to, from),
                              up, At(b, up)), down, At(b, down)), to, At(b, to)) == b
  {
    var up, down := Add(to, Vert(1)), Add(to, Vert(-1));
    var captured := Add(to, Vert(Backward(pl)));
    assert captured == up || captured == down;
    var r := Place(Place(Place(MakeMove(MakeMove(ApplyEnPassant(b, pl, to), from, to), to, from),
                               up, At(b, up)), down, At(b, down)), to, At(b, to));
    forall q | OnBoard(q)
      ensures At(r, q) == At(b, q)
    {
    }
    SameBoard(r, b);
  }

  // ---------------------------------------------------------------------------------------
  // Castling

  /** The file direction of a castling move: +1 toward the king side, -1 otherwise. */
  function CastlingSide(from: Position, to: Position): int {
    if Sub(to, from).file == 2 then 1 else -1
  }

  /** `chess::wouldCheckCastling`: the king would be in check one or two files along. */
  predicate WouldCheckCastling(rb: Rulebook, b: Board, pl: Player, from: Position, to: Position)
    requires SimulationDefined(b, pl, from, Add(from, Horiz(CastlingSide(from, to))))
    requires SimulationDefined(b, pl, from, Add(from, Horiz(2 * CastlingSide(from, to))))
  {
    var p := CastlingSide(from, to);
    WouldCheck(rb, b, pl, from, Add(from, Horiz(p))) || WouldCheck(rb, b, pl, from, Add(from, Horiz(2 * p)))
  }

  /** `chess::hasMoved`: the king, or the rook of the side castled toward, has moved. */
  predicate HasMoved(b: Board, from: Position, to: Position)
    requires Addressable(from)
  {
    At(b, from).didMove
    || (if Sub(to, from).file == 2 then At(b, Add(from, Horiz(3))).didMove
        else At(b, Add(from, Horiz(-4))).didMove)
  }

  /** The squares `makeCastling` moves the rook between are on the board. */
  predicate CastlingDefined(from: Position, to: Position) {
    OnBoard(from) && OnBoard(to)
    && (if Sub(to, from).file == 2 then OnBoard(Add(to, Horiz(1))) && OnBoard(Add(to, Horiz(-1)))
        else OnBoard(Add(to, Horiz(-2))) && OnBoard(Add(to, Horiz(1))))
  }

  /** A castling move starts on the king's home square, so the rook's two squares exist. */
  lemma CastlingIsDefined(rb: Rulebook, b: Board, from: Position, to: Position, pl: Player)
    requires IsCastling(rb, b, from, to, pl)
    ensures CastlingDefined(from, to)
  {
  }

  /** The rook's origin and destination in a castling move. */
  function RookFrom(from: Position, to: Position): Position {
    if Sub(to, from).file == 2 then Add(to, Horiz(1)) else Add(to, Horiz(-2))
  }

  function RookTo(from: Position, to: Position): Position {
    if Sub(to, from).file == 2 then Add(to, Horiz(-1)) else Add(to, Horiz(1))
  }

  /** `chess::makeCastling`: the rook jumps next to the king's destination on the inner side,
      then the king moves two files. */
  function MakeCastling(b: Board, from: Position, to: Position): Board
    requires CastlingDefined(from, to)
  {
    var rookMoved := MakeMove(b, RookFrom(from, to), RookTo(from, to));
    Place(Place(rookMoved, to, At(rookMoved, from)), from, Empty)
  }

  // ---------------------------------------------------------------------------------------
  // Promotion

  /** `chess::isPromote`: a pawn moves onto the first or last rank. */
  predicate IsPromote(b: Board, from: Position, to: Position)
    requires Addressable(from)
  {
    At(b, from).piece == Pawn && (to.rank == 1 || to.rank == 8)
  }

  /** `chess::isValidPromote`: a pawn may become anything but a pawn or a king. */
  predicate IsValidPromote(promote: PieceType) {
    promote != Pawn && promote != King
  }

  /** `chess::applyPromote`: rewrite the kind of the piece on `at`, keeping owner and flags. */
  function ApplyPromote(b: Board, at: Position, promote: PieceType): (r: Board)
    requires OnBoard(at)
    ensures At(r, at) == At(b, at).(piece := promote)
    ensures forall q :: Addressable(q) && q != at ==> At(r, q) == At(b, q)
  {
    Place(b, at, At(b, at).(piece := promote))
  }

  // ---------------------------------------------------------------------------------------
  // The starting position

  /** The back-rank piece standing on a file at the start: rook, knight, bishop, queen, king,
      bishop, knight, rook. */
  function BackRankPiece(file: int): PieceType {
    if file == 1 || file == 8 then Rook
    else if file == 2 || file == 7 then Knight
    else if file == 3 || file == 6 then Bishop
    else if file == 4 then Queen
    else King
  }

  /** What a square holds at the start: white on ranks 1 and 2, black on ranks 7 and 8. */
  function InitialOccupant(p: Position): Occupant {
    if p.rank == 2 then NewOccupant(White, Pawn)
    else if p.rank == 7 then NewOccupant(Black, Pawn)
    else if p.rank == 1 then NewOccupant(White, BackRankPiece(p.file))
    else if p.rank == 8 then NewOccupant(Black, BackRankPiece(p.file))
    else Empty
  }

  /** The board the constructor of `chess` sets up. */
  function InitialBoard(): Board {
    seq(64, k requires 0 <= k < 64 => InitialOccupant(PosAt(k)))
  }

  /** Every square of the starting board holds its initial occupant. */
  lemma InitialBoardSquares()
    ensures forall q :: OnBoard(q) ==> At(InitialBoard(), q) == InitialOccupant(q)
  {
    forall q | OnBoard(q)
      ensures At(InitialBoard(), q) == InitialOccupant(q)
    {
      IndexInverse(q);
    }
  }

  // ---------------------------------------------------------------------------------------
  // The play protocol

  /** The outcome of validation: go on with the move, or report an error. */
  datatype Verdict = Proceed | Reject(result: Result)

  /** What `play` demands of its arguments: the destination is a square, the origin a square
      or the sentinel, and an en passant move does not land on the first or last rank (the
      simulation would otherwise restore a square off the board). */
  predicate PlayDefined(g: Game, from: Position, to: Position) {
    Addressable(from) && OnBoard(to)
    && !(IsEnPassant(g.board, g.player, from, to) && (to.rank == 1 || to.rank == 8))
  }

  /** The last validation step of `play`: a promotion must ask for a valid piece kind. */
  function PromotionVerdict(b: Board, from: Position, to: Position, promote: PieceType): Verdict
    requires Addressable(from)
  {
    if IsPromote(b, from, to) && !IsValidPromote(promote) then Reject(BadPromote) else Proceed
  }

  /** The validation part of `play` (after `restartLapses`), in its order of precedence:
      every test but the last one, the promotion test. */
  function Validate(rb: Rulebook, b: Board, pl: Player, from: Position, to: Position): (v: Verdict)
    requires Addressable(from) && OnBoard(to)
    requires !(IsEnPassant(b, pl, from, to) && (to.rank == 1 || to.rank == 8))
    ensures v == Proceed ==> OnBoard(from) && !At(b, from).isEmpty && At(b, from).owner == pl
  {
    var o := At(b, from);
    if o.isEmpty then Reject(NoPiece)
    else if o.owner != pl then Reject(BadPiece)
    else if !CanMove(b, from, to, o.piece, pl) then Reject(BadMove)
    else Screen(rb, b, pl, from, to)
  }

  /** The tests of `play` that follow the shape test: obstruction, a closed en passant
      window, then the check and castling tests. The source evaluates `isChecked` before
      every other test; having no effect, it is evaluated here where it is used. */
  function Screen(rb: Rulebook, b: Board, pl: Player, from: Position, to: Position): (v: Verdict)
    requires OnBoard(from) && OnBoard(to) && !At(b, from).isEmpty
    requires CanMove(b, from, to, At(b, from).piece, pl)
    requires !(IsEnPassant(b, pl, from, to) && (to.rank == 1 || to.rank == 8))
    ensures v.Reject? ==> (v.result == Result.Blocked || v.result == Lapsed || v.result == InCheck
                           || v.result == Result.WouldCheck || v.result == Result.HasMoved)
    ensures v == Proceed ==> !IsBlocked(rb, b, pl, from, to, pl) && !IsLapsed(rb, b, pl, from, to)
    ensures v == Proceed && IsCastling(rb, b, from, to, pl) ==> !HasMoved(b, from, to)
  {
    if IsBlocked(rb, b, pl, from, to, pl) then Reject(Result.Blocked)
    else if IsLapsed(rb, b, pl, from, to) then Reject(Lapsed)
    else CheckVerdict(rb, b, pl, from, to, IsChecked(rb, b, pl))
  }

  /** The check tests of `play`, given whether the mover was in check before the move: a
      castling is refused out of check, through or into check, or when the king or the rook
      has moved; any other move is refused when it leaves the mover's king in check. */
  function CheckVerdict(rb: Rulebook, b: Board, pl: Player, from: Position, to: Position, wasChecked: bool): (v: Verdict)
    requires OnBoard(from) && OnBoard(to) && !At(b, from).isEmpty
    requires CanMove(b, from, to, At(b, from).piece, pl)
    requires !(IsEnPassant(b, pl, from, to) && (to.rank == 1 || to.rank == 8))
    ensures v.Reject? ==> (v.result == InCheck || v.result == Result.WouldCheck || v.result == Result.HasMoved)
    ensures v == Reject(Result.HasMoved) ==> IsCastling(rb, b, from, to, pl)
    ensures v == Proceed && IsCastling(rb, b, from, to, pl) ==> !HasMoved(b, from, to)
  {
    if IsCastling(rb, b, from, to, pl) then
      if wasChecked then Reject(InCheck)
      else if EndsInCheck(rb, b, pl, from, to) then Reject(Result.WouldCheck)
      else if HasMoved(b, from, to) then Reject(Result.HasMoved)
      else Proceed
    else if EndsInCheck(rb, b, pl, from, to) then
      Reject(if wasChecked then InCheck else Result.WouldCheck)
    else Proceed
  }

  /** The test `play` makes of the position after the move: `wouldCheckCastling` for a
      castling, `wouldCheck` for any other move. */
  predicate EndsInCheck(rb: Rulebook, b: Board, pl: Player, from: Position, to: Position)
    requires OnBoard(from) && OnBoard(to) && !At(b, from).isEmpty
    requires CanMove(b, from, to, At(b, from).piece, pl)
    requires !(IsEnPassant(b, pl, from, to) && (to.rank == 1 || to.rank == 8))
  {
    if IsCastling(rb, b, from, to, pl) then
      CastlingLegsDefined(rb, b, pl, from, to);
      WouldCheckCastling(rb, b, pl, from, to)
    else
      MoveSimulationDefined(b, pl, from, to);
      WouldCheck(rb, b, pl, from, to)
  }

  /** The whole validation of `play`: the tests of Validate, then the promotion test. */
  function Judge(rb: Rulebook, b: Board, pl: Player, from: Position, to: Position, promote: PieceType): (v: Verdict)
    requires Addressable(from) && OnBoard(to)
    requires !(IsEnPassant(b, pl, from, to) && (to.rank == 1 || to.rank == 8))
    ensures v == Proceed ==> OnBoard(from) && !At(b, from).isEmpty && At(b, from).owner == pl
  {
    var v := Validate(rb, b, pl, from, to);
    if v == Proceed then PromotionVerdict(b, from, to, promote) else v
  }

  /** A castling move that passed the shape test is not a pawn move, so neither of its two
      king steps is en passant, and both steps stay on the board. */
  lemma CastlingLegsDefined(rb: Rulebook, b: Board, pl: Player, from: Position, to: Position)
    requires Addressable(from) && Addressable(to) && !At(b, from).isEmpty
    requires CanMove(b, from, to, At(b, from).piece, pl) && IsCastling(rb, b, from, to, pl)
    ensures SimulationDefined(b, pl, from, Add(from, Horiz(CastlingSide(from, to))))
    ensures SimulationDefined(b, pl, from, Add(from, Horiz(2 * CastlingSide(from, to))))
  {
    assert At(b, from).piece != Pawn;
  }

  /** An en passant move that does not reach the first or last rank has both vertical
      neighbours of its destination on the board. */
  lemma MoveSimulationDefined(b: Board, pl: Player, from: Position, to: Position)
    requires OnBoard(from) && OnBoard(to)
    requires !(IsEnPassant(b, pl, from, to) && (to.rank == 1 || to.rank == 8))
    ensures SimulationDefined(b, pl, from, to)
  {
  }

  /** The steps of `play` before any piece moves: the promotion, the removal of a pawn
      taken en passant, and the flags of the moving piece. */
  function Prepare(b: Board, pl: Player, from: Position, to: Position, promote: PieceType): Board
    requires OnBoard(from) && OnBoard(to)
  {
    var promoted := if IsPromote(b, from, to) then ApplyPromote(b, from, promote) else b;
    var captured := if IsEnPassant(promoted, pl, from, to) then ApplyEnPassant(promoted, pl, to) else promoted;
    SetFlags(captured, from, to)
  }

  /** The performing part of `play`: promotion, capture (en passant included), flags,
      relocation, and the turn passing to the opponent. */
  function Commit(rb: Rulebook, b: Board, pl: Player, from: Position, to: Position, promote: PieceType): (Game, Result)
    requires OnBoard(from) && OnBoard(to)
  {
    var promoted := if IsPromote(b, from, to) then ApplyPromote(b, from, promote) else b;
    var result := if !At(promoted, to).isEmpty || IsEnPassant(promoted, pl, from, to) then Capture else Ok;
    var flagged := Prepare(b, pl, from, to, promote);
    var moved := if IsCastling(rb, flagged, from, to, pl) then (CastlingIsDefined(rb, flagged, from, to, pl); MakeCastling(flagged, from, to))
                 else MakeMove(flagged, from, to);
    (Game(moved, Opponent(pl)), result)
  }

  /** `chess::play`: the new game state and the outcome of one move request. */
  function Play(rb: Rulebook, g: Game, from: Position, to: Position, promote: PieceType): (Game, Result)
    requires PlayDefined(g, from, to)
  {
    var b := RestartLapses(g.board, g.player);
    match Judge(rb, b, g.player, from, to, promote)
    case Reject(r) => (Game(b, g.player), r)
    case Proceed => Commit(rb, b, g.player, from, to, promote)
  }
}
