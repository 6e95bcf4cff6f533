/** Class `chess`: the board as a fixed buffer of 64 cells plus the side to move, updated in
    place step by step as the source does. Every method is proved to agree with the function
    of the same name in module Rules, read with the rulebook `AsWritten`. */
module Engine {
  import opened Geometry
  import opened Pieces
  import Rules

  /** The board while the constructor places the pawns: those on the files before `i` are
      placed, every other square is empty. */
  ghost predicate PawnsPlaced(b: Rules.Board, i: int) {
    forall q :: OnBoard(q) ==>
      Rules.At(b, q) == if (q.rank == 2 || q.rank == 7) && q.file < i then Rules.InitialOccupant(q) else Empty
  }

  /** The board while the constructor places the back ranks: `j` of the ranks 1, 8 are done
      and the pawns are in place. */
  ghost predicate RanksPlaced(b: Rules.Board, j: int) {
    forall q :: OnBoard(q) ==>
      Rules.At(b, q) == if (q.rank == 1 && j < 1) || (q.rank == 8 && j < 2) then Empty else Rules.InitialOccupant(q)
  }

  /** The constructor starts from an empty board. */
  lemma NoPawnsPlaced(b: Rules.Board)
    requires forall k :: 0 <= k < 64 ==> b[k] == Empty
    ensures PawnsPlaced(b, 1)
  {
  }

  /** One iteration of the pawn loop places the pawns of file `i`. */
  lemma PawnStep(b: Rules.Board, i: int)
    requires 1 <= i <= 8 && PawnsPlaced(b, i)
    ensures PawnsPlaced(Rules.Place(Rules.Place(b, Position(i, 2), NewOccupant(White, Pawn)),
                                    Position(i, 7), NewOccupant(Black, Pawn)), i + 1)
  {
  }

  /** With all the pawns placed, the back ranks are the only squares left to fill. */
  lemma PawnsDone(b: Rules.Board)
    requires PawnsPlaced(b, 9)
    ensures RanksPlaced(b, 0)
  {
  }

  /** With both back ranks placed, the board is the starting board. */
  lemma RanksDone(b: Rules.Board)
    requires RanksPlaced(b, 2)
    ensures b == Rules.InitialBoard()
  {
    Rules.InitialBoardSquares();
    Rules.SameBoard(b, Rules.InitialBoard());
  }

  /** The eight placements of one iteration of the back-rank loop complete that rank. */
  lemma RankStep(b: Rules.Board, j: int, colour: Player, r: int)
    requires (j == 0 && colour == White && r == 1) || (j == 1 && colour == Black && r == 8)
    requires RanksPlaced(b, j)
    ensures RanksPlaced(PlaceFiles(b, colour, r, 8), j + 1)
  {
    forall q | OnBoard(q)
      ensures Rules.At(PlaceFiles(b, colour, r, 8), q)
              == if (q.rank == 1 && j + 1 < 1) || (q.rank == 8 && j + 1 < 2) then Empty else Rules.InitialOccupant(q)
    {
      PlaceFilesSquares(b, colour, r, 8, q);
    }
  }

  /** The first `f` placements the constructor makes on the back rank `r` of `colour`. */
  ghost function PlaceFiles(b: Rules.Board, colour: Player, r: int, f: int): Rules.Board
    requires 1 <= r <= 8 && 0 <= f <= 8
  {
    if f == 0 then b
    else Rules.Place(PlaceFiles(b, colour, r, f - 1), Position(f, r), NewOccupant(colour, Rules.BackRankPiece(f)))
  }

  /** After `f` placements the files up to `f` of rank `r` hold their back-rank pieces and
      every other square is unchanged. */
  lemma {:induction false} PlaceFilesSquares(b: Rules.Board, colour: Player, r: int, f: int, q: Position)
    requires 1 <= r <= 8 && 0 <= f <= 8 && OnBoard(q)
    ensures Rules.At(PlaceFiles(b, colour, r, f), q)
            == if q.rank == r && q.file <= f then NewOccupant(colour, Rules.BackRankPiece(q.file)) else Rules.At(b, q)
  {
    if f > 0 {
      PlaceFilesSquares(b, colour, r, f - 1, q);
    }
  }

  class Chess {
    /** `_occupants`: the square p is cell Index(p). */
    var cells: array<Occupant>
    /** `_player`: the side to move. */
    var player: Player

    ghost predicate Valid()
      reads this
    {
      cells.Length == 64
    }

    /** The board as a value. */
    function Board(): Rules.Board
      reads this, cells
      requires Valid()
    {
      cells[..]
    }

    /** The whole state as a value. */
    function State(): Rules.Game
      reads this, cells
      requires Valid()
    {
      Rules.Game(cells[..], player)
    }

    /** `chess::chess`: the standard starting position, white to move. */
    constructor ()
      ensures Valid() && fresh(cells)
      ensures Board() == Rules.InitialBoard() && player == White
    {
      cells := new Occupant[64](_ => Empty);
      player := White;
      new;
      NoPawnsPlaced(Board());
      for i := 1 to 9
        invariant Valid() && fresh(cells) && player == White
        invariant PawnsPlaced(Board(), i)
      {
        PawnStep(Board(), i);
        PlaceOccupant(NewOccupant(White, Pawn), Position(i, 2));
        PlaceOccupant(NewOccupant(Black, Pawn), Position(i, 7));
      }
      PawnsDone(Board());
      var colour := White;
      var ranks := [1, 8];
      for j := 0 to 2
        invariant Valid() && fresh(cells) && player == White
        invariant colour == (if j == 0 then White else Black)
        invariant RanksPlaced(Board(), j)
      {
        var i := ranks[j];
        assert i == if j == 0 then 1 else 8;
        RankStep(Board(), j, colour, i);
        PlaceBackRank(colour, i);
        colour := Black;
      }
      RanksDone(Board());
    }

    /** The body of the back-rank loop of `chess::chess`: rook, knight, bishop, queen, king,
        bishop, knight, rook of `colour` on rank `i`. */
    method PlaceBackRank(colour: Player, i: int)
      requires Valid() && 1 <= i <= 8
      modifies cells
      ensures Valid()
      ensures Board() == PlaceFiles(old(Board()), colour, i, 8)
    {
      ghost var before := Board();
      PlaceOccupant(NewOccupant(colour, Rook), Position(1, i));
      assert Board() == PlaceFiles(before, colour, i, 1);
      PlaceOccupant(NewOccupant(colour, Knight), Position(2, i));
      assert Board() == PlaceFiles(before, colour, i, 2);
      PlaceOccupant(NewOccupant(colour, Bishop), Position(3, i));
      assert Board() == PlaceFiles(before, colour, i, 3);
      PlaceOccupant(NewOccupant(colour, Queen), Position(4, i));
      assert Board() == PlaceFiles(before, colour, i, 4);
      PlaceOccupant(NewOccupant(colour, King), Position(5, i));
      assert Board() == PlaceFiles(before, colour, i, 5);
      PlaceOccupant(NewOccupant(colour, Bishop), Position(6, i));
      assert Board() == PlaceFiles(before, colour, i, 6);
      PlaceOccupant(NewOccupant(colour, Knight), Position(7, i));
      assert Board() == PlaceFiles(before, colour, i, 7);
      PlaceOccupant(NewOccupant(colour, Rook), Position(8, i));
      assert Board() == PlaceFiles(before, colour, i, 8);
    }

    /** `chess::placeOccupant`. */
    method PlaceOccupant(o: Occupant, at: Position)
      requires Valid() && OnBoard(at)
      modifies cells
      ensures Valid()
      ensures Board() == Rules.Place(old(Board()), at, o)
    {
      cells[Index(at)] := o;
    }

    /** `chess::makeMove`. */
    method MakeMove(from: Position, to: Position)
      requires Valid() && OnBoard(from) && OnBoard(to)
      modifies cells
      ensures Valid()
      ensures Board() == Rules.MakeMove(old(Board()), from, to)
    {
      PlaceOccupant(cells[Index(from)], to);
      PlaceOccupant(Empty, from);
    }

    /** `chess::swapPlayer`. */
    method SwapPlayer()
      requires Valid()
      modifies this
      ensures Valid() && cells == old(cells)
      ensures player == Opponent(old(player))
    {
      player := if player == White then Black else White;
    }

    /** `chess::setFlags`, writing through the reference to the cell of `from`. */
    method SetFlags(from: Position, to: Position)
      requires Valid() && OnBoard(from)
      modifies cells
      ensures Valid()
      ensures Board() == Rules.SetFlags(old(Board()), from, to)
    {
      var k := Index(from);
      if cells[k].piece == Pawn {
        if Abs(Sub(to, from)) == Vert(2) {
          cells[k] := cells[k].(didTwoStep := true);
          cells[k] := cells[k].(canBeLapsed := true);
        } else {
          cells[k] := cells[k].(didTwoStep := false);
        }
      }
      cells[k] := cells[k].(didMove := true);
    }

    /** `chess::findKingPosition`: scan the squares in board order. */
    method FindKingPosition() returns (king: Position)
      requires Valid()
      ensures king == Rules.FindKingPosition(Board(), player)
    {
      for k := 0 to 64
        invariant forall j :: 0 <= j < k ==> !Rules.IsKingOf(cells[j], player)
      {
        var p := AllPositions()[k];
        var o := cells[Index(p)];
        if !o.isEmpty && o.piece == King && o.owner == player {
          return p;
        }
      }
      return Sentinel;
    }

    /** `chess::restartLapses`: scan the squares, closing the window of each own pawn. */
    method RestartLapses()
      requires Valid()
      modifies cells
      ensures Valid()
      ensures Board() == Rules.RestartLapses(old(Board()), player)
    {
      for k := 0 to 64
        invariant forall j :: 0 <= j < 64 ==>
                    cells[j] == if j < k then Rules.ClearLapse(old(cells[j]), player) else old(cells[j])
      {
        var p := AllPositions()[k];
        var o := cells[Index(p)];
        if !o.isEmpty && o.owner == player && o.piece == Pawn {
          cells[Index(p)] := o.(canBeLapsed := false);
        }
      }
      ghost var r := Rules.RestartLapses(old(Board()), player);
      assert forall j | 0 <= j < 64 :: r[j] == Rules.ClearLapse(old(cells[j]), player);
      assert cells[..] == r;
    }

    /** `chess::isBlocked`: the destination tests, then the walk along the ray, then the
        square beside a castling king's destination. */
    method IsBlocked(from: Position, to: Position, pl: Player) returns (r: bool)
      requires Valid() && OnBoard(from) && Addressable(to)
      ensures r == Rules.IsBlocked(Rules.AsWritten, Board(), player, from, to, pl)
    {
      var dest := Rules.At(Board(), to);
      if !dest.isEmpty {
        if dest.owner == pl {
          return true;
        }
        if Rules.At(Board(), from).piece == Pawn && IsStraight(Sub(to, from)) && dest.owner == Opponent(player) {
          return true;
        }
      }
      var dir := Sub(to, from);
      if !IsDiagonal(dir) && !IsStraight(dir) {
        return false;
      }
      r := WalkRay(from, to);
      if r {
        return true;
      }
      if Rules.IsCastling(Rules.AsWritten, Board(), from, to, pl) {
        return !Rules.At(Board(), Add(to, Horiz(-1))).isEmpty;
      }
      return false;
    }

    /** The loop of `chess::isBlocked`: from `from`, one unit step at a time toward `to`,
        stopping at the first occupied square. */
    method WalkRay(from: Position, to: Position) returns (r: bool)
      requires Valid() && OnBoard(from) && Addressable(to)
      requires IsStraight(Sub(to, from)) || IsDiagonal(Sub(to, from))
      ensures r == Rules.PathOccupied(Board(), from, to)
    {
      ghost var b := Board();
      var dir := Directionize(Sub(to, from));
      ghost var n: int := Chebyshev(Sub(to, from));
      RayReachesTarget(from, to);
      if n > 0 {
        RayInterior(from, to, 0);
      }
      if n > 1 {
        RayInterior(from, to, 1);
      }
      var pos := Add(from, dir);
      ghost var i := 1;
      while pos != to
        invariant 1 <= i
        invariant pos == to <==> i >= n
        invariant i < n ==> pos == Step(from, dir, i)
        invariant Rules.RayClearBefore(b, from, to, i)
        decreases n - i
      {
        RayInterior(from, to, i);
        if !Rules.At(Board(), pos).isEmpty {
          return true;
        }
        Rules.RayClearStep(b, from, to, i);
        if i + 1 < n {
          RayInterior(from, to, i + 1);
        }
        pos := Add(pos, dir);
        i := i + 1;
      }
      return false;
    }

    /** `chess::isChecked`: look for a piece of the opponent that threatens the king. */
    method IsChecked() returns (r: bool)
      requires Valid()
      ensures r == Rules.IsChecked(Rules.AsWritten, Board(), player)
    {
      var king := FindKingPosition();
      r := ScanThreats(king);
    }

    /** The loop of `chess::isChecked`: every square in board order, stopping at the first
        piece that threatens `king`. */
    method ScanThreats(king: Position) returns (r: bool)
      requires Valid() && Addressable(king)
      ensures r == Rules.ThreatExists(Rules.AsWritten, Board(), player, king)
    {
      for k := 0 to 64
        invariant forall f, r :: 1 <= f <= 8 && 1 <= r <= 8 && Index(Position(f, r)) < k
                    ==> !Rules.Threatens(Rules.AsWritten, Board(), player, Position(f, r), king)
      {
        var p := AllPositions()[k];
        var threat := Threatens(p, king);
        if threat {
          assert p == Position(p.file, p.rank);
          Rules.ThreatOnSomeSquare(Rules.AsWritten, Board(), player, king);
          return true;
        }
        forall f, r | 1 <= f <= 8 && 1 <= r <= 8 && Index(Position(f, r)) == k
          ensures Position(f, r) == p
        {
          IndexInjective(p, Position(f, r));
        }
      }
      Rules.ThreatOnSomeSquare(Rules.AsWritten, Board(), player, king);
      return false;
    }

    /** The test the loop of `chess::isChecked` makes on one square. */
    method Threatens(p: Position, king: Position) returns (t: bool)
      requires Valid() && OnBoard(p) && Addressable(king)
      ensures t == Rules.Threatens(Rules.AsWritten, Board(), player, p, king)
    {
      var o := cells[Index(p)];
      if !o.isEmpty && o.owner != player {
        if Rules.CanMove(Board(), p, king, o.piece, Opponent(player)) {
          var blocked := IsBlocked(p, king, Opponent(player));
          if !blocked {
            // A pawn cannot capture with a straight move.
            if Rules.At(Board(), p).piece == Pawn && IsStraight(Sub(king, p)) {
              return false;
            }
            return true;
          }
        }
      }
      return false;
    }

    /** `chess::applyEnPassant`: empty the square behind `at` from the mover's side. */
    method ApplyEnPassant(at: Position)
      requires Valid() && OnBoard(Add(at, Vert(Backward(player))))
      modifies cells
      ensures Valid()
      ensures Board() == Rules.ApplyEnPassant(old(Board()), player, at)
    {
      var p := if player == White then -1 else 1;
      var toLapsePos := Add(at, Vert(p));
      PlaceOccupant(Empty, toLapsePos);
    }

    /** `chess::wouldCheck`: make the move, ask `isChecked`, undo the move. */
    method WouldCheck(from: Position, to: Position) returns (r: bool)
      requires Valid() && Rules.SimulationDefined(Board(), player, from, to)
      modifies cells
      ensures Valid()
      ensures Board() == old(Board())
      ensures r == Rules.WouldCheck(Rules.AsWritten, old(Board()), player, from, to)
    {
      r := false;
      var tmpTarget := Rules.At(Board(), to);
      if Rules.IsEnPassant(Board(), player, from, to) {
        Rules.EnPassantSimulationUndone(Board(), player, from, to);
        var up, down := Add(to, Vert(1)), Add(to, Vert(-1));
        var tmpUp := Rules.At(Board(), up);
        var tmpDown := Rules.At(Board(), down);
        ApplyEnPassant(to);
        MakeMove(from, to);
        var checked := IsChecked();
        if checked {
          r := true;
        }
        MakeMove(to, from);
        PlaceOccupant(tmpUp, up);
        PlaceOccupant(tmpDown, down);
      } else {
        Rules.SimulationUndone(Board(), from, to);
        MakeMove(from, to);
        var checked := IsChecked();
        if checked {
          r := true;
        }
        MakeMove(to, from);
      }
      PlaceOccupant(tmpTarget, to);
    }

    /** `chess::wouldCheckCastling`: simulate the king's one-file and two-file steps. */
    method WouldCheckCastling(from: Position, to: Position) returns (r: bool)
      requires Valid()
      requires Rules.SimulationDefined(Board(), player, from, Add(from, Horiz(Rules.CastlingSide(from, to))))
      requires Rules.SimulationDefined(Board(), player, from, Add(from, Horiz(2 * Rules.CastlingSide(from, to))))
      modifies cells
      ensures Valid()
      ensures Board() == old(Board())
      ensures r == Rules.WouldCheckCastling(Rules.AsWritten, old(Board()), player, from, to)
    {
      var m := Sub(to, from);
      var p := if m.file == 2 then 1 else -1;
      r := WouldCheck(from, Add(from, Horiz(p)));
      if !r {
        r := WouldCheck(from, Add(from, Horiz(2 * p)));
      }
    }

    /** `chess::applyPromote`: rewrite the piece kind through the reference to the cell. */
    method ApplyPromote(at: Position, promote: PieceType)
      requires Valid() && OnBoard(at)
      modifies cells
      ensures Valid()
      ensures Board() == Rules.ApplyPromote(old(Board()), at, promote)
    {
      cells[Index(at)] := cells[Index(at)].(piece := promote);
    }

    /** `chess::makeCastling`: move the rook, then the king. */
    method MakeCastling(from: Position, to: Position)
      requires Valid() && Rules.CastlingDefined(from, to)
      modifies cells
      ensures Valid()
      ensures Board() == Rules.MakeCastling(old(Board()), from, to)
    {
      var m := Sub(to, from);
      if m.file == 2 {
        MakeMove(Add(to, Horiz(1)), Add(to, Horiz(-1)));
      } else {
        MakeMove(Add(to, Horiz(-2)), Add(to, Horiz(1)));
      }
      PlaceOccupant(cells[Index(from)], to);
      PlaceOccupant(Empty, from);
    }

    /** `chess::play`: validate the move in the order of precedence of the outcomes, then
        perform it and pass the turn. */
    method Play(from: Position, to: Position, promote: PieceType) returns (res: Result)
      requires Valid() && Rules.PlayDefined(State(), from, to)
      modifies this, cells
      ensures Valid() && cells == old(cells)
      ensures (State(), res) == Rules.Play(Rules.AsWritten, old(State()), from, to, promote)
    {
      RestartLapses();
      var wasChecked := IsChecked();
      var v := Judge(from, to, promote, wasChecked);
      if v.Reject? {
        return v.result;
      }
      res := Perform(from, to, promote);
    }

    /** The tests of `chess::play`, in their order: the piece on `from`, its shape, then the
        remaining tests, then the promotion request. The board is left as it was. */
    method Judge(from: Position, to: Position, promote: PieceType, wasChecked: bool) returns (v: Rules.Verdict)
      requires Valid() && Addressable(from) && OnBoard(to)
      requires !(Rules.IsEnPassant(Board(), player, from, to) && (to.rank == 1 || to.rank == 8))
      requires wasChecked == Rules.IsChecked(Rules.AsWritten, Board(), player)
      modifies cells
      ensures Valid() && Board() == old(Board())
      ensures v == Rules.Judge(Rules.AsWritten, Board(), player, from, to, promote)
    {
      var p := Rules.At(Board(), from);
      if p.isEmpty {
        return Rules.Reject(NoPiece);
      }
      if p.owner != player {
        return Rules.Reject(BadPiece);
      }
      if !Rules.CanMove(Board(), from, to, p.piece, player) {
        return Rules.Reject(BadMove);
      }
      v := Screen(from, to, wasChecked);
      if v == Rules.Proceed && Rules.IsPromote(Board(), from, to) && !Rules.IsValidPromote(promote) {
        v := Rules.Reject(BadPromote);
      }
    }

    /** The tests of `chess::play` after the shape test: obstruction, a closed en passant
        window, then check (castling: already in check, passing through or into check, king or
        rook moved before). */
    method Screen(from: Position, to: Position, wasChecked: bool) returns (v: Rules.Verdict)
      requires Valid() && OnBoard(from) && OnBoard(to) && !Rules.At(Board(), from).isEmpty
      requires Rules.CanMove(Board(), from, to, Rules.At(Board(), from).piece, player)
      requires !(Rules.IsEnPassant(Board(), player, from, to) && (to.rank == 1 || to.rank == 8))
      requires wasChecked == Rules.IsChecked(Rules.AsWritten, Board(), player)
      modifies cells
      ensures Valid() && Board() == old(Board())
      ensures v == Rules.Screen(Rules.AsWritten, Board(), player, from, to)
    {
      var blocked := IsBlocked(from, to, player);
      if blocked {
        return Rules.Reject(Result.Blocked);
      }
      if Rules.IsLapsed(Rules.AsWritten, Board(), player, from, to) {
        return Rules.Reject(Lapsed);
      }
      v := CheckVerdict(from, to, wasChecked);
    }

    /** The check tests of `chess::play`: for castling, already in check, passing through
        or into check, king or rook moved before; for any other move, ending in check. */
    method CheckVerdict(from: Position, to: Position, wasChecked: bool) returns (v: Rules.Verdict)
      requires Valid() && OnBoard(from) && OnBoard(to) && !Rules.At(Board(), from).isEmpty
      requires Rules.CanMove(Board(), from, to, Rules.At(Board(), from).piece, player)
      requires !(Rules.IsEnPassant(Board(), player, from, to) && (to.rank == 1 || to.rank == 8))
      modifies cells
      ensures Valid() && Board() == old(Board())
      ensures v == Rules.CheckVerdict(Rules.AsWritten, Board(), player, from, to, wasChecked)
    {
      if Rules.IsCastling(Rules.AsWritten, Board(), from, to, player) {
        v := CastlingVerdict(from, to, wasChecked);
        return;
      }
      Rules.MoveSimulationDefined(Board(), player, from, to);
      var endsInCheck := WouldCheck(from, to);
      if endsInCheck {
        return Rules.Reject(if wasChecked then InCheck else Result.WouldCheck);
      }
      return Rules.Proceed;
    }

    /** The check tests of `chess::play` for a castling: already in check, passing through
        or into check, then king or rook moved before. */
    method CastlingVerdict(from: Position, to: Position, wasChecked: bool) returns (v: Rules.Verdict)
      requires Valid() && OnBoard(from) && OnBoard(to) && !Rules.At(Board(), from).isEmpty
      requires Rules.CanMove(Board(), from, to, Rules.At(Board(), from).piece, player)
      requires !(Rules.IsEnPassant(Board(), player, from, to) && (to.rank == 1 || to.rank == 8))
      requires Rules.IsCastling(Rules.AsWritten, Board(), from, to, player)
      modifies cells
      ensures Valid() && Board() == old(Board())
      ensures v == Rules.CheckVerdict(Rules.AsWritten, Board(), player, from, to, wasChecked)
    {
      if wasChecked {
        return Rules.Reject(InCheck);
      }
      Rules.CastlingLegsDefined(Rules.AsWritten, Board(), player, from, to);
      var passesCheck := WouldCheckCastling(from, to);
      if passesCheck {
        return Rules.Reject(Result.WouldCheck);
      }
      if Rules.HasMoved(Board(), from, to) {
        return Rules.Reject(Result.HasMoved);
      }
      return Rules.Proceed;
    }

    /** The steps of `chess::play` before the pieces move: promotion, the outcome (a piece
        on the destination or an en passant capture makes it `capture`), removal of a pawn
        taken en passant, and the moving piece's flags. */
    method Prepare(from: Position, to: Position, promote: PieceType) returns (res: Result)
      requires Valid() && OnBoard(from) && OnBoard(to)
      requires Rules.IsEnPassant(Board(), player, from, to) ==> to.rank != 1 && to.rank != 8
      modifies cells
      ensures Valid()
      ensures Board() == Rules.Prepare(old(Board()), player, from, to, promote)
      ensures res == Rules.Commit(Rules.AsWritten, old(Board()), player, from, to, promote).1
    {
      if Rules.IsPromote(Board(), from, to) {
        ApplyPromote(from, promote);
      }
      res := Ok;
      if !Rules.At(Board(), to).isEmpty || Rules.IsEnPassant(Board(), player, from, to) {
        res := Capture;
      }
      if Rules.IsEnPassant(Board(), player, from, to) {
        ApplyEnPassant(to);
      }
      SetFlags(from, to);
    }

    /** The second half of `chess::play`, reached once every test has passed: promote, find
        out whether the move captures, remove a pawn taken en passant, set the flags, move
        (castling moves the rook too) and pass the turn. */
    method Perform(from: Position, to: Position, promote: PieceType) returns (res: Result)
      requires Valid() && OnBoard(from) && OnBoard(to)
      requires Rules.IsEnPassant(Board(), player, from, to) ==> to.rank != 1 && to.rank != 8
      modifies this, cells
      ensures Valid() && cells == old(cells)
      ensures (State(), res) == Rules.Commit(Rules.AsWritten, old(Board()), old(player), from, to, promote)
    {
      res := Prepare(from, to, promote);
      if Rules.IsCastling(Rules.AsWritten, Board(), from, to, player) {
        Rules.CastlingIsDefined(Rules.AsWritten, Board(), from, to, player);
        MakeCastling(from, to);
      } else {
        MakeMove(from, to);
      }
      SwapPlayer();
    }
  }
}
