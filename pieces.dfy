/** The closed enumerations of the engine and the record stored in every square. */
module Pieces {

  datatype PieceType = Pawn | Rook | Knight | Bishop | Queen | King

  datatype Player = White | Black

  /** The outcomes of a move request, listed in their order of precedence: the first one
      that applies is the one reported. Only Capture and Ok mean the move was performed. */
  datatype Result =
    | Capture      // the move was legal and took a piece
    | Ok           // the move was legal and was performed
    | NoPiece      // the `from` square is empty
    | BadPiece     // the piece on `from` belongs to the other side
    | BadMove      // the piece cannot move that way
    | Blocked      // another piece is in the way
    | Lapsed       // the en passant window has closed
    | InCheck      // the mover is in check and the move does not get them out of it
    | WouldCheck   // the move would place the mover in check
    | HasMoved     // a castling piece has already moved
    | BadPromote   // promotion to a pawn or a king was requested

  predicate IsSuccess(r: Result) {
    r == Capture || r == Ok
  }

  /** What a square holds. An empty square still carries an owner, a piece kind and flags. */
  datatype Occupant = Occupant(
    isEmpty: bool,
    owner: Player,
    piece: PieceType,
    didMove: bool,      // the piece has moved at least once
    didTwoStep: bool,   // the pawn's last move was a two-square advance
    canBeLapsed: bool   // the two-square advance may still be answered en passant
  )

  /** The default occupant: an empty square, nominally a white pawn with every flag clear. */
  const Empty: Occupant := Occupant(true, White, Pawn, false, false, false)

  /** A piece that has not moved yet. */
  function NewOccupant(owner: Player, piece: PieceType): (o: Occupant)
    ensures !o.isEmpty && o.owner == owner && o.piece == piece
    ensures !o.didMove && !o.didTwoStep && !o.canBeLapsed
    ensures o != Empty
  {
    Occupant(false, owner, piece, false, false, false)
  }

  /** `chess::getOpponent` for a given side to move. */
  function Opponent(p: Player): (q: Player)
    ensures q != p
  {
    if p == White then Black else White
  }

  /** The rank direction a player's pawns advance in. */
  function Forward(p: Player): int {
    if p == White then 1 else -1
  }

  /** The rank direction pointing back toward a player's own side: from an en passant
      destination to the pawn it captures. */
  function Backward(p: Player): int {
    if p == White then -1 else 1
  }

  /** The rank a player's king and rooks start on. */
  function HomeRank(p: Player): int {
    if p == White then 1 else 8
  }
}
