/** Board geometry: squares of the 8x8 board and the displacements between them.
    A displacement behaves like a vector, a position like a point of an affine space. */
module Geometry {

  /** Difference of two positions, in files and ranks. */
  datatype Move = Move(file: int, rank: int)

  /** A square, files and ranks numbered 1..8; (0, 0) is the "off the board" sentinel. */
  datatype Position = Position(file: int, rank: int)

  /** The default position, which every out-of-range sum collapses to. */
  const Sentinel: Position := Position(0, 0)

  predicate OnBoard(p: Position) {
    1 <= p.file <= 8 && 1 <= p.rank <= 8
  }

  /** The positions the board accessor is defined on: a square, or the sentinel. */
  predicate Addressable(p: Position) {
    OnBoard(p) || p == Sentinel
  }

  function AbsInt(x: int): nat {
    if x < 0 then -x else x
  }

  function Sign(x: int): int {
    if x > 0 then 1 else if x < 0 then -1 else 0
  }

  predicate IsDiagonal(m: Move) {
    AbsInt(m.file) == AbsInt(m.rank)
  }

  predicate IsStraight(m: Move) {
    m.file == 0 || m.rank == 0
  }

  function Vert(offset: int): Move {
    Move(0, offset)
  }

  function Horiz(offset: int): Move {
    Move(offset, 0)
  }

  /** Componentwise absolute value. */
  function Abs(m: Move): (r: Move)
    ensures r.file >= 0 && r.rank >= 0
    ensures r.file == m.file || r.file == -m.file
    ensures r.rank == m.rank || r.rank == -m.rank
  {
    Move(AbsInt(m.file), AbsInt(m.rank))
  }

  /** The unit direction of a displacement: the sign of each component. */
  function UnitDirection(m: Move): Move {
    Move(Sign(m.file), Sign(m.rank))
  }

  /** `move::directionize`: each non-zero component is divided by its own magnitude.
      The source rewrites the two fields of its receiver; here the rewritten value is returned. */
  method Directionize(m: Move) returns (d: Move)
    ensures d == UnitDirection(m)
    ensures m != Move(0, 0) ==> d != Move(0, 0)
    ensures IsDiagonal(m) ==> IsDiagonal(d)
    ensures IsStraight(m) <==> IsStraight(d)
  {
    d := m;
    if d.file != 0 {
      UnitQuotient(d.file);
      d := d.(file := d.file / AbsInt(d.file));
    }
    if d.rank != 0 {
      UnitQuotient(d.rank);
      d := d.(rank := d.rank / AbsInt(d.rank));
    }
  }

  /** Dividing a non-zero integer by its magnitude gives its sign (the division is exact,
      so truncating and Euclidean division agree). */
  lemma UnitQuotient(x: int)
    requires x != 0
    ensures x / AbsInt(x) == Sign(x)
  {
    var a: int := AbsInt(x);
    if x > 0 {
      assert x == 1 * a + 0;
    } else {
      assert x == -1 * a + 0;
    }
  }

  /** `position::operator-`: the displacement leading from `q` to `p`. */
  function Sub(p: Position, q: Position): Move {
    Move(p.file - q.file, p.rank - q.rank)
  }

  /** `position::operator+`: the square reached from `p` by `m`, or the sentinel when the
      componentwise sum leaves the board. */
  function Add(p: Position, m: Move): (r: Position)
    ensures Addressable(r)
    ensures OnBoard(r) <==> OnBoard(Position(p.file + m.file, p.rank + m.rank))
    ensures OnBoard(r) ==> Sub(r, p) == m
    ensures !OnBoard(r) ==> r == Sentinel
  {
    var sum := Position(p.file + m.file, p.rank + m.rank);
    if sum.rank < 1 || sum.rank > 8 || sum.file < 1 || sum.file > 8 then Position(0, 0) else sum
  }

  /** Stepping back and forth between two squares is lossless. */
  lemma AddSub(p: Position, q: Position)
    requires OnBoard(p) && OnBoard(q)
    ensures Add(q, Sub(p, q)) == p
  {
  }

  /** Cell number of a square: rank-major, file-minor. */
  function Index(p: Position): (k: nat)
    requires OnBoard(p)
    ensures k < 64
  {
    (p.rank - 1) * 8 + (p.file - 1)
  }

  /** The square with a given cell number; the inverse of Index. */
  function PosAt(k: nat): (p: Position)
    requires k < 64
    ensures OnBoard(p) && Index(p) == k
  {
    Position(k % 8 + 1, k / 8 + 1)
  }

  lemma IndexInverse(p: Position)
    requires OnBoard(p)
    ensures PosAt(Index(p)) == p
  {
  }

  /** Two squares share a cell only when they are equal. */
  lemma IndexInjective(p: Position, q: Position)
    requires OnBoard(p) && OnBoard(q) && Index(p) == Index(q)
    ensures p == q
  {
    IndexInverse(p);
    IndexInverse(q);
  }

  /** `position::allPositions`: the 64 squares, rank by rank, file by file within a rank. */
  function AllPositions(): (ps: seq<Position>)
    ensures |ps| == 64
    ensures forall k :: 0 <= k < 64 ==> ps[k] == PosAt(k) && OnBoard(ps[k]) && Index(ps[k]) == k
  {
    seq(64, k requires 0 <= k < 64 => PosAt(k))
  }

  /** AllPositions lists the squares rank by rank, and by file within a rank. */
  lemma AllPositionsOrdered(i: int, j: int)
    requires 0 <= i < j < 64
    ensures var ps := AllPositions();
            ps[i].rank < ps[j].rank || (ps[i].rank == ps[j].rank && ps[i].file < ps[j].file)
  {
  }

  /** Every square of the board occurs in AllPositions, exactly once. */
  lemma AllPositionsComplete(p: Position)
    requires OnBoard(p)
    ensures p in AllPositions()
    ensures forall k :: 0 <= k < 64 && AllPositions()[k] == p ==> k == Index(p)
  {
    IndexInverse(p);
    assert AllPositions()[Index(p)] == p;
  }

  /** Chebyshev length of a displacement: the number of king steps it takes. */
  function Chebyshev(m: Move): nat {
    if AbsInt(m.file) >= AbsInt(m.rank) then AbsInt(m.file) else AbsInt(m.rank)
  }

  /** `i` unit steps of sign `s`. */
  function Scale(i: int, s: int): int {
    if s > 0 then i else if s < 0 then -i else 0
  }

  /** The point `i` steps of `d` away from `from`, with no collapse to the sentinel. */
  function Step(from: Position, d: Move, i: int): Position {
    Position(from.file + Scale(i, d.file), from.rank + Scale(i, d.rank))
  }

  /** A straight or diagonal displacement is its Chebyshev length times its unit direction. */
  lemma RayReachesTarget(from: Position, to: Position)
    requires IsStraight(Sub(to, from)) || IsDiagonal(Sub(to, from))
    ensures Step(from, UnitDirection(Sub(to, from)), Chebyshev(Sub(to, from))) == to
  {
  }

  /** Every point strictly before the end of a straight or diagonal ray from a square to an
      addressable position is a square different from that end, and one more unit step
      (with the board's collapsing addition) reaches the next point of the ray. */
  lemma RayInterior(from: Position, to: Position, i: int)
    requires OnBoard(from) && Addressable(to)
    requires IsStraight(Sub(to, from)) || IsDiagonal(Sub(to, from))
    requires 0 <= i < Chebyshev(Sub(to, from))
    ensures OnBoard(Step(from, UnitDirection(Sub(to, from)), i))
    ensures Step(from, UnitDirection(Sub(to, from)), i) != to
    ensures Add(Step(from, UnitDirection(Sub(to, from)), i), UnitDirection(Sub(to, from)))
            == Step(from, UnitDirection(Sub(to, from)), i + 1)
  {
    RayReachesTarget(from, to);
  }

  /** All interior points of such a ray are squares. */
  lemma RayInsideBoard(from: Position, to: Position)
    requires OnBoard(from) && Addressable(to)
    requires IsStraight(Sub(to, from)) || IsDiagonal(Sub(to, from))
    ensures forall i :: 0 <= i < Chebyshev(Sub(to, from)) ==>
              OnBoard(Step(from, UnitDirection(Sub(to, from)), i))
  {
    forall i | 0 <= i < Chebyshev(Sub(to, from))
      ensures OnBoard(Step(from, UnitDirection(Sub(to, from)), i))
    {
      RayInterior(from, to, i);
    }
  }
}
