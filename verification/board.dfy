/** The simple object every fast view of the position is checked against: a map from square
    to piece, what its pieces attack, and who is in check. */
module Board {
  import opened Squares
  import opened Types

  type Board = b: seq<Piece> | |b| == 64 witness seq(64, _ => NoPiece)

  function NoBoard(): Board {
    seq(64, _ => NoPiece)
  }

  function Occupied(b: Board): Bitboard {
    set s: Square | b[s] != NoPiece
  }

  /** A piece on a reaches t when occ is the set of occupied squares. */
  predicate Hits(pc: Piece, a: Square, t: Square, occ: Bitboard)
    requires pc.Piece?
  {
    match pc.kind
    case Pawn => PawnStep(pc.color, a, t)
    case Knight => KnightStep(a, t)
    case King => KingStep(a, t)
    case Bishop => BishopLine(a, t) && Clear(a, t, occ)
    case Rook => RookLine(a, t) && Clear(a, t, occ)
    case Queen => (BishopLine(a, t) || RookLine(a, t)) && Clear(a, t, occ)
  }

  predicate IsColor(b: Board, c: Color, s: Square) {
    b[s].Piece? && b[s].color == c
  }

  predicate Attacker(b: Board, them: Color, a: Square, t: Square, occ: Bitboard) {
    IsColor(b, them, a) && Hits(b[a], a, t, occ)
  }

  /** Some piece of colour `them` attacks t. */
  predicate Attacked(b: Board, them: Color, t: Square) {
    exists a: Square :: Attacker(b, them, a, t, Occupied(b))
  }

  predicate IsKing(b: Board, c: Color, k: Square) {
    && b[k] == Piece(c, King)
    && forall s: Square :: b[s] == Piece(c, King) ==> s == k
  }

  predicate HasKing(b: Board, c: Color) {
    exists k: Square :: IsKing(b, c, k)
  }

  ghost function KingOf(b: Board, c: Color): (k: Square)
    requires HasKing(b, c)
    ensures IsKing(b, c, k)
  {
    var k: Square :| IsKing(b, c, k);
    k
  }

  ghost predicate InCheck(b: Board, c: Color)
    requires HasKing(b, c)
  {
    Attacked(b, Flip(c), KingOf(b, c))
  }

  /** The square of the pawn an en-passant capture removes. */
  function VictimSquare(m: Move): Square {
    MakeSquare(File(m.to), Rank(m.from))
  }

  function CastlingRight(c: Color, m: Move): Right {
    Right(c, if m.to > m.from then KingSide else QueenSide)
  }

  /** The board once `us` has played m (FIDE Articles 3.1 to 3.8). */
  function After(b: Board, us: Color, m: Move): Board {
    match m.kind
    case Normal => b[m.from := NoPiece][m.to := b[m.from]]
    case Promotion => b[m.from := NoPiece][m.to := Piece(us, m.promo)]
    case EnPassant => b[m.from := NoPiece][VictimSquare(m) := NoPiece][m.to := b[m.from]]
    case Castling =>
      var r := CastlingRight(us, m);
      b[m.from := NoPiece][m.to := NoPiece][KingTarget(r) := Piece(us, King)][RookTarget(r) := Piece(us, Rook)]
  }
}
