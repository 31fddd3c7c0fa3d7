/** The value vocabulary: colours, pieces, moves, castling rights. */
module Types {
  import opened Squares

  datatype Option<+T> = None | Some(value: T)

  datatype Color = White | Black

  function Flip(c: Color): Color {
    if c == White then Black else White
  }

  lemma FlipTwice(c: Color)
    ensures Flip(Flip(c)) == c && Flip(c) != c
  {
  }

  datatype PieceType = Pawn | Knight | Bishop | Rook | Queen | King

  datatype Piece = NoPiece | Piece(color: Color, kind: PieceType)

  datatype Wing = KingSide | QueenSide

  datatype Right = Right(color: Color, wing: Wing)

  datatype MoveKind = Normal | Promotion | EnPassant | Castling

  /** The four kinds the two promotion bits can name; zero bits read as Knight. */
  type Promo = t: PieceType | t.Knight? || t.Bishop? || t.Rook? || t.Queen? witness Knight

  /** The 16-bit move word, field by field. Castling is king-captures-rook. */
  datatype Move = Move(kind: MoveKind, from: Square, to: Square, promo: Promo)

  function NormalMove(from: Square, to: Square): Move {
    Move(Normal, from, to, Knight)
  }

  /** The direction a pawn of colour c pushes in, as an index offset. */
  function Up(c: Color): int {
    if c == White then 8 else -8
  }

  function RelativeRank(c: Color, s: Square): int {
    if c == White then Rank(s) else 7 - Rank(s)
  }

  function BackRank(c: Color): int {
    if c == White then 0 else 7
  }

  /** A pawn of colour c on a attacks t. */
  predicate PawnStep(c: Color, a: Square, t: Square) {
    Abs(File(a) - File(t)) == 1 && RelativeRank(c, t) == RelativeRank(c, a) + 1
  }

  function KingTarget(r: Right): Square {
    MakeSquare(if r.wing == KingSide then 6 else 2, BackRank(r.color))
  }

  function RookTarget(r: Right): Square {
    MakeSquare(if r.wing == KingSide then 5 else 3, BackRank(r.color))
  }
}
