/** What the read-only queries see of a position, and when it represents one. */
module Views {
  import opened Squares
  import opened Types
  import opened Board
  import opened Rules
  import opened Attacks
  import opened Derived
  import opened State

  /** The fields a `const Position *` is read through. */
  datatype View = View(
    board: Board,
    byType: seq<Bitboard>,
    byColor: seq<Bitboard>,
    side: Color,
    castlingRookSquare: map<Right, Square>,
    castlingPath: map<Right, Bitboard>,
    st: StateInfo)

  /** castling_path and castling_rook_square agree with every held right. */
  ghost predicate PathsFresh(p: Pos, rookSquare: map<Right, Square>, path: map<Right, Bitboard>) {
    && rookSquare == p.rooks
    && forall r, k: Square :: r in p.rights && IsKing(p.board, r.color, k) ==>
         r in p.rooks && r in path && path[r] == set x: Square | CastlingPath(r, k, p.rooks[r], x)
  }

  ghost predicate Represents(z: Zobrist, p: Pos, v: View)
    requires HasKing(p.board, White) && HasKing(p.board, Black)
  {
    && v.board == p.board && v.side == p.side
    && TypesSynced(p.board, v.byType) && ColorsSynced(p.board, v.byColor)
    && PathsFresh(p, v.castlingRookSquare, v.castlingPath)
    && Fresh(z, p, v.st)
  }

  function Pieces(v: View): Bitboard
    requires |v.byType| == 7
  {
    v.byType[0]
  }

  function PiecesC(v: View, c: Color): Bitboard
    requires |v.byColor| == 2
  {
    v.byColor[ColorIndex(c)]
  }

  function PiecesP(v: View, kind: PieceType): Bitboard
    requires |v.byType| == 7
  {
    v.byType[TypeIndex(kind)]
  }

  function PiecesCP(v: View, c: Color, kind: PieceType): Bitboard
    requires |v.byType| == 7 && |v.byColor| == 2
  {
    PiecesC(v, c) * PiecesP(v, kind)
  }

  function KingSquare(v: View, c: Color): Square
    requires |v.byType| == 7 && |v.byColor| == 2 && PiecesCP(v, c, King) != {}
  {
    Lsb(PiecesCP(v, c, King))
  }

  lemma PiecesCPExact(b: Board, v: View, c: Color, kind: PieceType)
    requires TypesSynced(b, v.byType) && ColorsSynced(b, v.byColor)
    ensures PiecesCP(v, c, kind) == PiecesOf(b, Piece(c, kind))
  {
  }

  lemma KingSquareExact(b: Board, v: View, c: Color)
    requires TypesSynced(b, v.byType) && ColorsSynced(b, v.byColor) && HasKing(b, c)
    ensures PiecesCP(v, c, King) != {} && KingSquare(v, c) == KingOf(b, c)
  {
    var k := KingOf(b, c);
    PiecesCPExact(b, v, c, King);
    assert k in PiecesOf(b, Piece(c, King));
    hide TypesSynced, ColorsSynced, PiecesCP;
  }

  lemma RepresentedPieces(z: Zobrist, p: Pos, v: View)
    requires HasKing(p.board, White) && HasKing(p.board, Black) && Represents(z, p, v)
    ensures |v.byType| == 7 && |v.byColor| == 2 && Pieces(v) == Occupied(p.board)
    ensures TypesSynced(p.board, v.byType) && ColorsSynced(p.board, v.byColor)
    ensures PiecesC(v, White) == OfColor(p.board, White) && PiecesC(v, Black) == OfColor(p.board, Black)
    ensures PiecesCP(v, White, King) != {} && KingSquare(v, White) == KingOf(p.board, White)
    ensures PiecesCP(v, Black, King) != {} && KingSquare(v, Black) == KingOf(p.board, Black)
  {
    KingSquareExact(p.board, v, White);
    KingSquareExact(p.board, v, Black);
    hide PiecesOf, KingSquare, PiecesCP, Occupied, OfColor, OfType, HasKing, Fresh, PathsFresh;
  }
}
