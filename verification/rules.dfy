/** The rules of the game over the simple board: which moves are legal, and what they lead to. */
module Rules {
  import opened Squares
  import opened Types
  import opened Board

  /** The source's Position reduced to what a move cannot derive. `rooks` names the rook each
      castling right was granted for; it is fixed when the position is set up. */
  datatype Pos = Pos(
    board: Board,
    side: Color,
    rights: set<Right>,
    rooks: map<Right, Square>,
    ep: Option<Square>,
    rule50: nat,
    sinceNull: nat,
    gamePly: nat)

  // ----- which positions the code works on -----

  predicate PawnsInside(b: Board) {
    forall s: Square :: b[s].Piece? && b[s].kind == Pawn ==> 1 <= Rank(s) <= 6
  }

  /** A held right has its king and its rook at home, the rook on the right's side. */
  predicate RightHome(b: Board, rooks: map<Right, Square>, r: Right, k: Square) {
    && IsKing(b, r.color, k) && Rank(k) == BackRank(r.color)
    && r in rooks && b[rooks[r]] == Piece(r.color, Rook) && Rank(rooks[r]) == BackRank(r.color)
    && (r.wing == KingSide <==> rooks[r] > k)
  }

  predicate RightsHome(b: Board, rights: set<Right>, rooks: map<Right, Square>) {
    forall r :: r in rights ==> exists k: Square :: RightHome(b, rooks, r, k)
  }

  function EpMove(from: Square, to: Square): Move {
    Move(EnPassant, from, to, Knight)
  }

  /** A pawn of `us` on c can take en passant on e without leaving its king attacked. */
  ghost predicate EpCapture(b: Board, us: Color, c: Square, e: Square) {
    && b[c] == Piece(us, Pawn) && PawnStep(us, c, e)
    && var b' := After(b, us, EpMove(c, e));
       HasKing(b', us) && !InCheck(b', us)
  }

  ghost predicate EpAvailable(b: Board, us: Color, e: Square) {
    exists c: Square :: EpCapture(b, us, c, e)
  }

  ghost predicate EpSound(b: Board, us: Color, e: Square) {
    && RelativeRank(us, e) == 5
    && b[e] == NoPiece && b[e + Up(us)] == NoPiece && b[e - Up(us)] == Piece(Flip(us), Pawn)
    && EpAvailable(b, us, e)
  }

  ghost predicate WellFormed(p: Pos) {
    && HasKing(p.board, White) && HasKing(p.board, Black)
    && PawnsInside(p.board)
    && !InCheck(p.board, Flip(p.side))
    && RightsHome(p.board, p.rights, p.rooks)
    && (p.ep.Some? ==> EpSound(p.board, p.side, p.ep.value))
  }

  // ----- legality -----

  predicate PawnPush(b: Board, us: Color, from: Square, to: Square) {
    to == from + Up(us) && b[to] == NoPiece
  }

  predicate PawnDouble(b: Board, us: Color, from: Square, to: Square) {
    && RelativeRank(us, from) == 1 && to == from + 2 * Up(us)
    && b[to] == NoPiece && b[from + Up(us)] == NoPiece
  }

  predicate PawnCapture(b: Board, us: Color, from: Square, to: Square) {
    PawnStep(us, from, to) && IsColor(b, Flip(us), to)
  }

  /** How a piece moves, promotions, en passant and castling apart. */
  predicate Moves(b: Board, us: Color, from: Square, to: Square) {
    && IsColor(b, us, from) && !IsColor(b, us, to)
    && if b[from].kind == Pawn then
         PawnPush(b, us, from, to) || PawnDouble(b, us, from, to) || PawnCapture(b, us, from, to)
       else
         Hits(b[from], from, to, Occupied(b))
  }

  /** x is b, or strictly between a and b: the source's BetweenBB[a][b]. */
  predicate Span(a: Square, b: Square, x: Square) {
    x == b || Inside(a, x, b)
  }

  predicate CastlingPath(r: Right, k: Square, rook: Square, x: Square) {
    (Span(k, KingTarget(r), x) || Span(rook, RookTarget(r), x) || x == KingTarget(r)) && x != k && x != rook
  }

  /** FIDE Article 3.8.2, with the Chess960 reading of the squares to be crossed. */
  predicate CanCastle(p: Pos, k: Square, rook: Square, r: Right) {
    && r in p.rights && r in p.rooks && p.rooks[r] == rook && IsKing(p.board, r.color, k)
    && (forall x: Square :: CastlingPath(r, k, rook, x) ==> p.board[x] == NoPiece)
    && !Attacked(p.board, Flip(r.color), k)
    && (forall x: Square :: Span(k, KingTarget(r), x) ==> !Attacked(p.board, Flip(r.color), x))
  }

  /** m obeys the piece rules; the mover's king may still be left attacked. */
  predicate PseudoLegal(p: Pos, m: Move) {
    match m.kind
    case Normal =>
      && m.promo == Knight && Moves(p.board, p.side, m.from, m.to)
      && (p.board[m.from].kind == Pawn ==> 1 <= Rank(m.to) <= 6)
    case Promotion =>
      && Moves(p.board, p.side, m.from, m.to)
      && p.board[m.from].kind == Pawn && RelativeRank(p.side, m.to) == 7
    case EnPassant =>
      && m.promo == Knight && p.board[m.from] == Piece(p.side, Pawn)
      && p.ep == Some(m.to) && PawnStep(p.side, m.from, m.to)
    case Castling =>
      && m.promo == Knight && CanCastle(p, m.from, m.to, CastlingRight(p.side, m))
  }

  ghost predicate Legal(p: Pos, m: Move) {
    && PseudoLegal(p, m)
    && var b' := After(p.board, p.side, m);
       HasKing(b', p.side) && !InCheck(b', p.side)
  }

  // ----- transitions -----

  predicate IsCapture(b: Board, m: Move) {
    m.kind == EnPassant || (m.kind != Castling && b[m.to] != NoPiece)
  }

  predicate Irreversible(b: Board, m: Move) {
    IsCapture(b, m) || (b[m.from].Piece? && b[m.from].kind == Pawn)
  }

  /** m leaves or lands on the home square of the king or the rook of r. */
  ghost predicate Touches(p: Pos, r: Right, m: Move) {
    || IsKing(p.board, r.color, m.from) || IsKing(p.board, r.color, m.to)
    || (r in p.rooks && (p.rooks[r] == m.from || p.rooks[r] == m.to))
  }

  /** The square a double push passes over becomes an en-passant square only if some
      capture on it is legal. */
  ghost function NextEp(p: Pos, m: Move): Option<Square> {
    var b' := After(p.board, p.side, m);
    if && m.kind == Normal && p.board[m.from] == Piece(p.side, Pawn)
       && m.to == m.from + 2 * Up(p.side)
       && 0 <= m.from + Up(p.side) < 64
       && EpAvailable(b', Flip(p.side), m.from + Up(p.side))
    then Some(m.from + Up(p.side)) else None
  }

  ghost function Next(p: Pos, m: Move): Pos {
    Pos(
      After(p.board, p.side, m),
      Flip(p.side),
      (set r | r in p.rights && !Touches(p, r, m)),
      p.rooks,
      NextEp(p, m),
      if Irreversible(p.board, m) then 0 else p.rule50 + 1,
      p.sinceNull + 1,
      p.gamePly + 1)
  }

  function NextNull(p: Pos): Pos {
    p.(side := Flip(p.side), ep := None, sinceNull := 0)
  }
}
