/** What single exchanges come to, in the piece values the source lists. */
module Exchanges {
  import opened Squares
  import opened Types
  import opened Board
  import opened Attacks
  import opened Derived
  import opened Exchange

  // ----- least valuable means what it says -----

  /** x is worth less than y; the king, which has no price, comes last. */
  predicate Cheaper(x: PieceType, y: PieceType) {
    x != King && (y == King || PieceValue(x) < PieceValue(y))
  }

  /** The order the swap loop tries the kinds in is the order of their values. */
  lemma KindsByValue(x: PieceType, y: PieceType)
    ensures TypeIndex(x) < TypeIndex(y) <==> Cheaper(x, y)
    ensures x == y || Cheaper(x, y) || Cheaper(y, x)
  {
  }

  /** The piece the exchange goes on with is no dearer than any other that could take. */
  lemma LeastByValue(b: Board, s: Bitboard, a: Square)
    ensures IsLeast(b, s, a) <==>
              && a in s && b[a].Piece?
              && forall x :: x in s && b[x].Piece? ==>
                   Cheaper(b[a].kind, b[x].kind) || (b[a].kind == b[x].kind && a <= x)
  {
    forall x, y: PieceType
      ensures TypeIndex(x) < TypeIndex(y) <==> Cheaper(x, y)
    {
      KindsByValue(x, y);
    }
    hide Cheaper, TypeIndex;
  }

  // ----- exchanges -----

  /** The occupancy the exchange starts from: neither square of the move counts. */
  function Vacated(b: Board, m: Move): Bitboard {
    Xor(Xor(Occupied(b), {m.from}), {m.to})
  }

  /** The pieces of c that reach the square. */
  function Reach(b: Board, t: Square, occ: Bitboard, c: Color): Bitboard {
    Attackers(b, t, occ) * OfColor(b, c)
  }

  /** Taking what nothing defends gains its value. */
  lemma Undefended(b: Board, us: Color, m: Move)
    requires HasKing(b, White) && HasKing(b, Black) && Reach(b, m.to, Vacated(b, m), Flip(us)) == {}
    ensures ExchangeValue(b, us, m) ==
            match b[m.to]
            case Piece(_, Pawn) => 208
            case Piece(_, Knight) => 781
            case Piece(_, Bishop) => 825
            case Piece(_, Rook) => 1276
            case Piece(_, Queen) => 2538
            case _ => 0
  {
    var occ := Vacated(b, m);
    HasFlip(b, us);
    TakersShape(b, m.to, occ, Flip(us));
    hide Takers, Attackers, OfColor, HasKing, Gain;
    GainNone(b, m.to, occ, Flip(us), ValueOf(b[m.from]));
  }

  lemma HasFlip(b: Board, us: Color)
    requires HasKing(b, White) && HasKing(b, Black)
    ensures HasKing(b, us) && HasKing(b, Flip(us))
  {
    hide HasKing;
  }

  /** A rook that takes a pawn a pawn defends loses 1068, or not quite that much when it is avenged. */
  lemma RookTakesPawn(b: Board, us: Color, m: Move, d: Square)
    requires HasKing(b, White) && HasKing(b, Black) && HasKing(b, Flip(us))
    requires b[m.from] == Piece(us, Rook) && b[m.to] == Piece(Flip(us), Pawn)
    requires d in Takers(b, m.to, Vacated(b, m), Flip(us)) && b[d] == Piece(Flip(us), Pawn)
    ensures -1068 <= ExchangeValue(b, us, m) <= -860
    ensures (forall a: Square :: Reach(b, m.to, Vacated(b, m) - {a}, us) == {}) ==> ExchangeValue(b, us, m) == -1068
  {
    hide *;
    var occ := Vacated(b, m);
    var them := Flip(us);
    PricesAre();
    HasFlip(b, us);
    ExchangeIs(b, us, m);
    TakersShape(b, m.to, occ, them);
    var a := Least(b, m.to, occ, them);
    LeastIs(b, Takers(b, m.to, occ, them), a, d);
    GainTake(b, m.to, occ, them, 1276, a);
    FlipTwice(us);
    GainBounds(b, m.to, occ - {a}, us, 208);
    MaxOf(1276 - Gain(b, m.to, occ - {a}, us, 208));
    if Reach(b, m.to, occ - {a}, us) == {} {
      TakersNone(b, m.to, occ - {a}, us);
      GainNone(b, m.to, occ - {a}, us, 208);
    }
  }

  /** A knight that takes a rook gains at least 495, whoever takes it back. */
  lemma KnightTakesRook(b: Board, us: Color, m: Move)
    requires HasKing(b, White) && HasKing(b, Black)
    requires b[m.from] == Piece(us, Knight) && b[m.to] == Piece(Flip(us), Rook)
    ensures 495 <= ExchangeValue(b, us, m) <= 1276
  {
    hide *;
    PricesAre();
    ExchangeIs(b, us, m);
    GainBounds(b, m.to, Vacated(b, m), Flip(us), 781);
  }

  /** A king alone on guard takes back only what nothing else protects. */
  lemma KingGuards(b: Board, us: Color, m: Move, k: Square)
    requires HasKing(b, White) && HasKing(b, Black) && HasKing(b, Flip(us))
    requires Takers(b, m.to, Vacated(b, m), Flip(us)) == {k} && b[k] == Piece(Flip(us), King) && b[m.from].Piece?
    ensures ExchangeValue(b, us, m) == ValueOf(b[m.to]) -
              if Attackers(b, m.to, Vacated(b, m)) - OfColor(b, Flip(us)) == {} then PieceValue(b[m.from].kind) else 0
  {
    hide *;
    ExchangeIs(b, us, m);
    HasFlip(b, us);
    var a := Least(b, m.to, Vacated(b, m), Flip(us));
    LeastIn(b, Takers(b, m.to, Vacated(b, m), Flip(us)), a);
    GainTake(b, m.to, Vacated(b, m), Flip(us), ValueOf(b[m.from]), a);
    PieceValues(b[m.from].kind);
    ValueIs(b[m.from]);
    MaxOf(ValueOf(b[m.from]));
  }

  lemma PricesAre()
    ensures PieceValue(Pawn) == 208 && PieceValue(Knight) == 781 && PieceValue(Rook) == 1276
    ensures forall c: Color :: ValueOf(Piece(c, Pawn)) == 208 && ValueOf(Piece(c, Rook)) == 1276
                               && ValueOf(Piece(c, Knight)) == 781
  {
  }

  lemma ValueIs(pc: Piece)
    requires pc.Piece?
    ensures ValueOf(pc) == PieceValue(pc.kind)
  {
  }

  lemma ExchangeIs(b: Board, us: Color, m: Move)
    requires HasKing(b, White) && HasKing(b, Black)
    ensures ExchangeValue(b, us, m) ==
            ValueOf(b[m.to]) - Gain(b, m.to, Vacated(b, m), Flip(us), ValueOf(b[m.from]))
  {
    hide Gain, HasKing, ValueOf;
  }

  lemma LeastIs(b: Board, s: Bitboard, a: Square, d: Square)
    requires IsLeast(b, s, a) && d in s && b[d].Piece? && b[d].kind == Pawn
    ensures b[a].Piece? && b[a].kind == Pawn
  {
  }

  lemma TakersNone(b: Board, t: Square, occ: Bitboard, c: Color)
    requires HasKing(b, c) && Reach(b, t, occ, c) == {}
    ensures Takers(b, t, occ, c) == {}
  {
    TakersShape(b, t, occ, c);
    hide Takers, Attackers, OfColor;
  }

  lemma MaxOf(x: int)
    ensures x >= 0 ==> Max(0, x) == x
  {
  }
}
