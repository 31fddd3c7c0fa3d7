/** The five hash keys moved together: what one square changes, and what a whole move changes. */
module Keys {
  import opened Squares
  import opened Types
  import opened Board
  import opened Rules
  import opened Attacks
  import opened Derived
  import opened State
  import opened Play

  /** The position key and the four auxiliary keys, as one vector under exclusive or. */
  datatype KeyVector = KeyVector(whole: Key, pawn: Key, minor: Key, white: Key, black: Key)

  function Sum(a: KeyVector, b: KeyVector): KeyVector {
    KeyVector(Xor(a.whole, b.whole), Xor(a.pawn, b.pawn), Xor(a.minor, b.minor), Xor(a.white, b.white),
              Xor(a.black, b.black))
  }

  const ZERO := KeyVector({}, {}, {}, {}, {})

  lemma SumSwap(a: KeyVector, x: KeyVector, t: KeyVector)
    ensures Sum(Sum(a, x), t) == Sum(Sum(a, t), x)
  {
    XorSwap(a.whole, x.whole, t.whole);
    XorSwap(a.pawn, x.pawn, t.pawn);
    XorSwap(a.minor, x.minor, t.minor);
    XorSwap(a.white, x.white, t.white);
    XorSwap(a.black, x.black, t.black);
    hide Xor;
  }

  lemma SumTwice(a: KeyVector, x: KeyVector)
    ensures Sum(Sum(a, x), x) == a
  {
    XorTwice(a.whole, x.whole);
    XorTwice(a.pawn, x.pawn);
    XorTwice(a.minor, x.minor);
    XorTwice(a.white, x.white);
    XorTwice(a.black, x.black);
    hide Xor;
  }

  lemma SumZero(a: KeyVector)
    ensures Sum(a, ZERO) == a
  {
    assert Xor(a.whole, {}) == a.whole && Xor(a.pawn, {}) == a.pawn && Xor(a.minor, {}) == a.minor
           && Xor(a.white, {}) == a.white && Xor(a.black, {}) == a.black;
  }

  /** What pc on s contributes. */
  function Of(z: Zobrist, pc: Piece, s: int): KeyVector {
    KeyVector(Term(z, WholeKey, pc, s), Term(z, PawnKey, pc, s), Term(z, MinorKey, pc, s),
              Term(z, NonPawnKey(White), pc, s), Term(z, NonPawnKey(Black), pc, s))
  }

  function BoardKeys(z: Zobrist, b: Board): KeyVector {
    KeyVector(Fold(z, WholeKey, b, 64), Fold(z, PawnKey, b, 64), Fold(z, MinorKey, b, 64),
              Fold(z, NonPawnKey(White), b, 64), Fold(z, NonPawnKey(Black), b, 64))
  }

  lemma BoardKeysUpdate(z: Zobrist, b: Board, s: Square, pc: Piece)
    ensures BoardKeys(z, b[s := pc]) == Sum(Sum(BoardKeys(z, b), Of(z, b[s], s)), Of(z, pc, s))
  {
    BoardFold(z, WholeKey, b, s, pc);
    BoardFold(z, PawnKey, b, s, pc);
    BoardFold(z, MinorKey, b, s, pc);
    BoardFold(z, NonPawnKey(White), b, s, pc);
    BoardFold(z, NonPawnKey(Black), b, s, pc);
    hide Fold, Term, Xor;
  }

  lemma OfNothing(z: Zobrist, s: int)
    ensures Of(z, NoPiece, s) == ZERO
  {
  }

  lemma BoardKeysLift(z: Zobrist, b: Board, s: Square)
    ensures BoardKeys(z, b[s := NoPiece]) == Sum(BoardKeys(z, b), Of(z, b[s], s))
  {
    BoardKeysUpdate(z, b, s, NoPiece);
    OfNothing(z, s);
    SumZero(Sum(BoardKeys(z, b), Of(z, b[s], s)));
    hide BoardKeys, Of, Sum;
  }

  lemma BoardKeysPut(z: Zobrist, b: Board, s: Square, pc: Piece)
    requires b[s] == NoPiece
    ensures BoardKeys(z, b[s := pc]) == Sum(BoardKeys(z, b), Of(z, pc, s))
  {
    BoardKeysUpdate(z, b, s, pc);
    OfNothing(z, s);
    SumZero(BoardKeys(z, b));
    hide BoardKeys, Of, Sum;
  }

  /** The keys a state record and the key in hand hold. */
  function Held(st: StateInfo, key: Key): KeyVector
    requires |st.nonPawnKey| == 2
  {
    KeyVector(key, st.pawnKey, st.minorPieceKey, st.nonPawnKey[0], st.nonPawnKey[1])
  }

  /** toggle_aux_keys. */
  function ToggleAuxKeys(z: Zobrist, st: StateInfo, pc: Piece, s: Square): StateInfo
    requires pc.Piece? && |st.nonPawnKey| == 2
  {
    var term := z.psq(pc, s);
    if pc.kind == Pawn then st.(pawnKey := Xor(st.pawnKey, term))
    else
      var i := ColorIndex(pc.color);
      var st1 := st.(nonPawnKey := st.nonPawnKey[i := Xor(st.nonPawnKey[i], term)]);
      if pc.kind != King && (pc.kind == Knight || pc.kind == Bishop)
        then st1.(minorPieceKey := Xor(st1.minorPieceKey, term))
      else st1
  }

  /** Toggling a piece in the record and in the key adds its vector. */
  lemma ToggleIsSum(z: Zobrist, st: StateInfo, key: Key, pc: Piece, s: Square)
    requires pc.Piece? && |st.nonPawnKey| == 2
    ensures var st1 := ToggleAuxKeys(z, st, pc, s);
            && |st1.nonPawnKey| == 2
            && Held(st1, Xor(key, z.psq(pc, s))) == Sum(Held(st, key), Of(z, pc, s))
            && st1 == st.(pawnKey := st1.pawnKey, minorPieceKey := st1.minorPieceKey, nonPawnKey := st1.nonPawnKey)
  {
    XorNothing(st.pawnKey);
    XorNothing(st.minorPieceKey);
    XorNothing(st.nonPawnKey[0]);
    XorNothing(st.nonPawnKey[1]);
    hide Xor;
  }

  lemma XorNothing(a: Key)
    ensures Xor(a, {}) == a
  {
  }

  // ----- a whole move -----

  /** The piece a move puts on its destination, castling apart. */
  function Arrives(b: Board, us: Color, m: Move): Piece {
    if m.kind == Promotion then Piece(us, m.promo) else b[m.from]
  }

  function CaptureSquare(m: Move): Square {
    if m.kind == EnPassant then VictimSquare(m) else m.to
  }

  /** Lift the captured piece, lift the mover, put down what arrives. */
  lemma AfterSteps(p: Pos, m: Move)
    requires WellFormed(p) && PseudoLegal(p, m) && m.kind != Castling
    ensures var c := CaptureSquare(m);
            c != m.from && (c != m.to ==> p.board[m.to] == NoPiece) && m.from != m.to
            && var b1: Board := p.board[c := NoPiece];
               var b2: Board := b1[m.from := NoPiece];
               && After(p.board, p.side, m) == b2[m.to := Arrives(p.board, p.side, m)]
               && b1[m.from] == p.board[m.from] && b2[m.to] == NoPiece && p.board[m.from].Piece?
               && IsColor(p.board, p.side, m.from) && !IsColor(p.board, p.side, c)
  {
    var b, us := p.board, p.side;
    if m.kind == EnPassant {
      EpSquares(p, m);
    } else {
      MoveDistinct(b, us, m.from, m.to);
    }
    hide WellFormed, VictimSquare, Hits, PawnPush, PawnDouble, PawnCapture, PawnStep;
  }

  /** The key change of a move that is not castling. */
  lemma BoardKeysAfter(z: Zobrist, p: Pos, m: Move)
    requires WellFormed(p) && PseudoLegal(p, m) && m.kind != Castling
    ensures var c := CaptureSquare(m);
            BoardKeys(z, After(p.board, p.side, m)) ==
            Sum(Sum(Sum(BoardKeys(z, p.board), Of(z, p.board[c], c)), Of(z, p.board[m.from], m.from)),
                Of(z, Arrives(p.board, p.side, m), m.to))
  {
    hide *;
    var b := p.board;
    var c := CaptureSquare(m);
    AfterSteps(p, m);
    var b1: Board := b[c := NoPiece];
    var b2: Board := b1[m.from := NoPiece];
    BoardKeysLift(z, b, c);
    BoardKeysLift(z, b1, m.from);
    BoardKeysPut(z, b2, m.to, Arrives(b, p.side, m));
  }

  /** And of castling, whatever squares king and rook share. */
  lemma BoardKeysCastled(z: Zobrist, p: Pos, m: Move)
    requires WellFormed(p) && PseudoLegal(p, m) && m.kind == Castling
    ensures var r := CastlingRight(p.side, m);
            BoardKeys(z, After(p.board, p.side, m)) ==
            Sum(Sum(Sum(Sum(BoardKeys(z, p.board), Of(z, Piece(p.side, Rook), m.to)),
                        Of(z, Piece(p.side, King), m.from)),
                    Of(z, Piece(p.side, King), KingTarget(r))), Of(z, Piece(p.side, Rook), RookTarget(r)))
  {
    var b, us := p.board, p.side;
    var r := CastlingRight(us, m);
    CastlingSquares(p, m);
    TargetsOnBackRank(r);
    var b1: Board := b[m.to := NoPiece];
    var b2: Board := b1[m.from := NoPiece];
    var b3: Board := b2[KingTarget(r) := Piece(us, King)];
    assert b[m.to] == Piece(us, Rook) && b1[m.from] == Piece(us, King);
    assert b2[KingTarget(r)] == NoPiece && b3[RookTarget(r)] == NoPiece;
    assert b3[RookTarget(r) := Piece(us, Rook)] == After(b, us, m);
    hide *;
    BoardKeysLift(z, b, m.to);
    BoardKeysLift(z, b1, m.from);
    BoardKeysPut(z, b2, KingTarget(r), Piece(us, King));
    BoardKeysPut(z, b3, RookTarget(r), Piece(us, Rook));
  }
}
