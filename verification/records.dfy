/** The state record of a child position: what the incremental updates of a move must add up to. */
module Records {
  import opened Squares
  import opened Types
  import opened Board
  import opened Rules
  import opened Attacks
  import opened Derived
  import opened State
  import opened Play
  import opened Keys

  // ----- keys carried through the updates -----

  lemma SumAssoc(a: KeyVector, x: KeyVector, t: KeyVector)
    ensures Sum(Sum(a, x), t) == Sum(a, Sum(x, t))
  {
    XorAssoc(a.whole, x.whole, t.whole);
    XorAssoc(a.pawn, x.pawn, t.pawn);
    XorAssoc(a.minor, x.minor, t.minor);
    XorAssoc(a.white, x.white, t.white);
    XorAssoc(a.black, x.black, t.black);
    hide Xor;
  }

  /** A term of the position key alone. */
  function Whole(x: Key): KeyVector {
    KeyVector(x, {}, {}, {}, {})
  }

  /** The record in hand differs from the parent's keys by w in the position key and by the
      piece terms d in all five. */
  ghost predicate Carried(parent: StateInfo, st: StateInfo, key: Key, w: Key, d: KeyVector) {
    && |parent.nonPawnKey| == 2 && |st.nonPawnKey| == 2
    && Held(st, key) == Sum(Sum(Held(parent, parent.key), Whole(w)), d)
  }

  /** The record after one piece term, everything but the keys kept. */
  predicate KeysOnly(st: StateInfo, st': StateInfo) {
    st' == st.(pawnKey := st'.pawnKey, minorPieceKey := st'.minorPieceKey, nonPawnKey := st'.nonPawnKey)
  }

  /** `key ^= psq[pc][s]` with toggle_aux_keys(st, pc, s). */
  method Toggle(z: Zobrist, st: StateInfo, key: Key, pc: Piece, s: Square,
                ghost parent: StateInfo, ghost w: Key, ghost d: KeyVector)
    returns (st': StateInfo, key': Key)
    requires pc.Piece? && Carried(parent, st, key, w, d)
    ensures Carried(parent, st', key', w, Sum(d, Of(z, pc, s))) && KeysOnly(st, st')
  {
    ToggleIsSum(z, st, key, pc, s);
    SumAssoc(Sum(Held(parent, parent.key), Whole(w)), d, Of(z, pc, s));
    hide Sum, Of, Held, Whole, ToggleAuxKeys;
    key' := Xor(key, z.psq(pc, s));
    st' := ToggleAuxKeys(z, st, pc, s);
  }

  /** A term of the position key alone joins w. */
  lemma ToggleWhole(parent: StateInfo, st: StateInfo, key: Key, w: Key, d: KeyVector, x: Key)
    requires Carried(parent, st, key, w, d)
    ensures Carried(parent, st, Xor(key, x), Xor(w, x), d)
  {
    var base := Held(parent, parent.key);
    assert Held(st, Xor(key, x)) == Sum(Held(st, key), Whole(x)) by {
      XorNothing(st.pawnKey);
      XorNothing(st.minorPieceKey);
      XorNothing(st.nonPawnKey[0]);
      XorNothing(st.nonPawnKey[1]);
      hide Xor;
    }
    assert Sum(Whole(w), Whole(x)) == Whole(Xor(w, x)) by {
      XorNothing({});
      hide Xor;
    }
    SumSwap(Sum(base, Whole(w)), d, Whole(x));
    SumAssoc(base, Whole(w), Whole(x));
    hide Sum, Held, Whole;
  }

  /** Only the key fields matter. */
  lemma CarriedSame(parent: StateInfo, st: StateInfo, st': StateInfo, key: Key, w: Key, d: KeyVector)
    requires Carried(parent, st, key, w, d)
    requires st'.pawnKey == st.pawnKey && st'.minorPieceKey == st.minorPieceKey && st'.nonPawnKey == st.nonPawnKey
    ensures Carried(parent, st', key, w, d)
  {
    hide Sum;
  }

  /** Nothing has been toggled yet but the side. */
  lemma CarriedStart(z: Zobrist, parent: StateInfo, st: StateInfo)
    requires |parent.nonPawnKey| == 2 && st == parent.(rule50 := st.rule50, pliesFromNull := st.pliesFromNull)
    ensures Carried(parent, st, Xor(parent.key, z.side), z.side, ZERO)
  {
    SumZero(Held(parent, parent.key));
    assert Whole({}) == ZERO;
    XorNothing(z.side);
    XorCommutes({}, z.side);
    assert Carried(parent, st, parent.key, {}, ZERO);
    ToggleWhole(parent, st, parent.key, {}, ZERO, z.side);
    hide Xor, Held, Sum, Whole;
  }

  lemma ZeroSum(x: KeyVector)
    ensures Sum(ZERO, x) == x
  {
    XorNothing(x.whole); XorNothing(x.pawn); XorNothing(x.minor); XorNothing(x.white); XorNothing(x.black);
    XorCommutes({}, x.whole); XorCommutes({}, x.pawn); XorCommutes({}, x.minor); XorCommutes({}, x.white);
      XorCommutes({}, x.black);
    hide Xor;
  }

  /** The old en-passant square leaves the key. */
  method ClearEp(z: Zobrist, st: StateInfo, key: Key, ghost parent: StateInfo, ghost w: Key, ghost d: KeyVector)
    returns (st': StateInfo, key': Key)
    requires Carried(parent, st, key, w, d)
    ensures Carried(parent, st', key', Xor(w, EpKey(z, st.epSquare)), d) && st' == st.(epSquare := None)
  {
    ToggleWhole(parent, st, key, w, d, EpKey(z, st.epSquare));
    XorNothing(w);
    hide Xor, Sum;
    st', key' := st, key;
    if st.epSquare.Some? {
      key' := Xor(key', z.enpassant(File(st.epSquare.value)));
      st' := st'.(epSquare := None);
    }
  }

  /** The rights of the squares left and landed on leave the record and the key. */
  method StripRights(z: Zobrist, st: StateInfo, key: Key, mask: seq<set<Right>>, from: Square, to: Square,
                     ghost parent: StateInfo, ghost w: Key, ghost d: KeyVector)
    returns (st': StateInfo, key': Key)
    requires |mask| == 64 && Carried(parent, st, key, w, d)
    ensures st' == st.(castlingRights := st.castlingRights - (mask[from] + mask[to]))
    ensures Carried(parent, st', key', Xor(Xor(w, z.castling(st.castlingRights)), z.castling(st'.castlingRights)), d)
  {
    var lost := mask[from] + mask[to];
    ghost var c0, c1 := z.castling(st.castlingRights), z.castling(st.castlingRights - lost);
    ToggleWhole(parent, st, key, w, d, c0);
    ToggleWhole(parent, st, Xor(key, c0), Xor(w, c0), d, c1);
    XorTwice(w, c0);
    st', key' := st, key;
    if st'.castlingRights != {} && lost != {} {
      key' := Xor(key', z.castling(st'.castlingRights));
      st' := st'.(castlingRights := st'.castlingRights - lost);
      key' := Xor(key', z.castling(st'.castlingRights));
    } else {
      assert st.castlingRights - lost == st.castlingRights;
    }
    hide Xor, Sum;
  }

  /** What m's pieces add, in the order the code adds it. */
  function MoveKeys(z: Zobrist, b: Board, us: Color, m: Move): KeyVector {
    if m.kind == Castling then
      var r := CastlingRight(us, m);
      Sum(Sum(Sum(Of(z, Piece(us, Rook), m.to), Of(z, Piece(us, Rook), RookTarget(r))), Of(z, Piece(us, King), m.from)),
          Of(z, Piece(us, King), KingTarget(r)))
    else
      var c := CaptureSquare(m);
      Sum(Sum(Of(z, b[c], c), Of(z, b[m.from], m.from)), Of(z, Arrives(b, us, m), m.to))
  }

  lemma BoardKeysMoved(z: Zobrist, p: Pos, m: Move)
    requires WellFormed(p) && PseudoLegal(p, m)
    ensures BoardKeys(z, After(p.board, p.side, m)) == Sum(BoardKeys(z, p.board), MoveKeys(z, p.board, p.side, m))
  {
    var b, us := p.board, p.side;
    var base := BoardKeys(z, b);
    if m.kind == Castling {
      BoardKeysCastled(z, p, m);
      var r := CastlingRight(us, m);
      var r0, r1 := Of(z, Piece(us, Rook), m.to), Of(z, Piece(us, Rook), RookTarget(r));
      var k0, k1 := Of(z, Piece(us, King), m.from), Of(z, Piece(us, King), KingTarget(r));
      hide Sum, Of, BoardKeys, After, WellFormed, PseudoLegal, KingTarget, RookTarget, CastlingRight;
      SumSwap(Sum(Sum(base, r0), k0), k1, r1);
      SumSwap(Sum(base, r0), k0, r1);
      SumAssoc(Sum(Sum(base, r0), r1), k0, k1);
      FourTerms(base, r0, r1, k0, k1);
    } else {
      BoardKeysAfter(z, p, m);
      var c := CaptureSquare(m);
      hide Sum, Of, BoardKeys, After, WellFormed, PseudoLegal, Arrives, CaptureSquare;
      ThreeTerms(base, Of(z, b[c], c), Of(z, b[m.from], m.from), Of(z, Arrives(b, us, m), m.to));
    }
  }

  lemma ThreeTerms(a: KeyVector, x: KeyVector, y: KeyVector, t: KeyVector)
    ensures Sum(Sum(Sum(a, x), y), t) == Sum(a, Sum(Sum(x, y), t))
  {
    SumAssoc(a, x, y);
    SumAssoc(a, Sum(x, y), t);
    hide Sum;
  }

  lemma FourTerms(a: KeyVector, x: KeyVector, y: KeyVector, t: KeyVector, u: KeyVector)
    ensures Sum(Sum(Sum(Sum(a, x), y), t), u) == Sum(a, Sum(Sum(Sum(x, y), t), u))
  {
    ThreeTerms(a, x, y, t);
    SumAssoc(a, Sum(Sum(x, y), t), u);
    hide Sum;
  }

  /** The part of the position key that is not about pieces. */
  function Extra(z: Zobrist, p: Pos): Key {
    Xor(Xor(EpKey(z, p.ep), SideKey(z, p.side)), z.castling(p.rights))
  }

  ghost predicate KeysFresh(z: Zobrist, p: Pos, st: StateInfo) {
    AuxKeysFresh(z, p.board, st) && st.key == PositionKey(z, p)
  }

  /** All five keys are fresh exactly when they are the board's vector with the fixed terms. */
  lemma FreshKeys(z: Zobrist, p: Pos, st: StateInfo)
    requires |st.nonPawnKey| == 2
    ensures KeysFresh(z, p, st) <==>
            Held(st, st.key) == Sum(BoardKeys(z, p.board), KeyVector(Extra(z, p), z.noPawns, {}, {}, {}))
  {
    var b := p.board;
    XorNothing(Fold(z, MinorKey, b, 64));
    XorNothing(Fold(z, NonPawnKey(White), b, 64));
    XorNothing(Fold(z, NonPawnKey(Black), b, 64));
    XorCommutes(z.noPawns, Fold(z, PawnKey, b, 64));
    WholeSplits(Fold(z, WholeKey, b, 64), EpKey(z, p.ep), SideKey(z, p.side), z.castling(p.rights));
    assert (forall c: Color :: st.nonPawnKey[ColorIndex(c)] == Fold(z, NonPawnKey(c), b, 64)) <==>
           st.nonPawnKey[0] == Fold(z, NonPawnKey(White), b, 64) &&
             st.nonPawnKey[1] == Fold(z, NonPawnKey(Black), b, 64) by {
      assert st.nonPawnKey[ColorIndex(White)] == st.nonPawnKey[0] &&
             st.nonPawnKey[ColorIndex(Black)] == st.nonPawnKey[1];
    }
    hide Xor, Fold;
  }

  lemma XorCommutes(a: Key, x: Key)
    ensures Xor(a, x) == Xor(x, a)
  {
  }

  lemma WholeSplits(a: Key, x: Key, y: Key, t: Key)
    ensures Xor(Xor(Xor(a, x), y), t) == Xor(a, Xor(Xor(x, y), t))
  {
    XorAssoc(a, x, y);
    XorAssoc(a, Xor(x, y), t);
    hide Xor;
  }

  /** The incremental keys are the from-scratch keys of the child. */
  lemma KeysArrive(z: Zobrist, p: Pos, p': Pos, parent: StateInfo, st: StateInfo, w: Key, d: KeyVector)
    requires KeysFresh(z, p, parent) && Carried(parent, st, st.key, w, d)
    requires BoardKeys(z, p'.board) == Sum(BoardKeys(z, p.board), d)
    requires Extra(z, p') == Xor(Extra(z, p), w)
    ensures KeysFresh(z, p', st)
  {
    FreshKeys(z, p, parent);
    FreshKeys(z, p', st);
    var e := KeyVector(Extra(z, p), z.noPawns, {}, {}, {});
    var e' := KeyVector(Extra(z, p'), z.noPawns, {}, {}, {});
    assert e' == Sum(e, Whole(w)) by {
      XorNothing(z.noPawns);
      XorNothing({});
      hide Xor, Extra;
    }
    hide KeysFresh, Held, Sum, BoardKeys, Extra, Whole;
    SumAssoc(BoardKeys(z, p.board), e, Whole(w));
    SumSwap(BoardKeys(z, p.board), Sum(e, Whole(w)), d);
  }

  /** The position-key terms of a move: side, old square, old and new rights, new square. */
  function MoveExtra(z: Zobrist, p: Pos, p': Pos): Key {
    Xor(Xor(Xor(Xor(z.side, EpKey(z, p.ep)), z.castling(p.rights)), z.castling(p'.rights)), EpKey(z, p'.ep))
  }

  lemma ExtraMoved(z: Zobrist, p: Pos, p': Pos)
    requires p'.side == Flip(p.side)
    ensures Extra(z, p') == Xor(Extra(z, p), MoveExtra(z, p, p'))
  {
    var e0, e1, c0, c1 := EpKey(z, p.ep), EpKey(z, p'.ep), z.castling(p.rights), z.castling(p'.rights);
    var s0, s1, s := SideKey(z, p.side), SideKey(z, p'.side), z.side;
    assert s1 == Xor(s0, s);
    hide EpKey, SideKey;
    ExtraXors(e0, s0, c0, e1, s1, c1, s);
  }

  lemma ExtraXors(e0: Key, s0: Key, c0: Key, e1: Key, s1: Key, c1: Key, s: Key)
    requires s1 == Xor(s0, s)
    ensures Xor(Xor(e1, s1), c1) == Xor(Xor(Xor(e0, s0), c0), Xor(Xor(Xor(Xor(s, e0), c0), c1), e1))
  {
  }

  // ----- material -----

  /** The material key after m, from the counts before it. */
  function MaterialStep(z: Zobrist, b: Board, us: Color, m: Move, k: Key): Key {
    var c := CaptureSquare(m);
    var k1 := if m.kind != Castling && b[c].Piece? then Xor(k, z.psq(b[c], 8 + |PiecesOf(b, b[c])| - 1)) else k;
    if m.kind == Promotion then
      Xor(k1, Xor(z.psq(Piece(us, m.promo), 8 + |PiecesOf(b, Piece(us, m.promo))|),
                  z.psq(Piece(us, Pawn), 8 + |PiecesOf(b, Piece(us, Pawn))| - 1)))
    else k1
  }

  /** One lift and one placement. */
  lemma LiftAndPut(z: Zobrist, b: Board, from: Square, to: Square, pc: Piece)
    requires b[from].Piece? && (to == from || b[to] == NoPiece) && pc.Piece?
    ensures var b' := b[from := NoPiece][to := pc];
            && MaterialKey(z, b') == (if pc == b[from] then MaterialKey(z, b)
                else Xor(MaterialKey(z, b),
                         Xor(z.psq(pc, 8 + |PiecesOf(b, pc)|), z.psq(b[from], 8 + |PiecesOf(b, b[from])| - 1))))
            && (forall c: Color ::
                 NonPawnMaterial(b', c) == NonPawnMaterial(b, c) - MaterialTerm(b[from], c) + MaterialTerm(pc, c))
  {
    var b1: Board := b[from := NoPiece];
    MaterialLift(z, b, from);
    MaterialPlace(z, b1, to, pc);
    var x, y := z.psq(b[from], 8 + |PiecesOf(b, b[from])| - 1), z.psq(pc, 8 + |PiecesOf(b1, pc)|);
    XorTwice(MaterialKey(z, b), x);
    XorAssoc(MaterialKey(z, b), x, y);
    XorCommutes(x, y);
    forall c: Color
      ensures NonPawnMaterial(b1[to := pc], c) == NonPawnMaterial(b, c) - MaterialTerm(b[from], c) + MaterialTerm(pc, c)
    {
      NonPawnLift(z, b, from, c);
      NonPawnPlace(z, b1, to, pc, c);
    }
    hide MaterialKey, PiecesOf, NonPawnMaterial, MaterialTerm, Xor;
  }

  /** A victim lifted, then the mover: on the board alone. */
  lemma CaptureAndLand(z: Zobrist, b: Board, us: Color, c: Square, from: Square, to: Square, arrives: Piece)
    requires c != from && from != to && IsColor(b, us, from) && !IsColor(b, us, c) && b[c := NoPiece][to] == NoPiece
    requires arrives.Piece? && arrives.color == us
    ensures var k1 := if b[c].Piece? then Xor(MaterialKey(z, b), z.psq(b[c], 8 + |PiecesOf(b, b[c])| - 1))
      else MaterialKey(z, b);
            MaterialKey(z, b[c := NoPiece][from := NoPiece][to := arrives]) ==
            if arrives == b[from] then k1
            else Xor(k1,
                     Xor(z.psq(arrives, 8 + |PiecesOf(b, arrives)|), z.psq(b[from], 8 + |PiecesOf(b, b[from])| - 1)))
    ensures forall col: Color :: NonPawnMaterial(b[c := NoPiece][from := NoPiece][to := arrives], col) ==
              NonPawnMaterial(b, col) - MaterialTerm(b[c], col) - MaterialTerm(b[from], col) +
                MaterialTerm(arrives, col)
  {
    hide *;
    var b1: Board := b[c := NoPiece];
    Unlike(b, us, c, from, arrives);
    LiftAndPut(z, b1, from, to, arrives);
    if b[c].Piece? {
      LiftVictim(z, b, c, b[from], arrives);
    } else {
      assert b1 == b;
    }
  }

  lemma Unlike(b: Board, us: Color, c: Square, from: Square, arrives: Piece)
    requires IsColor(b, us, from) && !IsColor(b, us, c) && arrives.Piece? && arrives.color == us
    ensures b[from].Piece? && b[from] != b[c] && arrives != b[c]
    ensures forall col: Color :: b[c].NoPiece? ==> MaterialTerm(b[c], col) == 0
  {
  }

  lemma LiftVictim(z: Zobrist, b: Board, c: Square, pc: Piece, qc: Piece)
    requires b[c].Piece? && pc.Piece? && qc.Piece? && pc != b[c] && qc != b[c]
    ensures var b1: Board := b[c := NoPiece];
            && MaterialKey(z, b1) == Xor(MaterialKey(z, b), z.psq(b[c], 8 + |PiecesOf(b, b[c])| - 1))
            && PiecesOf(b1, pc) == PiecesOf(b, pc) && PiecesOf(b1, qc) == PiecesOf(b, qc)
            && forall col: Color :: NonPawnMaterial(b1, col) == NonPawnMaterial(b, col) - MaterialTerm(b[c], col)
  {
    hide *;
    MaterialLift(z, b, c);
    forall col: Color
      ensures NonPawnMaterial(b[c := NoPiece], col) == NonPawnMaterial(b, col) - MaterialTerm(b[c], col)
    {
      NonPawnLift(z, b, c, col);
    }
  }

  lemma MaterialStepped(z: Zobrist, p: Pos, m: Move)
    requires WellFormed(p) && PseudoLegal(p, m) && m.kind != Castling
    ensures MaterialKey(z, After(p.board, p.side, m)) == MaterialStep(z, p.board, p.side, m, MaterialKey(z, p.board))
    ensures forall c: Color :: NonPawnMaterial(After(p.board, p.side, m), c) == NonPawnStep(p.board, p.side, m, c)
  {
    var b, us := p.board, p.side;
    var arrives := Arrives(b, us, m);
    hide *;
    AfterSteps(p, m);
    ArrivesShape(p, m);
    CaptureAndLand(z, b, us, CaptureSquare(m), m.from, m.to, arrives);
    SteppedForm(z, b, us, m, MaterialKey(z, b));
  }

  lemma ArrivesShape(p: Pos, m: Move)
    requires WellFormed(p) && PseudoLegal(p, m) && m.kind != Castling
    ensures var arrives := Arrives(p.board, p.side, m);
            && (m.kind == Promotion ==>
                 p.board[m.from] == Piece(p.side, Pawn) && arrives == Piece(p.side, m.promo) &&
                 arrives != p.board[m.from])
            && (m.kind != Promotion ==> arrives == p.board[m.from])
            && arrives.Piece? && arrives.color == p.side
  {
    hide WellFormed, Hits, PawnPush, PawnDouble, PawnCapture, PawnStep;
  }

  lemma SteppedForm(z: Zobrist, b: Board, us: Color, m: Move, k: Key)
    requires m.kind != Castling
    ensures var c := CaptureSquare(m);
            var k1 := if b[c].Piece? then Xor(k, z.psq(b[c], 8 + |PiecesOf(b, b[c])| - 1)) else k;
            MaterialStep(z, b, us, m, k) ==
            if m.kind == Promotion then
              Xor(k1, Xor(z.psq(Piece(us, m.promo), 8 + |PiecesOf(b, Piece(us, m.promo))|),
                          z.psq(Piece(us, Pawn), 8 + |PiecesOf(b, Piece(us, Pawn))| - 1)))
            else k1
    ensures forall col: Color :: NonPawnStep(b, us, m, col) ==
              NonPawnMaterial(b, col) - MaterialTerm(b[CaptureSquare(m)], col)
              + (if m.kind == Promotion then MaterialTerm(Piece(us, m.promo), col) else 0)
    ensures forall col: Color :: MaterialTerm(Piece(us, Pawn), col) == 0
  {
    hide PiecesOf, NonPawnMaterial, CaptureSquare, Xor;
  }

  /** non_pawn_material after m: the victim leaves its side's sum, a promoted piece joins. */
  function NonPawnStep(b: Board, us: Color, m: Move, c: Color): int {
    NonPawnMaterial(b, c)
    - (if m.kind != Castling then MaterialTerm(b[CaptureSquare(m)], c) else 0)
    + (if m.kind == Promotion then MaterialTerm(Piece(us, m.promo), c) else 0)
  }

  lemma MaterialCastled(z: Zobrist, p: Pos, m: Move)
    requires WellFormed(p) && PseudoLegal(p, m) && m.kind == Castling
    ensures MaterialKey(z, After(p.board, p.side, m)) == MaterialKey(z, p.board)
    ensures forall c: Color :: NonPawnMaterial(After(p.board, p.side, m), c) == NonPawnMaterial(p.board, c)
  {
    var b, us := p.board, p.side;
    var r := CastlingRight(us, m);
    CastlingSquares(p, m);
    TargetsOnBackRank(r);
    var rook, king := Piece(us, Rook), Piece(us, King);
    var b1: Board := b[m.to := NoPiece];
    var b2: Board := b1[m.from := NoPiece];
    assert b[m.to] == rook && b[m.from] == king && b2[KingTarget(r)] == NoPiece && b2[RookTarget(r)] == NoPiece;
    assert b2[KingTarget(r) := king][RookTarget(r) := rook] == After(b, us, m);
    hide *;
    TwoOutTwoIn(z, b, m.to, m.from, KingTarget(r), RookTarget(r));
  }

  lemma TwoOutTwoIn(z: Zobrist, b: Board, s: Square, t: Square, s': Square, t': Square)
    requires s != t && b[s].Piece? && b[t].Piece? && b[s] != b[t] && s' != t'
    requires b[s := NoPiece][t := NoPiece][s'] == NoPiece && b[s := NoPiece][t := NoPiece][t'] == NoPiece
    ensures var b' := b[s := NoPiece][t := NoPiece][s' := b[t]][t' := b[s]];
            MaterialKey(z, b') == MaterialKey(z, b) &&
              forall c: Color :: NonPawnMaterial(b', c) == NonPawnMaterial(b, c)
  {
    var rook, king := b[s], b[t];
    var b1: Board := b[s := NoPiece];
    var b2: Board := b1[t := NoPiece];
    var b3: Board := b2[s' := king];
    hide *;
    MaterialLift(z, b, s);
    LiftAndPut(z, b1, t, s', king);
    MaterialPlace(z, b3, t', rook);
    CountsKept(b1, t, s', rook);
    XorTwice(MaterialKey(z, b), z.psq(rook, 8 + |PiecesOf(b, rook)| - 1));
    forall c: Color
      ensures NonPawnMaterial(b3[t' := rook], c) == NonPawnMaterial(b, c)
    {
      NonPawnLift(z, b, s, c);
      NonPawnPlace(z, b3, t', rook, c);
    }
  }

  lemma CountsKept(b: Board, from: Square, to: Square, pc: Piece)
    requires b[from] != pc && b[from := NoPiece][to] == NoPiece && pc.Piece?
    ensures PiecesOf(b[from := NoPiece][to := b[from]], pc) == PiecesOf(b, pc)
  {
  }

  lemma MaterialMoved(z: Zobrist, p: Pos, m: Move)
    requires WellFormed(p) && PseudoLegal(p, m)
    ensures MaterialKey(z, After(p.board, p.side, m)) == MaterialStep(z, p.board, p.side, m, MaterialKey(z, p.board))
    ensures forall c: Color :: NonPawnMaterial(After(p.board, p.side, m), c) == NonPawnStep(p.board, p.side, m, c)
  {
    if m.kind == Castling {
      MaterialCastled(z, p, m);
    } else {
      MaterialStepped(z, p, m);
    }
    hide WellFormed, PseudoLegal, After, MaterialKey, NonPawnMaterial, Xor, PiecesOf, CaptureSquare;
  }

  // ----- rights -----

  /** castling_rights_mask marks the home squares of the king and the rook of every held right. */
  ghost predicate MaskFresh(p: Pos, mask: seq<set<Right>>) {
    && |mask| == 64
    && forall r, s: Square :: r in p.rights ==>
         (r in mask[s] <==> IsKing(p.board, r.color, s) || (r in p.rooks && p.rooks[r] == s))
  }

  /** Where the mover comes to rest; castling is written as king takes rook. */
  function LandSquare(us: Color, m: Move): Square {
    if m.kind == Castling then KingTarget(CastlingRight(us, m)) else m.to
  }

  /** The two masks strip exactly the rights the move touches. */
  lemma RightsStripped(p: Pos, m: Move, mask: seq<set<Right>>)
    requires WellFormed(p) && PseudoLegal(p, m) && MaskFresh(p, mask)
    ensures Next(p, m).rights == p.rights - (mask[m.from] + mask[LandSquare(p.side, m)])
  {
    forall r | r in p.rights
      ensures Touches(p, r, m) <==> r in mask[m.from] || r in mask[LandSquare(p.side, m)]
    {
      if m.kind == Castling {
        CastlingTouches(p, m, mask, r);
      }
    }
    hide MaskFresh, Touches, WellFormed, PseudoLegal, LandSquare, After, NextEp;
  }

  lemma CastlingTouches(p: Pos, m: Move, mask: seq<set<Right>>, r: Right)
    requires WellFormed(p) && PseudoLegal(p, m) && MaskFresh(p, mask) && m.kind == Castling && r in p.rights
    ensures Touches(p, r, m) <==> r in mask[m.from] || r in mask[LandSquare(p.side, m)]
  {
    CastlingSquares(p, m);
    var own := CastlingRight(p.side, m);
    TargetsOnBackRank(own);
    var k: Square :| RightHome(p.board, p.rooks, r, k);
    assert IsKing(p.board, p.side, m.from);
    assert p.board[m.to] == Piece(p.side, Rook);
    assert IsKing(p.board, r.color, LandSquare(p.side, m)) ==> LandSquare(p.side, m) == k by {
      KingUnique(p.board, r.color, LandSquare(p.side, m), k);
    }
    hide WellFormed, PseudoLegal, KingTarget, RookTarget, CastlingRight;
  }

  /** Kept rights keep their king and rook, so masks and paths stay right. */
  lemma HomesKept(p: Pos, m: Move, mask: seq<set<Right>>)
    requires WellFormed(p) && PseudoLegal(p, m) && MaskFresh(p, mask)
    ensures MaskFresh(Next(p, m), mask)
  {
    forall r, s: Square | r in Next(p, m).rights
      ensures IsKing(Next(p, m).board, r.color, s) <==> IsKing(p.board, r.color, s)
    {
      KingKept(p, m, r, s);
    }
    hide WellFormed, PseudoLegal, After, IsKing, NextEp, Touches;
  }

  lemma KingKept(p: Pos, m: Move, r: Right, s: Square)
    requires WellFormed(p) && PseudoLegal(p, m) && r in Next(p, m).rights
    ensures IsKing(After(p.board, p.side, m), r.color, s) <==> IsKing(p.board, r.color, s)
  {
    assert r in p.rights && !Touches(p, r, m);
    var k: Square :| RightHome(p.board, p.rooks, r, k);
    UntouchedAfter(p, m, r, k);
    KingsAfter(p, m);
    KingOfIs(p.board, r.color, k);
    assert IsKing(After(p.board, p.side, m), r.color, k) by {
      hide WellFormed, RightHome, KingOf, After, PseudoLegal, Next, Touches;
    }
    KingUnique(p.board, r.color, s, k);
    KingUnique(After(p.board, p.side, m), r.color, s, k);
    hide WellFormed, KingOf, After, PseudoLegal, Next, Touches;
  }
}
