/** The caches set_extra_bitboards and the checkers scan fill, each against its plain definition. */
module Caches {
  import opened Squares
  import opened Types
  import opened Board
  import opened Attacks
  import opened Pins
  import opened Derived
  import opened State
  import opened Views

  // ----- attackers -----

  /** pos_attackers_to_occ: both colours, read backwards from s. */
  function AttackersTo(v: View, s: Square, occ: Bitboard): Bitboard
    requires |v.byType| == 7 && |v.byColor| == 2
  {
    var sliders := BothAttacksBB(s, occ);
    PawnAttacksBB(Black, s) * PiecesCP(v, White, Pawn)
    + PawnAttacksBB(White, s) * PiecesCP(v, Black, Pawn)
    + AttacksBB(Knight, s, {}) * v.byType[TypeIndex(Knight)]
    + sliders.rook * (v.byType[TypeIndex(Rook)] + v.byType[TypeIndex(Queen)])
    + sliders.bishop * (v.byType[TypeIndex(Bishop)] + v.byType[TypeIndex(Queen)])
    + AttacksBB(King, s, {}) * v.byType[TypeIndex(King)]
  }

  /** Attacks read backwards: a pawn's with the other colour, everything else unchanged. */
  lemma HitsReversed(kind: PieceType, c: Color, a: Square, t: Square, occ: Bitboard)
    ensures kind == Pawn ==> (Hits(Piece(c, kind), a, t, occ) <==> PawnStep(Flip(c), t, a))
    ensures kind != Pawn ==> (Hits(Piece(c, kind), a, t, occ) <==> a in AttacksBB(kind, t, occ))
    ensures kind == Knight || kind == King ==> AttacksBB(kind, t, occ) == AttacksBB(kind, t, {})
  {
    Coords(a); Coords(t);
    ClearSym(a, t, occ);
    LineSym(a, t);
    hide Clear, File, Rank;
  }

  lemma AttackersToMember(b: Board, v: View, s: Square, occ: Bitboard, a: Square)
    requires TypesSynced(b, v.byType) && ColorsSynced(b, v.byColor)
    ensures a in AttackersTo(v, s, occ) <==> b[a].Piece? && Hits(b[a], a, s, occ)
  {
    PiecesCPExact(b, v, White, Pawn);
    PiecesCPExact(b, v, Black, Pawn);
    assert forall kind: PieceType :: a in v.byType[TypeIndex(kind)] <==> b[a].Piece? && b[a].kind == kind;
    if b[a].Piece? {
      HitsReversed(b[a].kind, b[a].color, a, s, occ);
      if b[a].kind == Queen {
        HitsReversed(Rook, b[a].color, a, s, occ);
        HitsReversed(Bishop, b[a].color, a, s, occ);
      }
    }
    hide Clear, RookLine, BishopLine, PawnStep, KnightStep, KingStep, TypesSynced, ColorsSynced, PiecesCP, AttacksBB;
  }

  /** The checkers scan. */
  lemma CheckersScan(b: Board, v: View, us: Color, s: Square, occ: Bitboard)
    requires TypesSynced(b, v.byType) && ColorsSynced(b, v.byColor)
    ensures AttackersTo(v, s, occ) * PiecesC(v, us) == AttackersBB(b, us, s, occ)
  {
    forall a: Square
      ensures a in AttackersTo(v, s, occ) <==> b[a].Piece? && Hits(b[a], a, s, occ)
    {
      AttackersToMember(b, v, s, occ, a);
    }
    assert PiecesC(v, us) == OfColor(b, us);
    hide AttackersTo, Hits, TypesSynced, ColorsSynced, PiecesC;
  }

  // ----- blockers and pinners -----

  lemma SnipersExact(b: Board, v: View, them: Color, k: Square)
    requires TypesSynced(b, v.byType) && ColorsSynced(b, v.byColor)
    ensures (AttacksBB(Rook, k, {}) * (v.byType[TypeIndex(Rook)] + v.byType[TypeIndex(Queen)])
             + AttacksBB(Bishop, k, {}) * (v.byType[TypeIndex(Bishop)] + v.byType[TypeIndex(Queen)]))
            * PiecesC(v, them) == SnipersBB(b, them, k)
  {
    forall a: Square
      ensures a in AttacksBB(Rook, k, {}) <==> RookLine(k, a)
      ensures a in AttacksBB(Bishop, k, {}) <==> BishopLine(k, a)
    {
    }
    assert PiecesC(v, them) == OfColor(b, them);
    assert forall kind: PieceType :: v.byType[TypeIndex(kind)] == OfType(b, kind);
    hide AttacksBB, RookLine, BishopLine, PiecesC, TypesSynced, ColorsSynced;
  }

  /** What stands between k and a sniper once every sniper is lifted. */
  lemma ScreenSet(b: Board, them: Color, k: Square, a: Square)
    requires Sniper(b, them, k, a)
    ensures forall x: Square :: x in BetweenBB(k, a) * Xor(Occupied(b), SnipersBB(b, them, k)) <==>
              Inside(k, x, a) && b[x] != NoPiece && !Sniper(b, them, k, x)
  {
    assert forall x: Square :: Sniper(b, them, k, x) ==> b[x] != NoPiece;
    hide Inside, Sniper;
  }

  lemma LoneMember(s: Bitboard, x: Square)
    ensures s != {} && !MoreThanOne(s) && x in s <==> x in s && forall y: Square :: y in s ==> y == x
  {
    MoreThanOneMembers(s);
    hide MoreThanOne;
  }

  /** The mask is a lone piece x exactly when x screens a. */
  lemma ScreensExact(b: Board, them: Color, k: Square, a: Square, x: Square)
    requires Sniper(b, them, k, a)
    ensures var mask := BetweenBB(k, a) * Xor(Occupied(b), SnipersBB(b, them, k));
            mask != {} && !MoreThanOne(mask) && x in mask <==> Screens(b, them, k, x, a)
  {
    ScreenSet(b, them, k, a);
    LoneMember(BetweenBB(k, a) * Xor(Occupied(b), SnipersBB(b, them, k)), x);
    hide MoreThanOne, Sniper, Inside, BetweenBB, Xor, SnipersBB;
  }

  predicate ScreenedIn(b: Board, them: Color, k: Square, done: Bitboard, x: Square) {
    exists a :: a in done && Screens(b, them, k, x, a)
  }

  /** The blockers the snipers in `done` account for, and those of them that hold a pinned piece. */
  function ScreenedBB(b: Board, them: Color, k: Square, done: Bitboard): Bitboard {
    set x: Square | ScreenedIn(b, them, k, done, x)
  }

  function HoldersBB(b: Board, them: Color, k: Square, done: Bitboard): Bitboard {
    set a | a in done && HoldsPinned(b, them, k, a)
  }

  lemma ScreenedMember(b: Board, them: Color, k: Square, done: Bitboard, a: Square, x: Square)
    ensures x in ScreenedBB(b, them, k, done + {a}) <==> x in ScreenedBB(b, them, k, done) || Screens(b, them, k, x, a)
  {
    hide Screens;
    if Screens(b, them, k, x, a) {
      assert a in done + {a};
    }
    if y :| y in done && Screens(b, them, k, x, y) {
      assert y in done + {a};
    }
  }

  lemma ScreenedMore(b: Board, them: Color, k: Square, done: Bitboard, a: Square, mask: Bitboard)
    requires forall x: Square :: x in mask <==> Screens(b, them, k, x, a)
    ensures ScreenedBB(b, them, k, done + {a}) == ScreenedBB(b, them, k, done) + mask
  {
    forall x: Square
      ensures x in ScreenedBB(b, them, k, done + {a}) <==> x in ScreenedBB(b, them, k, done) + mask
    {
      ScreenedMember(b, them, k, done, a, x);
      hide ScreenedBB, Screens;
    }
    hide ScreenedBB, Screens;
  }

  lemma HoldersMore(b: Board, them: Color, k: Square, done: Bitboard, a: Square)
    ensures HoldersBB(b, them, k, done + {a}) ==
            if HoldsPinned(b, them, k, a) then HoldersBB(b, them, k, done) + {a} else HoldersBB(b, them, k, done)
  {
    hide HoldsPinned;
  }

  /** One sniper taken: the mask is its blocker when it is lone, and nothing otherwise. */
  lemma SniperStep(b: Board, c: Color, k: Square, a: Square, mask: Bitboard)
    requires a in SnipersBB(b, Flip(c), k)
    requires mask == BetweenBB(k, a) * Xor(Occupied(b), SnipersBB(b, Flip(c), k))
    ensures var lone := mask != {} && !MoreThanOne(mask);
            && (forall x: Square :: x in (if lone then mask else {}) <==> Screens(b, Flip(c), k, x, a))
            && (lone && mask * OfColor(b, c) != {} <==> HoldsPinned(b, Flip(c), k, a))
  {
    FlipTwice(c);
    forall x: Square
      ensures mask != {} && !MoreThanOne(mask) && x in mask <==> Screens(b, Flip(c), k, x, a)
    {
      ScreensExact(b, Flip(c), k, a, x);
    }
    hide MoreThanOne, Screens, BetweenBB, Xor, SnipersBB, Flip;
    if HoldsPinned(b, Flip(c), k, a) {
      var x: Square :| Screens(b, Flip(c), k, x, a) && IsColor(b, c, x);
      assert x in mask * OfColor(b, c);
    }
    if mask != {} && !MoreThanOne(mask) && mask * OfColor(b, c) != {} {
      var x: Square :| x in mask * OfColor(b, c);
      assert Screens(b, Flip(c), k, x, a);
    }
  }

  lemma SniperTaken(b: Board, c: Color, k: Square, a: Square, mask: Bitboard, done: Bitboard)
    requires a in SnipersBB(b, Flip(c), k)
    requires mask == BetweenBB(k, a) * Xor(Occupied(b), SnipersBB(b, Flip(c), k))
    ensures var lone := mask != {} && !MoreThanOne(mask);
            && ScreenedBB(b, Flip(c), k, done + {a}) == ScreenedBB(b, Flip(c), k, done) + (if lone then mask else {})
            && HoldersBB(b, Flip(c), k, done + {a}) ==
               if lone && mask * OfColor(b, c) != {} then HoldersBB(b, Flip(c), k, done) + {a}
               else HoldersBB(b, Flip(c), k, done)
  {
    hide *;
    SniperStep(b, c, k, a, mask);
    ScreenedMore(b, Flip(c), k, done, a, if mask != {} && !MoreThanOne(mask) then mask else {});
    HoldersMore(b, Flip(c), k, done, a);
  }

  /** slider_blockers. */
  method SliderBlockers(v: View, c: Color) returns (blockers: Bitboard, pinners: Bitboard)
    requires TypesSynced(v.board, v.byType) && ColorsSynced(v.board, v.byColor) && HasKing(v.board, c)
    ensures blockers == BlockersBB(v.board, Flip(c), KingOf(v.board, c))
    ensures pinners == PinnersBB(v.board, Flip(c), KingOf(v.board, c))
  {
    ghost var b := v.board;
    KingSquareExact(b, v, c);
    var ksq := KingSquare(v, c);
    SnipersExact(b, v, Flip(c), ksq);
    assert Pieces(v) == Occupied(b) && PiecesC(v, c) == OfColor(b, c);
    var snipers := (AttacksBB(Rook, ksq, {}) * (v.byType[TypeIndex(Rook)] + v.byType[TypeIndex(Queen)])
                    + AttacksBB(Bishop, ksq, {}) * (v.byType[TypeIndex(Bishop)] + v.byType[TypeIndex(Queen)]))
                   * PiecesC(v, Flip(c));
    var occupancy := Xor(Pieces(v), snipers);
    ScreensNone(b, Flip(c), ksq);
    hide *;
    blockers, pinners := TakeSnipers(b, c, ksq, snipers, occupancy, PiecesC(v, c));
    BlockersCollected(b, Flip(c), ksq);
  }

  method TakeSnipers(ghost b: Board, c: Color, ksq: Square, all: Bitboard, occupancy: Bitboard, own: Bitboard)
    returns (blockers: Bitboard, pinners: Bitboard)
    requires all == SnipersBB(b, Flip(c), ksq) && occupancy == Xor(Occupied(b), all) && own == OfColor(b, c)
    requires ScreenedBB(b, Flip(c), ksq, {}) == {} && HoldersBB(b, Flip(c), ksq, {}) == {}
    ensures blockers == ScreenedBB(b, Flip(c), ksq, all) && pinners == HoldersBB(b, Flip(c), ksq, all)
  {
    hide *;
    blockers := {};
    pinners := {};
    var snipers := all;
    assert all - snipers == {};
    while snipers != {}
      invariant snipers <= all
      invariant blockers == ScreenedBB(b, Flip(c), ksq, all - snipers) &&
                pinners == HoldersBB(b, Flip(c), ksq, all - snipers)
    {
      var sniperSq := Lsb(snipers);
      ghost var done := all - snipers;
      snipers := snipers - {sniperSq};
      assert all - snipers == done + {sniperSq};
      var mask := BetweenBB(ksq, sniperSq) * occupancy;
      SniperTaken(b, c, ksq, sniperSq, mask, done);
      if mask != {} && !MoreThanOne(mask) {
        blockers := blockers + mask;
        if mask * own != {} {
          pinners := pinners + {sniperSq};
        }
      }
    }
    assert all - snipers == all;
  }

  lemma ScreensNone(b: Board, them: Color, k: Square)
    ensures ScreenedBB(b, them, k, {}) == {} && HoldersBB(b, them, k, {}) == {}
  {
  }

  lemma BlockersCollected(b: Board, them: Color, k: Square)
    ensures ScreenedBB(b, them, k, SnipersBB(b, them, k)) == BlockersBB(b, them, k)
    ensures HoldersBB(b, them, k, SnipersBB(b, them, k)) == PinnersBB(b, them, k)
  {
    forall x: Square, a: Square | Screens(b, them, k, x, a)
      ensures a in SnipersBB(b, them, k)
    {
    }
    hide Screens, SnipersBB;
  }

  // ----- check squares -----

  /** The squares each kind of piece would check the enemy king from. */
  method CheckSquares(v: View) returns (r: seq<Bitboard>)
    requires TypesSynced(v.board, v.byType) && ColorsSynced(v.board, v.byColor) && HasKing(v.board, Flip(v.side))
    ensures |r| == 7
    ensures forall kind: PieceType ::
              r[TypeIndex(kind)] == CheckSquaresBB(v.board, v.side, KingOf(v.board, Flip(v.side)), kind)
  {
    var them := Flip(v.side);
    KingSquareExact(v.board, v, them);
    var tksq := KingSquare(v, them);
    var occ := Pieces(v);
    assert occ == Occupied(v.board);
    var sliders := BothAttacksBB(tksq, occ);
    r := [{}, PawnAttacksBB(them, tksq), AttacksBB(Knight, tksq, occ), sliders.bishop, sliders.rook,
          sliders.bishop + sliders.rook, {}];
    forall kind: PieceType
      ensures r[TypeIndex(kind)] == CheckSquaresBB(v.board, v.side, tksq, kind)
    {
      CheckSquaresOf(v.board, v.side, tksq, kind);
      hide CheckSquaresBB, AttacksBB, PawnAttacksBB;
    }
    hide CheckSquaresBB;
  }

  lemma CheckSquaresOf(b: Board, us: Color, tk: Square, kind: PieceType)
    ensures CheckSquaresBB(b, us, tk, kind) ==
            match kind
            case Pawn => PawnAttacksBB(Flip(us), tk)
            case King => {}
            case Queen => AttacksBB(Bishop, tk, Occupied(b)) + AttacksBB(Rook, tk, Occupied(b))
            case _ => AttacksBB(kind, tk, Occupied(b))
  {
    var occ := Occupied(b);
    forall s: Square
      ensures kind == Pawn ==> (Hits(Piece(us, kind), s, tk, occ) <==> PawnStep(Flip(us), tk, s))
      ensures kind != Pawn ==> (Hits(Piece(us, kind), s, tk, occ) <==> s in AttacksBB(kind, tk, occ))
      ensures s in AttacksBB(Queen, tk, occ) <==> s in AttacksBB(Bishop, tk, occ) || s in AttacksBB(Rook, tk, occ)
    {
      HitsReversed(kind, us, s, tk, occ);
    }
    hide Hits, AttacksBB, Occupied, PawnStep;
  }

  // ----- the threat cache -----

  /** An empty total never is a real value: a king attacks something from every square. */
  lemma ThreatsNeverEmpty(b: Board, them: Color, k: Square)
    requires HasKing(b, them)
    ensures AllThreatsBB(b, them, k) != {}
  {
    var tk := KingOf(b, them);
    Coords(tk);
    var t: Square := if File(tk) < 7 then tk + 1 else tk - 1;
    Coords(t);
    assert KingStep(tk, t) by { hide File, Rank; }
    assert Attacker(b, them, tk, t, Occupied(b) - {k});
    assert t in AllThreatsBB(b, them, k);
  }

  /** set_extra_bitboards. */
  method SetExtraBitboards(v: View) returns (st: StateInfo)
    requires HasKing(v.board, White) && HasKing(v.board, Black) && |v.st.threats| == 7
    requires TypesSynced(v.board, v.byType) && ColorsSynced(v.board, v.byColor)
    ensures PinsFresh(v.board, st) && CheckSquaresFresh(v.board, v.side, st) && ThreatsFresh(v.board, v.side, st)
    ensures st ==
            v.st.(blockers := st.blockers, pinners := st.pinners, checkSquares := st.checkSquares,
                  threats := st.threats)
    ensures |st.threats| == 7
  {
    hide BlockersBB, PinnersBB, CheckSquaresBB, KingOf, HasKing, TypesSynced, ColorsSynced, AllThreatsBB, ThreatsBB;
    var whiteBlockers, blackPinners := SliderBlockers(v, White);
    var blackBlockers, whitePinners := SliderBlockers(v, Black);
    var checkSquares := CheckSquares(v);
    st := v.st.(blockers := [whiteBlockers, blackBlockers], pinners := [whitePinners, blackPinners],
                checkSquares := checkSquares, threats := v.st.threats[0 := {}]);
  }

  /** The checkers of a child that is not in check. */
  lemma NoCheckers(b: Board, c: Color)
    requires HasKing(b, c) && !InCheck(b, c)
    ensures AttackersBB(b, Flip(c), KingOf(b, c), Occupied(b)) == {}
  {
    hide Hits;
  }
}
