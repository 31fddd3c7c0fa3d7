/** The generator's main theorem, and the direct legality test that refines it. */
module Exactness {
  import opened Squares
  import opened Types
  import opened Board
  import opened Rules
  import opened Attacks
  import opened Pins
  import opened Derived
  import opened State
  import opened Views
  import opened Play
  import opened MoveGen
  import opened LegalMoves
  import opened EpLegal
  import opened CastleLegal
  import opened Emission

  /** Everything the generator reads agrees with the position p; k is the mover's king. */
  ghost predicate Scene(p: Pos, v: View, k: Square) {
    && Reads(p.board, p.side, k, v)
    && v.st.epSquare == p.ep && v.st.castlingRights == p.rights && v.castlingRookSquare == p.rooks
    && forall r :: r in p.rights ==> r in p.rooks && r in v.castlingPath
                                     && (IsKing(p.board, r.color, k) ==>
                                           v.castlingPath[r] == set x: Square | CastlingPath(r, k, p.rooks[r], x))
  }

  // ----- castling -----

  lemma HeldRight(p: Pos, r: Right, k: Square)
    requires WellFormed(p) && r in p.rights && IsKing(p.board, r.color, k)
    ensures RightHome(p.board, p.rooks, r, k)
  {
    var k': Square :| RightHome(p.board, p.rooks, r, k');
    KingUnique(p.board, r.color, k, k');
  }

  lemma CastleEntryMeans(p: Pos, v: View, k: Square, r: Right, m: Move)
    requires WellFormed(p) && Scene(p, v, k) && r.color == p.side && !Attacked(p.board, Flip(p.side), k)
    ensures |v.byType| == 7 && |v.st.blockers| == 2
    ensures CastleEntry(v, k, AllThreatsBB(p.board, Flip(p.side), k), r, m)
            <==> m.kind == Castling && CastlingRight(p.side, m) == r && Legal(p, m)
  {
    var b, us := p.board, p.side;
    var attacked := AllThreatsBB(b, Flip(us), k);
    if r in p.rights && m == Move(Castling, k, p.rooks[r], Knight) {
      HeldRight(p, r, k);
      RightBoard(p, k, r, m);
      CastleOkMeans(b, us, v, k, r, p.rooks[r], attacked) by { hide WellFormed, RightHome, CastlingPath; }
    }
    if m.kind == Castling && CastlingRight(us, m) == r && PseudoLegal(p, m) {
      KingUnique(b, us, k, m.from);
    }
    hide WellFormed, After, CastleOk, CanCastle, Occupied, Attacked, IsKing, RightHome, AllThreatsBB;
  }

  /** Legal castling, spelled out for a held right. */
  lemma RightBoard(p: Pos, k: Square, r: Right, m: Move)
    requires WellFormed(p) && r in p.rights && r.color == p.side && RightHome(p.board, p.rooks, r, k)
    requires !Attacked(p.board, Flip(p.side), k) && m == Move(Castling, k, p.rooks[r], Knight)
    ensures CastlingRight(p.side, m) == r
    ensures Legal(p, m) <==>
              && (forall x: Square :: CastlingPath(r, k, p.rooks[r], x) ==> p.board[x] == NoPiece)
              && (forall x: Square :: Span(k, KingTarget(r), x) ==> !Threatened(p.board, Flip(p.side), k, x))
              && !Blocker(p.board, Flip(p.side), k, p.rooks[r])
  {
    var b, us, rook := p.board, p.side, p.rooks[r];
    var b' := After(b, us, m);
    assert b[k] == Piece(us, King) && b[rook] == Piece(us, Rook);
    assert CastlingRight(us, m) == r;
    forall x: Square
      ensures Attacked(b, Flip(us), x) <==> Threatened(b, Flip(us), k, x)
    {
      ThreatenedIsAttacked(b, Flip(us), k, x);
    }
    hide Threatened, Attacked, Inside;
    if PseudoLegal(p, m) {
      KingsAfter(p, m);
      CheckIs(b', us, KingTarget(r));
      assert CastlingScene(b, b', us, r, k, rook);
      assert Span(k, KingTarget(r), KingTarget(r));
      CastlingSafe(b, b', us, r, k, rook);
    }
    hide WellFormed, After, Blocker, IsKing, RightHome, CastlingPath, KingTarget;
  }

  lemma CastleOkMeans(b: Board, us: Color, v: View, k: Square, r: Right, rook: Square, attacked: Bitboard)
    requires Reads(b, us, k, v) && r.color == us && r in v.st.castlingRights
    requires r in v.castlingRookSquare && v.castlingRookSquare[r] == rook && r in v.castlingPath
    requires v.castlingPath[r] == set x: Square | CastlingPath(r, k, rook, x)
    requires Rank(k) == BackRank(us) && (r.wing == KingSide <==> rook > k)
    requires attacked == AllThreatsBB(b, Flip(us), k)
    ensures CastleOk(v, k, attacked, r) <==>
              && (forall x: Square :: CastlingPath(r, k, rook, x) ==> b[x] == NoPiece)
              && (forall x: Square :: Span(k, KingTarget(r), x) ==> !Threatened(b, Flip(us), k, x))
              && !Blocker(b, Flip(us), k, rook)
  {
    hide *;
    CastleReads(b, us, k, v);
    TargetMade(r, k, rook);
    CastleOkIs(v, k, attacked, r, rook, KingTarget(r));
    PathVacant(b, r, k, rook, v.castlingPath[r]);
    SpanSafe(b, Flip(us), k, KingTarget(r));
    BlockerListed(b, Flip(us), k, rook);
  }

  lemma CastleReads(b: Board, us: Color, k: Square, v: View)
    requires Reads(b, us, k, v)
    ensures |v.byType| == 7 && |v.st.blockers| == 2 && v.side == us && Pieces(v) == Occupied(b)
    ensures 0 <= ColorIndex(us) < 2 && v.st.blockers[ColorIndex(us)] == BlockersBB(b, Flip(us), k)
  {
  }

  lemma TargetMade(r: Right, k: Square, rook: Square)
    requires Rank(k) == BackRank(r.color) && (r.wing == KingSide <==> rook > k)
    ensures MakeSquare(if rook > k then 6 else 2, Rank(k)) == KingTarget(r)
  {
  }

  lemma CastleOkIs(v: View, k: Square, attacked: Bitboard, r: Right, rook: Square, kto: Square)
    requires |v.byType| == 7 && |v.st.blockers| == 2 && 0 <= ColorIndex(v.side) < 2
    requires r in v.st.castlingRights && r in v.castlingRookSquare && v.castlingRookSquare[r] == rook &&
             r in v.castlingPath
    requires MakeSquare(if rook > k then 6 else 2, Rank(k)) == kto
    ensures CastleOk(v, k, attacked, r) <==>
              && v.castlingPath[r] * Pieces(v) == {}
              && BetweenBB(k, kto) * attacked == {}
              && rook !in v.st.blockers[ColorIndex(v.side)]
  {
    hide Pieces, BetweenBB, MakeSquare;
  }

  lemma PathVacant(b: Board, r: Right, k: Square, rook: Square, path: Bitboard)
    requires path == set x: Square | CastlingPath(r, k, rook, x)
    ensures path * Occupied(b) == {} <==> forall x: Square :: CastlingPath(r, k, rook, x) ==> b[x] == NoPiece
  {
    hide CastlingPath;
    forall x: Square
      ensures x in path * Occupied(b) <==> CastlingPath(r, k, rook, x) && b[x] != NoPiece
    {
    }
    hide Occupied;
  }

  lemma SpanSafe(b: Board, them: Color, k: Square, kto: Square)
    ensures BetweenBB(k, kto) * AllThreatsBB(b, them, k) == {}
            <==> forall x: Square :: Span(k, kto, x) ==> !Threatened(b, them, k, x)
  {
    hide Span, Threatened;
    forall x: Square
      ensures x in BetweenBB(k, kto) * AllThreatsBB(b, them, k) <==> Span(k, kto, x) && Threatened(b, them, k, x)
    {
    }
    hide BetweenBB, AllThreatsBB;
  }

  lemma BlockerListed(b: Board, them: Color, k: Square, x: Square)
    ensures x in BlockersBB(b, them, k) <==> Blocker(b, them, k, x)
  {
    hide Blocker;
  }

  // ----- the theorem, one kind of move at a time -----

  /** The targets of the two quiet-of-check stages split every square the mover may enter. */
  lemma TargetsSplit(b: Board, us: Color, k: Square, v: View, t: Square)
    requires Reads(b, us, k, v)
    ensures |v.byType| == 7 && |v.byColor| == 2
    ensures t in StageTarget(v, k, Captures) <==> IsColor(b, Flip(us), t)
    ensures t in StageTarget(v, k, Quiets) <==> b[t] == NoPiece
  {
    hide AttackersBB, Blocker, IsKing;
  }

  lemma EvasionTarget(b: Board, us: Color, k: Square, v: View, a: Square, t: Square)
    requires Reads(b, us, k, v)
    requires forall a': Square :: Attacker(b, Flip(us), a', k, Occupied(b)) <==> a' == a
    ensures |v.byType| == 7 && |v.byColor| == 2 && v.st.checkers == {a} && !MoreThanOne(v.st.checkers)
    ensures t in StageTarget(v, k, Evasions) <==> Span(k, a, t)
  {
    assert v.st.checkers == {a};
    hide Span, Attacker, Blocker, IsKing, TypesSynced, ColorsSynced;
    TypesSizes(b, v);
  }

  lemma TypesSizes(b: Board, v: View)
    requires TypesSynced(b, v.byType) && ColorsSynced(b, v.byColor)
    ensures |v.byType| == 7 && |v.byColor| == 2
  {
  }

  /** The entries of a whole generate_legal call. */
  function LegalEntries(v: View, k: Square, attacked: Bitboard, m: Move): nat
    requires |v.byType| == 7 && |v.byColor| == 2 && |v.st.blockers| == 2
  {
    if v.st.checkers != {} then StageEntries(v, k, attacked, Evasions, m)
    else StageEntries(v, k, attacked, Captures, m) + StageEntries(v, k, attacked, Quiets, m)
  }

  /** One stage for a move word, with the piece generators' share spelled out. */
  lemma StageSum(b: Board, us: Color, k: Square, v: View, stage: GenType, m: Move)
    requires Reads(b, us, k, v) && (stage == Evasions ==> v.st.checkers != {})
    ensures |v.byType| == 7 && |v.byColor| == 2
    ensures var attacked := AllThreatsBB(b, Flip(us), k);
            StageEntries(v, k, attacked, stage, m) ==
            (if stage == Evasions && MoreThanOne(v.st.checkers) then 0 else
               PawnEntries(v, k, StageTarget(v, k, stage), stage, m)
               + Bit(MoverEntry(b, us, k, StageTarget(v, k, stage), m)))
            + Bit(KingMoveEntry(b, us, k, stage, m))
            + (if stage != Quiets then 0 else
                 Bit(CastleEntry(v, k, attacked, Right(us, KingSide), m))
                 + Bit(CastleEntry(v, k, attacked, Right(us, QueenSide), m)))
  {
    ReadsSizes(b, us, k, v);
    hide Reads, PawnEntries, PieceEntry, MoverEntry, KingEntry, KingMoveEntry, CastleEntry, StageTarget, AllThreatsBB,
         MoreThanOne;
    KingCount(b, us, k, v, stage, m);
    if !(stage == Evasions && MoreThanOne(v.st.checkers)) {
      PieceCount(b, us, k, v, StageTarget(v, k, stage), m);
    }
  }

  lemma ReadsSizes(b: Board, us: Color, k: Square, v: View)
    requires Reads(b, us, k, v)
    ensures |v.byType| == 7 && |v.byColor| == 2 && |v.st.blockers| == 2 && v.board == b && v.side == us
    ensures forall a: Square :: a in v.st.checkers <==> Attacker(b, Flip(us), a, k, Occupied(b))
    ensures IsKing(b, us, k)
  {
    hide Attacker, Blocker, Occupied;
  }

  /** Out of check or with a single checker, a stage's target is what SafeMover asks; with two
      checkers no square satisfies it. */
  lemma CheckMask(b: Board, us: Color, k: Square, v: View, t: Square)
    requires Reads(b, us, k, v)
    ensures |v.byType| == 7 && |v.byColor| == 2
    ensures var met := forall a: Square :: Attacker(b, Flip(us), a, k, Occupied(b)) ==> Span(k, a, t);
            && (v.st.checkers == {} ==> met)
            && (v.st.checkers != {} && !MoreThanOne(v.st.checkers) ==> (met <==> t in StageTarget(v, k, Evasions)))
            && (v.st.checkers != {} && MoreThanOne(v.st.checkers) ==> !met)
  {
    ReadsSizes(b, us, k, v);
    hide Reads, Span, Occupied, Attacker;
    if v.st.checkers != {} {
      MoreThanOneMembers(v.st.checkers);
      if MoreThanOne(v.st.checkers) {
        var a1, a2 :| a1 in v.st.checkers && a2 in v.st.checkers && a1 != a2;
        TwoCheckersOneSquare(b, Flip(us), k, a1, a2, t);
      } else {
        var a := Lsb(v.st.checkers);
        EvasionTarget(b, us, k, v, a, t);
      }
    }
  }

  // -- promotions --

  lemma PromotionExact(p: Pos, v: View, k: Square, m: Move)
    requires WellFormed(p) && Scene(p, v, k) && m.kind == Promotion
    ensures |v.byType| == 7 && |v.byColor| == 2 && |v.st.blockers| == 2
    ensures LegalEntries(v, k, AllThreatsBB(p.board, Flip(p.side), k), m) == Bit(Legal(p, m))
  {
    var b, us := p.board, p.side;
    ReadsSizes(b, us, k, v);
    PromotionLegal(p, m, k);
    CheckMask(b, us, k, v, m.to);
    StageEntriesPromotion(b, us, k, v, Captures, m);
    StageEntriesPromotion(b, us, k, v, Quiets, m);
    if v.st.checkers != {} {
      StageEntriesPromotion(b, us, k, v, Evasions, m);
    }
    PromotionStages(b[m.to] != NoPiece, m.promo);
    hide WellFormed, Scene, Legal, StageEntries, AllThreatsBB, MoreThanOne, StageTarget, PromotesIn, Moves, PinFree,
         Attacker, Span, Occupied;
  }

  /** Every promotion belongs to exactly one of the two stages, and to the evasions. */
  lemma PromotionStages(enemy: bool, promo: Promo)
    ensures PromotesIn(Evasions, enemy, promo)
    ensures Bit(PromotesIn(Captures, enemy, promo)) + Bit(PromotesIn(Quiets, enemy, promo)) == 1
  {
  }

  lemma StageEntriesPromotion(b: Board, us: Color, k: Square, v: View, stage: GenType, m: Move)
    requires Reads(b, us, k, v) && m.kind == Promotion && (stage == Evasions ==> v.st.checkers != {})
    ensures |v.byType| == 7 && |v.byColor| == 2 && |v.st.blockers| == 2
    ensures StageEntries(v, k, AllThreatsBB(b, Flip(us), k), stage, m) ==
            if stage == Evasions && MoreThanOne(v.st.checkers) then 0 else
              Bit(PawnPromotionEntry(b, us, k, stage, StageTarget(v, k, stage), m))
  {
    StageSum(b, us, k, v, stage, m);
    if !(stage == Evasions && MoreThanOne(v.st.checkers)) {
      PawnPromotionCount(b, us, k, v, StageTarget(v, k, stage), stage, m);
    }
    hide Reads, PawnEntries, PawnPromotionEntry, StageTarget, AllThreatsBB, MoreThanOne, CastleOk, StageEntries;
  }

  /** A promotion word is legal exactly when the pawn's move is and the king is safe. */
  lemma PromotionLegal(p: Pos, m: Move, k: Square)
    requires WellFormed(p) && m.kind == Promotion && IsKing(p.board, p.side, k)
    ensures Legal(p, m) <==>
              && p.board[m.from] == Piece(p.side, Pawn) && RelativeRank(p.side, m.from) == 6
              && Moves(p.board, p.side, m.from, m.to) && SafeMover(p.board, p.side, k, m.from, m.to)
  {
    var b, us := p.board, p.side;
    if Moves(b, us, m.from, m.to) && b[m.from] == Piece(us, Pawn) {
      PawnRanks(b, us, m.from, m.to);
      assert m.from != k;
      NonKingSafe(p, m, k);
    }
    hide WellFormed, SafeMover, After, PawnPush, PawnDouble, PawnCapture, Hits, RelativeRank, IsKing;
  }

  /** A pawn reaches the last rank exactly from the rank before it. */
  lemma PawnRanks(b: Board, us: Color, from: Square, to: Square)
    requires Moves(b, us, from, to) && b[from] == Piece(us, Pawn)
    ensures RelativeRank(us, to) == 7 <==> RelativeRank(us, from) == 6
    ensures PawnsInside(b) ==> (1 <= Rank(to) <= 6 <==> RelativeRank(us, from) != 6)
  {
    Coords(from); Coords(to);
    hide File, Rank;
  }

  // -- normal moves --

  lemma NormalLegal(p: Pos, m: Move, k: Square)
    requires WellFormed(p) && m.kind == Normal && IsKing(p.board, p.side, k)
    ensures Legal(p, m) <==>
              && m.promo == Knight && Moves(p.board, p.side, m.from, m.to)
              && (p.board[m.from].kind == Pawn ==> RelativeRank(p.side, m.from) != 6)
              && if m.from == k then !Threatened(p.board, Flip(p.side), k, m.to)
                 else SafeMover(p.board, p.side, k, m.from, m.to)
  {
    var b, us := p.board, p.side;
    if Moves(b, us, m.from, m.to) {
      if m.from == k {
        KingSafe(p, m, k);
      } else {
        NonKingSafe(p, m, k);
      }
      if b[m.from].kind == Pawn {
        PawnRanks(b, us, m.from, m.to);
      }
    }
    hide WellFormed, SafeMover, Threatened, After, PawnPush, PawnDouble, PawnCapture, Hits, RelativeRank, IsKing, Rank;
  }

  /** A king's own moves need no occupancy. */
  lemma KingMoves(b: Board, us: Color, k: Square, to: Square)
    requires IsKing(b, us, k)
    ensures Moves(b, us, k, to) <==> KingStep(k, to) && !IsColor(b, us, to)
  {
    hide KingStep;
  }

  lemma StageEntriesNormal(b: Board, us: Color, k: Square, v: View, stage: GenType, m: Move)
    requires Reads(b, us, k, v) && m.kind == Normal && (stage == Evasions ==> v.st.checkers != {})
    ensures |v.byType| == 7 && |v.byColor| == 2 && |v.st.blockers| == 2
    ensures StageEntries(v, k, AllThreatsBB(b, Flip(us), k), stage, m) ==
            (if stage == Evasions && MoreThanOne(v.st.checkers) then 0 else
               Bit(PawnNormalEntry(b, us, k, stage, StageTarget(v, k, stage), m))
               + Bit(MoverEntry(b, us, k, StageTarget(v, k, stage), m)))
            + Bit(KingMoveEntry(b, us, k, stage, m))
  {
    StageSum(b, us, k, v, stage, m);
    if !(stage == Evasions && MoreThanOne(v.st.checkers)) {
      PawnNormalCount(b, us, k, v, StageTarget(v, k, stage), stage, m);
    }
    hide Reads, PawnEntries, PawnNormalEntry, MoverEntry, KingMoveEntry, StageTarget, AllThreatsBB, MoreThanOne,
         CastleOk, StageEntries;
  }

  /** The stage's say over a destination that is not the mover's own. */
  predicate InStage(b: Board, stage: GenType, target: Bitboard, t: Square) {
    if stage == Evasions then t in target else StageTakes(stage, b[t] != NoPiece)
  }

  predicate NormalShape(b: Board, us: Color, m: Move) {
    && m.promo == Knight && Moves(b, us, m.from, m.to)
    && (b[m.from].kind == Pawn ==> RelativeRank(us, m.from) != 6)
  }

  /** Who is on the from-square decides which of the three entries can fire. */
  lemma NormalEntries(b: Board, us: Color, k: Square, stage: GenType, target: Bitboard, m: Move)
    requires IsKing(b, us, k) && m.kind == Normal
    requires m.to in target <==> !IsColor(b, us, m.to) && InStage(b, stage, target, m.to)
    ensures m.from != k ==>
              && !KingMoveEntry(b, us, k, stage, m)
              && Bit(PawnNormalEntry(b, us, k, stage, target, m)) + Bit(MoverEntry(b, us, k, target, m)) ==
                 Bit(NormalShape(b, us, m) && PinFree(b, us, k, m.from, m.to) && InStage(b, stage, target, m.to))
    ensures m.from == k ==>
              && !PawnNormalEntry(b, us, k, stage, target, m) && !MoverEntry(b, us, k, target, m)
  {
    if m.from != k && IsColor(b, us, m.from) {
      KingUniquePiece(b, us, k, m.from);
    }
    hide PinFree, Threatened, Hits, PawnPush, PawnDouble, PawnCapture, RelativeRank, KingStep, Occupied;
  }

  lemma KingEntries(b: Board, us: Color, k: Square, stage: GenType, m: Move)
    requires IsKing(b, us, k) && m.kind == Normal && m.from == k
    ensures KingMoveEntry(b, us, k, stage, m) <==>
              && NormalShape(b, us, m) && !Threatened(b, Flip(us), k, m.to)
              && (stage == Evasions || StageTakes(stage, b[m.to] != NoPiece))
  {
    KingMoves(b, us, k, m.to);
    hide Threatened, Moves, RelativeRank, KingStep;
  }

  /** A square that answers a check is empty or the checker's. */
  lemma AnswerNotOwn(b: Board, us: Color, k: Square, a: Square, t: Square)
    requires Attacker(b, Flip(us), a, k, Occupied(b)) && Span(k, a, t)
    ensures !IsColor(b, us, t)
  {
    if IsColor(b, us, t) && t != a {
      if Slides(b[a].kind) {
        NotBetween(b, Flip(us), a, k, t) by { hide Inside; }
      } else {
        SpanOfLeaper(b, Flip(us), a, k, t);
      }
    }
    hide Inside, Hits;
  }

  lemma StageTargetMeans(b: Board, us: Color, k: Square, v: View, stage: GenType, t: Square)
    requires Reads(b, us, k, v)
    requires stage == Evasions ==> v.st.checkers != {} && !MoreThanOne(v.st.checkers)
    ensures |v.byType| == 7 && |v.byColor| == 2
    ensures var target := StageTarget(v, k, stage);
            t in target <==> !IsColor(b, us, t) && InStage(b, stage, target, t)
  {
    ReadsSizes(b, us, k, v);
    TargetsSplit(b, us, k, v, t);
    assert IsColor(b, us, t) || IsColor(b, Flip(us), t) || b[t] == NoPiece;
    if stage == Evasions {
      var a := Lsb(v.st.checkers);
      MoreThanOneMembers(v.st.checkers);
      EvasionTarget(b, us, k, v, a, t);
      if Span(k, a, t) {
        AnswerNotOwn(b, us, k, a, t);
      }
    }
    hide Reads, Span, StageTarget, Attacker, Occupied, MoreThanOne;
  }

  lemma StageNormal(b: Board, us: Color, k: Square, v: View, stage: GenType, m: Move)
    requires Reads(b, us, k, v) && m.kind == Normal && (stage == Evasions ==> v.st.checkers != {})
    ensures |v.byType| == 7 && |v.byColor| == 2 && |v.st.blockers| == 2
    ensures m.from != k ==>
              StageEntries(v, k, AllThreatsBB(b, Flip(us), k), stage, m) ==
              if stage == Evasions && MoreThanOne(v.st.checkers) then 0 else
                Bit(NormalShape(b, us, m) && PinFree(b, us, k, m.from, m.to)
                    && InStage(b, stage, StageTarget(v, k, stage), m.to))
    ensures m.from == k ==>
              StageEntries(v, k, AllThreatsBB(b, Flip(us), k), stage, m) ==
              Bit(NormalShape(b, us, m) && !Threatened(b, Flip(us), k, m.to)
                  && (stage == Evasions || StageTakes(stage, b[m.to] != NoPiece)))
  {
    ReadsSizes(b, us, k, v);
    StageEntriesNormal(b, us, k, v, stage, m);
    if m.from == k {
      KingEntries(b, us, k, stage, m);
    }
    if stage == Evasions && MoreThanOne(v.st.checkers) {
      if m.from != k {
        NormalEntries(b, us, k, stage, {}, m) by { assert m.to in {} ==> false; EmptyTarget(b, us, stage, m.to); }
      }
    } else {
      StageTargetMeans(b, us, k, v, stage, m.to);
      NormalEntries(b, us, k, stage, StageTarget(v, k, stage), m);
    }
    hide Reads, PawnNormalEntry, MoverEntry, KingMoveEntry, StageTarget, AllThreatsBB, MoreThanOne, StageEntries,
         NormalShape,
         PinFree, Threatened, IsKing, InStage, Attacker;
  }

  lemma EmptyTarget(b: Board, us: Color, stage: GenType, t: Square)
    requires stage == Evasions
    ensures t in {} <==> !IsColor(b, us, t) && InStage(b, stage, {}, t)
  {
  }

  lemma NormalExact(p: Pos, v: View, k: Square, m: Move)
    requires WellFormed(p) && Scene(p, v, k) && m.kind == Normal
    ensures |v.byType| == 7 && |v.byColor| == 2 && |v.st.blockers| == 2
    ensures LegalEntries(v, k, AllThreatsBB(p.board, Flip(p.side), k), m) == Bit(Legal(p, m))
  {
    var b, us := p.board, p.side;
    ReadsSizes(b, us, k, v);
    NormalLegal(p, m, k);
    CheckMask(b, us, k, v, m.to);
    StageNormal(b, us, k, v, Captures, m);
    StageNormal(b, us, k, v, Quiets, m);
    if v.st.checkers != {} {
      StageNormal(b, us, k, v, Evasions, m);
    }
    hide WellFormed, Scene, Legal, StageEntries, AllThreatsBB, MoreThanOne, StageTarget, Moves, PinFree, Attacker,
         Span, Occupied,
         Threatened, RelativeRank, IsKing, Reads;
  }

  // -- en passant --

  lemma EpExact(p: Pos, v: View, k: Square, m: Move)
    requires WellFormed(p) && Scene(p, v, k) && m.kind == EnPassant
    ensures |v.byType| == 7 && |v.byColor| == 2 && |v.st.blockers| == 2
    ensures LegalEntries(v, k, AllThreatsBB(p.board, Flip(p.side), k), m) == Bit(Legal(p, m))
  {
    hide *;
    var b, us := p.board, p.side;
    SceneReads(p, v, k);
    ReadsSizes(b, us, k, v);
    CheckersMean(b, us, k, v);
    EpMoveLegal(p, m, k);
    EpRank(us, m.from, m.to);
    if p.ep.Some? {
      EpSoundRank(p);
    }
    EntriesByStage(v, k, AllThreatsBB(b, Flip(us), k), m);
    if v.st.checkers != {} {
      StageEntriesEp(b, us, k, v, Evasions, m);
      if p.ep.Some? {
        var a := Lsb(v.st.checkers);
        EpInCheck(p, k, a);
        MoreThanOneMembers(v.st.checkers);
        EvasionTarget(b, us, k, v, a, p.ep.value + Up(us));
      }
      EpEntryMeans(p, k, v, Evasions, m);
    } else {
      StageEntriesEp(b, us, k, v, Captures, m);
      StageEntriesEp(b, us, k, v, Quiets, m);
      EpEntryMeans(p, k, v, Captures, m);
      EpEntryMeans(p, k, v, Quiets, m);
    }
    SameBit(Legal(p, m));
  }

  lemma SameBit(x: bool)
    ensures Bit(x) == if x then 1 else 0
  {
  }

  lemma EpEntryMeans(p: Pos, k: Square, v: View, stage: GenType, m: Move)
    requires m.kind == EnPassant && v.st.epSquare == p.ep && v.side == p.side
    requires |v.byType| == 7 && |v.byColor| == 2 && |v.st.blockers| == 2 && (stage == Evasions ==> v.st.checkers != {})
    ensures var us := p.side;
            var target := StageTarget(v, k, stage);
            Bit(PawnEpEntry(p.board, us, k, v, stage, target, m)) ==
            if && m.promo == Knight && p.ep == Some(m.to) && p.board[m.from] == Piece(us, Pawn) &&
               RelativeRank(us, m.from) != 6
               && PawnStep(us, m.from, m.to) && PinFree(p.board, us, k, m.from, m.to)
               && stage != Quiets && !(stage == Evasions && m.to + Up(us) in target) then 1 else 0
  {
    hide PinFree, PawnStep, RelativeRank, StageTarget;
  }

  lemma EpSoundRank(p: Pos)
    requires WellFormed(p) && p.ep.Some?
    ensures RelativeRank(p.side, p.ep.value) == 5
  {
  }

  lemma EpRank(us: Color, from: Square, e: Square)
    ensures PawnStep(us, from, e) && RelativeRank(us, e) == 5 ==> RelativeRank(us, from) == 4
  {
  }

  lemma StageEntriesEp(b: Board, us: Color, k: Square, v: View, stage: GenType, m: Move)
    requires Reads(b, us, k, v) && m.kind == EnPassant && (stage == Evasions ==> v.st.checkers != {})
    ensures |v.byType| == 7 && |v.byColor| == 2 && |v.st.blockers| == 2
    ensures StageEntries(v, k, AllThreatsBB(b, Flip(us), k), stage, m) ==
            if stage == Evasions && MoreThanOne(v.st.checkers) then 0 else
              Bit(PawnEpEntry(b, us, k, v, stage, StageTarget(v, k, stage), m))
  {
    StageSum(b, us, k, v, stage, m);
    if !(stage == Evasions && MoreThanOne(v.st.checkers)) {
      PawnEpCount(b, us, k, v, StageTarget(v, k, stage), stage, m);
    }
    hide Reads, PawnEntries, PawnEpEntry, StageTarget, AllThreatsBB, MoreThanOne, CastleOk, StageEntries;
  }

  // -- castling --

  lemma CastlingExact(p: Pos, v: View, k: Square, m: Move)
    requires WellFormed(p) && Scene(p, v, k) && m.kind == Castling
    ensures |v.byType| == 7 && |v.byColor| == 2 && |v.st.blockers| == 2
    ensures LegalEntries(v, k, AllThreatsBB(p.board, Flip(p.side), k), m) == Bit(Legal(p, m))
  {
    hide *;
    var b, us := p.board, p.side;
    SceneReads(p, v, k);
    ReadsSizes(b, us, k, v);
    CheckersMean(b, us, k, v);
    EntriesByStage(v, k, AllThreatsBB(b, Flip(us), k), m);
    if v.st.checkers != {} {
      StageEntriesCastle(b, us, k, v, Evasions, m);
      CastleOutOfCheck(p, m, k);
      BitNot(Legal(p, m));
    } else {
      StageEntriesCastle(b, us, k, v, Captures, m);
      StageEntriesCastle(b, us, k, v, Quiets, m);
      CastleEntryMeans(p, v, k, Right(us, KingSide), m);
      CastleEntryMeans(p, v, k, Right(us, QueenSide), m);
      OneWing(us, m, Legal(p, m));
    }
  }

  lemma SceneReads(p: Pos, v: View, k: Square)
    requires Scene(p, v, k)
    ensures Reads(p.board, p.side, k, v) && v.st.epSquare == p.ep
    ensures Right(p.side, KingSide).color == p.side && Right(p.side, QueenSide).color == p.side
  {
    hide Reads;
  }

  lemma CheckersMean(b: Board, us: Color, k: Square, v: View)
    requires Reads(b, us, k, v)
    ensures v.st.checkers != {} <==> Attacked(b, Flip(us), k)
    ensures v.st.checkers == AttackersBB(b, Flip(us), k, Occupied(b)) && IsKing(b, us, k)
  {
    hide Attacker, TypesSynced, ColorsSynced, BlockersBB;
    if v.st.checkers != {} {
      var a: Square :| a in v.st.checkers;
      assert Attacker(b, Flip(us), a, k, Occupied(b));
    }
    if a: Square :| Attacker(b, Flip(us), a, k, Occupied(b)) {
      assert a in v.st.checkers;
    }
  }

  lemma CastleOutOfCheck(p: Pos, m: Move, k: Square)
    requires m.kind == Castling && IsKing(p.board, p.side, k) && Attacked(p.board, Flip(p.side), k)
    ensures !Legal(p, m)
  {
    if PseudoLegal(p, m) {
      KingUnique(p.board, p.side, k, m.from);
    }
    hide Attacked, Span, IsKing, After;
  }

  lemma BitNot(x: bool)
    ensures !x ==> Bit(x) == 0
  {
  }

  lemma OneWing(us: Color, m: Move, legal: bool)
    requires m.kind == Castling
    ensures Bit(m.kind == Castling && CastlingRight(us, m) == Right(us, KingSide) && legal)
            + Bit(m.kind == Castling && CastlingRight(us, m) == Right(us, QueenSide) && legal) == Bit(legal)
  {
  }

  lemma StageEntriesCastle(b: Board, us: Color, k: Square, v: View, stage: GenType, m: Move)
    requires Reads(b, us, k, v) && m.kind == Castling && (stage == Evasions ==> v.st.checkers != {})
    ensures |v.byType| == 7 && |v.byColor| == 2 && |v.st.blockers| == 2
    ensures var attacked := AllThreatsBB(b, Flip(us), k);
            StageEntries(v, k, attacked, stage, m) ==
            if stage != Quiets then 0 else
              Bit(CastleEntry(v, k, attacked, Right(us, KingSide), m)) +
                Bit(CastleEntry(v, k, attacked, Right(us, QueenSide), m))
  {
    StageSum(b, us, k, v, stage, m);
    ReadsSizes(b, us, k, v);
    if !(stage == Evasions && MoreThanOne(v.st.checkers)) {
      PawnCastlingCount(v, k, StageTarget(v, k, stage), stage, m);
    }
    hide Reads, PawnEntries, StageTarget, AllThreatsBB, MoreThanOne, CastleEntry, StageEntries;
  }

  // ----- the main theorem -----

  lemma EntriesExact(p: Pos, v: View, k: Square, m: Move)
    requires WellFormed(p) && Scene(p, v, k)
    ensures |v.byType| == 7 && |v.byColor| == 2 && |v.st.blockers| == 2
    ensures LegalEntries(v, k, AllThreatsBB(p.board, Flip(p.side), k), m) == Bit(Legal(p, m))
  {
    match m.kind {
      case Normal => NormalExact(p, v, k, m);
      case Promotion => PromotionExact(p, v, k, m);
      case EnPassant => EpExact(p, v, k, m);
      case Castling => CastlingExact(p, v, k, m);
    }
    hide *;
  }

  lemma SceneHolds(z: Zobrist, p: Pos, v: View)
    requires WellFormed(p) && Represents(z, p, v)
    ensures HasKing(p.board, p.side) && Scene(p, v, KingOf(p.board, p.side))
    ensures Generable(v) && KingSquare(v, v.side) == KingOf(p.board, p.side) && v.side == p.side && v.board == p.board
  {
    hide *;
    WellFormedKings(p);
    RepresentedPieces(z, p, v);
    RepresentedFields(z, p, v);
    SceneAssembled(p, v, KingOf(p.board, p.side));
  }

  lemma WellFormedKings(p: Pos)
    requires WellFormed(p)
    ensures HasKing(p.board, White) && HasKing(p.board, Black)
    ensures HasKing(p.board, p.side) && IsKing(p.board, p.side, KingOf(p.board, p.side))
    ensures forall r :: r in p.rights ==> r in p.rooks && HasKing(p.board, r.color)
  {
    hide KingOf, EpSound;
  }

  lemma RepresentedFields(z: Zobrist, p: Pos, v: View)
    requires HasKing(p.board, White) && HasKing(p.board, Black) && Represents(z, p, v) && HasKing(p.board, p.side)
    ensures v.board == p.board && v.side == p.side
    ensures CountersFresh(p, v.st) && PinsFresh(p.board, v.st) && ThreatsFresh(p.board, p.side, v.st)
    ensures PathsFresh(p, v.castlingRookSquare, v.castlingPath)
    ensures v.st.checkers == AttackersBB(p.board, Flip(p.side), KingOf(p.board, p.side), Occupied(p.board))
  {
    hide CheckSquaresFresh, PinsFresh, ThreatsFresh, AuxKeysFresh, MaterialFresh, PathsFresh, CountersFresh,
         TypesSynced,
         ColorsSynced, AttackersBB, HasKing, KingOf;
  }

  lemma SceneAssembled(p: Pos, v: View, k: Square)
    requires HasKing(p.board, White) && HasKing(p.board, Black) && HasKing(p.board, p.side) &&
             k == KingOf(p.board, p.side)
    requires forall r :: r in p.rights ==> r in p.rooks && HasKing(p.board, r.color)
    requires v.board == p.board && v.side == p.side && IsKing(p.board, p.side, k)
    requires TypesSynced(p.board, v.byType) && ColorsSynced(p.board, v.byColor)
    requires CountersFresh(p, v.st) && PinsFresh(p.board, v.st) && ThreatsFresh(p.board, p.side, v.st)
    requires PathsFresh(p, v.castlingRookSquare, v.castlingPath)
    requires v.st.checkers == AttackersBB(p.board, Flip(p.side), k, Occupied(p.board))
    requires PiecesCP(v, White, King) != {} && KingSquare(v, White) == KingOf(p.board, White)
    requires PiecesCP(v, Black, King) != {} && KingSquare(v, Black) == KingOf(p.board, Black)
    ensures Scene(p, v, k) && Generable(v) && KingSquare(v, v.side) == k
  {
    hide *;
    TypesSizes(p.board, v);
    PathsListed(p, v, k);
    ReadsAssembled(p.board, p.side, k, v);
    ScenePieces(p, v, k);
    EitherSide(p, v);
    GenerableAssembled(p.board, p.side, v, k);
  }

  lemma EitherSide(p: Pos, v: View)
    requires HasKing(p.board, White) && HasKing(p.board, Black) && HasKing(p.board, p.side)
    requires |v.byType| == 7 && |v.byColor| == 2 && v.side == p.side
    requires PiecesCP(v, White, King) != {} && KingSquare(v, White) == KingOf(p.board, White)
    requires PiecesCP(v, Black, King) != {} && KingSquare(v, Black) == KingOf(p.board, Black)
    ensures PiecesCP(v, v.side, King) != {} && KingSquare(v, v.side) == KingOf(p.board, p.side)
  {
    assert p.side == White || p.side == Black;
    hide PiecesCP, KingSquare, KingOf, HasKing;
  }

  lemma PathsListed(p: Pos, v: View, k: Square)
    requires HasKing(p.board, p.side) && k == KingOf(p.board, p.side)
    requires forall r :: r in p.rights ==> r in p.rooks && HasKing(p.board, r.color)
    requires CountersFresh(p, v.st) && PathsFresh(p, v.castlingRookSquare, v.castlingPath)
    ensures v.st.epSquare == p.ep && v.st.castlingRights == p.rights && v.castlingRookSquare == p.rooks
    ensures forall r :: r in p.rights ==> r in p.rooks && r in v.castlingPath
                                          && (IsKing(p.board, r.color, k) ==>
                                                v.castlingPath[r] == set x: Square | CastlingPath(r, k, p.rooks[r], x))
  {
    forall r | r in p.rights
      ensures r in v.castlingPath
    {
      assert IsKing(p.board, r.color, KingOf(p.board, r.color));
    }
    hide CastlingPath, IsKing, KingOf, HasKing;
  }

  lemma ReadsAssembled(b: Board, us: Color, k: Square, v: View)
    requires HasKing(b, White) && HasKing(b, Black) && HasKing(b, us) && k == KingOf(b, us)
    requires v.board == b && v.side == us && IsKing(b, us, k)
    requires TypesSynced(b, v.byType) && ColorsSynced(b, v.byColor) && PinsFresh(b, v.st)
    requires v.st.checkers == AttackersBB(b, Flip(us), k, Occupied(b))
    ensures Reads(b, us, k, v)
  {
    assert v.st.blockers[ColorIndex(us)] == BlockersBB(b, Flip(us), KingOf(b, us));
    hide AttackersBB, BlockersBB, PinnersBB, TypesSynced, ColorsSynced, KingOf, HasKing, IsKing, Occupied;
  }

  lemma ScenePieces(p: Pos, v: View, k: Square)
    requires Reads(p.board, p.side, k, v)
    requires v.st.epSquare == p.ep && v.st.castlingRights == p.rights && v.castlingRookSquare == p.rooks
    requires forall r :: r in p.rights ==> r in p.rooks && r in v.castlingPath
                                           && (IsKing(p.board, r.color, k) ==>
                                                 v.castlingPath[r] == set x: Square | CastlingPath(r, k, p.rooks[r], x))
    ensures Scene(p, v, k)
  {
    hide Reads, CastlingPath;
  }

  lemma GenerableAssembled(b: Board, us: Color, v: View, k: Square)
    requires HasKing(b, us) && k == KingOf(b, us) && v.board == b && v.side == us && IsKing(b, us, k)
    requires |v.byType| == 7 && |v.byColor| == 2
    requires TypesSynced(b, v.byType) && ColorsSynced(b, v.byColor) && ThreatsFresh(b, us, v.st) && Reads(b, us, k, v)
    requires PiecesCP(v, White, King) != {} && PiecesCP(v, Black, King) != {}
    requires PiecesCP(v, v.side, King) != {} && KingSquare(v, v.side) == k
    requires forall r :: r in v.st.castlingRights ==> r in v.castlingRookSquare && r in v.castlingPath
    ensures Generable(v)
  {
    ReadsSizes(b, us, k, v);
    hide AllThreatsBB, ThreatsBB, TypesSynced, ColorsSynced, KingOf, HasKing, IsKing, PiecesCP, KingSquare, Reads;
  }

  /** EntriesExact for every move word, on a represented position. */
  lemma AllEntriesExact(z: Zobrist, p: Pos, v: View)
    requires WellFormed(p) && Represents(z, p, v)
    ensures HasKing(p.board, p.side) && Generable(v) && Readable(v)
    ensures var k := KingSquare(v, v.side);
            forall m :: LegalEntries(v, k, AllThreatsBB(v.board, Flip(v.side), k), m) == Bit(Legal(p, m))
  {
    hide *;
    SceneHolds(z, p, v);
    GenerableReadable(v);
    var k := KingSquare(v, v.side);
    forall m
      ensures LegalEntries(v, k, AllThreatsBB(v.board, Flip(v.side), k), m) == Bit(Legal(p, m))
    {
      EntriesExact(p, v, k, m);
    }
  }

  // ----- the order of the whole list -----

  /** The moves of the capture stage: captures, and every promotion to a queen. */
  predicate InCaptures(b: Board, m: Move) {
    match m.kind
    case Normal => b[m.to] != NoPiece
    case Promotion => m.promo == Queen || b[m.to] != NoPiece
    case EnPassant => true
    case Castling => false
  }

  /** Out of check the whole capture stage comes before the quiet one; within a stage moves come
      in the order of Turn. */
  ghost function Order(p: Pos, m: Move): nat
    requires HasKing(p.board, p.side)
  {
    Turn(p.board, p.side, KingOf(p.board, p.side), m)
    + if InCheck(p.board, p.side) || InCaptures(p.board, m) then 0 else 19 * 4096
  }

  ghost predicate InOrder(p: Pos, list: seq<Move>)
    requires HasKing(p.board, p.side)
  {
    forall i, j :: 0 <= i < j < |list| ==> Order(p, list[i]) < Order(p, list[j])
  }

  /** Contents and order leave one list. */
  lemma {:induction false} OrderDetermines(p: Pos, r: seq<Move>, q: seq<Move>)
    requires HasKing(p.board, p.side) && InOrder(p, r) && InOrder(p, q)
    requires forall m :: Count(r, m) == Count(q, m)
    ensures r == q
  {
    hide Order;
    SameEmpty(r, q);
    if r != [] {
      CountMember(r, r[0]);
      CountMember(q, r[0]);
      CountMember(q, q[0]);
      CountMember(r, q[0]);
      var x, y := r[0], q[0];
      assert x == y;
      forall m
        ensures Count(r[1..], m) == Count(q[1..], m)
      {
        CountTail(r, m);
        CountTail(q, m);
      }
      OrderDetermines(p, r[1..], q[1..]);
    }
  }

  lemma SameEmpty(r: seq<Move>, q: seq<Move>)
    requires forall m :: Count(r, m) == Count(q, m)
    ensures r == [] <==> q == []
  {
    hide Count;
    if r != [] {
      CountMember(r, r[0]);
      CountMember(q, r[0]);
    }
    if q != [] {
      CountMember(q, q[0]);
      CountMember(r, q[0]);
    }
  }

  lemma CountMember(list: seq<Move>, m: Move)
    ensures m in list <==> Count(list, m) > 0
  {
  }

  lemma CountTail(list: seq<Move>, m: Move)
    requires list != []
    ensures Count(list, m) == Bit(m == list[0]) + Count(list[1..], m)
  {
    assert list == [list[0]] + list[1..];
    CountGrown([list[0]], list[1..], m);
    CountOne(list[0], m);
    hide Count;
  }

  /** What an entry of the two stages says of the move. */
  lemma EntryStage(b: Board, us: Color, k: Square, v: View, stage: GenType, m: Move)
    requires Reads(b, us, k, v) && stage != Evasions
    ensures |v.byType| == 7 && |v.byColor| == 2 && |v.st.blockers| == 2
    ensures StageEntries(v, k, AllThreatsBB(b, Flip(us), k), stage, m) > 0 ==> (InCaptures(b, m) <==> stage == Captures)
  {
    hide *;
    BitIs();
    NotEvasions(stage);
    match m.kind {
      case Normal =>
        StageNormal(b, us, k, v, stage, m);
        StageTakesIs(b, stage, if stage == Evasions then {} else StageTarget(v, k, stage), m);
      case Promotion =>
        StageEntriesPromotion(b, us, k, v, stage, m);
        PromotionStage(b, us, k, stage, StageTarget(v, k, stage), m);
      case EnPassant =>
        StageEntriesEp(b, us, k, v, stage, m);
        EpStage(b, us, k, v, stage, StageTarget(v, k, stage), m);
      case Castling =>
        StageEntriesCastle(b, us, k, v, stage, m);
        CastlingIsQuiet(b, m);
    }
  }

  lemma NotEvasions(stage: GenType)
    ensures stage != Evasions ==> stage == Captures || stage == Quiets
  {
  }

  lemma StageTakesIs(b: Board, stage: GenType, target: Bitboard, m: Move)
    requires m.kind == Normal && stage != Evasions
    ensures InStage(b, stage, target, m.to) <==> StageTakes(stage, b[m.to] != NoPiece)
    ensures StageTakes(stage, b[m.to] != NoPiece) ==> (InCaptures(b, m) <==> stage == Captures)
  {
  }

  lemma PromotionStage(b: Board, us: Color, k: Square, stage: GenType, target: Bitboard, m: Move)
    requires m.kind == Promotion && stage != Evasions
    ensures PawnPromotionEntry(b, us, k, stage, target, m) ==> (InCaptures(b, m) <==> stage == Captures)
  {
    hide PinFree, Moves, RelativeRank;
  }

  lemma EpStage(b: Board, us: Color, k: Square, v: View, stage: GenType, target: Bitboard, m: Move)
    requires m.kind == EnPassant && stage != Evasions
    ensures PawnEpEntry(b, us, k, v, stage, target, m) ==> stage == Captures && InCaptures(b, m)
  {
    hide PinFree, PawnStep, RelativeRank;
  }

  lemma CastlingIsQuiet(b: Board, m: Move)
    requires m.kind == Castling
    ensures !InCaptures(b, m)
  {
  }

  lemma WingsHeld(p: Pos, v: View, k: Square)
    requires WellFormed(p) && Scene(p, v, k)
    ensures WingsApart(v, k)
  {
    forall r | r in p.rights && r.color == p.side
      ensures r in p.rooks && p.rooks[r] != k && (r.wing == KingSide <==> p.rooks[r] > k)
    {
      HeldRight(p, r, k);
    }
    hide WellFormed, RightHome, CastlingPath, TypesSynced, ColorsSynced, BlockersBB, AttackersBB, IsKing;
  }

  lemma TurnBound(b: Board, us: Color, k: Square, m: Move)
    ensures Turn(b, us, k, m) < 19 * 4096
  {
    assert Phase(b, us, k, m) <= 18 by { hide Blocker; }
    hide Phase, Place;
    assert Place(b, m) < 4096;
  }

  /** The stages generate_legal runs come out in order, one after the other. */
  lemma ListInOrder(p: Pos, v: View, k: Square)
    requires WellFormed(p) && Scene(p, v, k) && HasKing(p.board, p.side) && k == KingOf(p.board, p.side)
    ensures |v.byType| == 7 && |v.byColor| == 2 && |v.st.blockers| == 2
    ensures var attacked := AllThreatsBB(p.board, Flip(p.side), k);
            InOrder(p, if v.st.checkers != {} then StageList(v, k, attacked, Evasions)
                       else StageList(v, k, attacked, Captures) + StageList(v, k, attacked, Quiets))
  {
    hide *;
    var b, us := p.board, p.side;
    var attacked := AllThreatsBB(b, Flip(us), k);
    SceneReads(p, v, k);
    ReadsSizes(b, us, k, v);
    CheckersMean(b, us, k, v);
    CheckIs(b, us, k);
    WingsHeld(p, v, k);
    if v.st.checkers != {} {
      StageInOrder(b, us, k, v, attacked, Evasions);
      OrderOneStage(p, StageList(v, k, attacked, Evasions));
    } else {
      StageInOrder(b, us, k, v, attacked, Captures);
      StageInOrder(b, us, k, v, attacked, Quiets);
      var captures, quiets := StageList(v, k, attacked, Captures), StageList(v, k, attacked, Quiets);
      forall i | 0 <= i < |captures|
        ensures InCaptures(b, captures[i])
      {
        ListedEntry(b, us, k, v, attacked, Captures, i);
      }
      forall i | 0 <= i < |quiets|
        ensures !InCaptures(b, quiets[i])
      {
        ListedEntry(b, us, k, v, attacked, Quiets, i);
      }
      OrderTwoStages(p, captures, quiets);
    }
  }

  lemma ListedEntry(b: Board, us: Color, k: Square, v: View, attacked: Bitboard, stage: GenType, i: nat)
    requires Reads(b, us, k, v) && stage != Evasions && attacked == AllThreatsBB(b, Flip(us), k)
    requires |v.byType| == 7 && |v.byColor| == 2 && |v.st.blockers| == 2
    requires i < |StageList(v, k, attacked, stage)|
    ensures InCaptures(b, StageList(v, k, attacked, stage)[i]) <==> stage == Captures
  {
    hide *;
    var list := StageList(v, k, attacked, stage);
    CountMember(list, list[i]);
    StageListCount(v, k, attacked, stage, list[i]);
    EntryStage(b, us, k, v, stage, list[i]);
  }

  lemma OrderOneStage(p: Pos, list: seq<Move>)
    requires HasKing(p.board, p.side) && InCheck(p.board, p.side)
    requires Ascends(p.board, p.side, KingOf(p.board, p.side), list)
    ensures InOrder(p, list)
  {
    hide InCheck, Turn, HasKing, KingOf, InCaptures;
  }

  lemma OrderTwoStages(p: Pos, captures: seq<Move>, quiets: seq<Move>)
    requires HasKing(p.board, p.side) && !InCheck(p.board, p.side)
    requires var k := KingOf(p.board, p.side);
             Ascends(p.board, p.side, k, captures) && Ascends(p.board, p.side, k, quiets)
    requires forall i :: 0 <= i < |captures| ==> InCaptures(p.board, captures[i])
    requires forall i :: 0 <= i < |quiets| ==> !InCaptures(p.board, quiets[i])
    ensures InOrder(p, captures + quiets)
  {
    hide InCheck, Turn, HasKing, KingOf, InCaptures;
    var list, n := captures + quiets, |captures|;
    var k := KingOf(p.board, p.side);
    forall i, j | 0 <= i < j < |list|
      ensures Order(p, list[i]) < Order(p, list[j])
    {
      TurnBound(p.board, p.side, k, list[i]);
      if j < n {
        assert list[i] == captures[i] && list[j] == captures[j];
      } else if i < n {
        assert list[i] == captures[i] && list[j] == quiets[j - n];
      } else {
        assert list[i] == quiets[i - n] && list[j] == quiets[j - n];
      }
    }
  }

  /** generate_legal: the evasions in check, else the captures and then the quiets. It emits
      each legal move exactly once and nothing else, in the one order the rules above fix. */
  method GenerateLegal(ghost z: Zobrist, ghost p: Pos, v: View) returns (r: seq<Move>)
    requires WellFormed(p) && Represents(z, p, v)
    ensures forall m :: Count(r, m) == Bit(Legal(p, m))
    ensures HasKing(p.board, p.side) && InOrder(p, r)
  {
    hide *;
    StagesExact(z, p, v);
    SceneHolds(z, p, v);
    ListInOrder(p, v, KingOf(p.board, p.side));
    r := [];
    if v.st.checkers != {} {
      r := GenerateAll(v, r, Evasions);
    } else {
      r := GenerateAll(v, r, Captures);
      r := GenerateAll(v, r, Quiets);
    }
    ghost var k := KingOf(p.board, p.side);
    ghost var attacked := AllThreatsBB(p.board, Flip(p.side), k);
    assert r == if v.st.checkers != {} then StageList(v, k, attacked, Evasions)
                else StageList(v, k, attacked, Captures) + StageList(v, k, attacked, Quiets);
  }

  /** The stages generate_legal runs, on top of an empty list. */
  lemma StagesExact(z: Zobrist, p: Pos, v: View)
    requires WellFormed(p) && Represents(z, p, v)
    ensures Generable(v) && |v.byType| == 7 && |v.byColor| == 2 && |v.st.blockers| == 2 &&
            PiecesCP(v, v.side, King) != {}
    ensures forall m :: Count([], m) == 0
    ensures var k := KingSquare(v, v.side);
            var attacked := AllThreatsBB(v.board, Flip(v.side), k);
            forall m :: Bit(Legal(p, m)) ==
                        if v.st.checkers != {} then StageEntries(v, k, attacked, Evasions, m)
                        else StageEntries(v, k, attacked, Captures, m) + StageEntries(v, k, attacked, Quiets, m)
  {
    hide *;
    AllEntriesExact(z, p, v);
    GenerableReadable(v);
    EmptyCounts();
    var k := KingSquare(v, v.side);
    var attacked := AllThreatsBB(v.board, Flip(v.side), k);
    forall m
      ensures LegalEntries(v, k, attacked, m) ==
              if v.st.checkers != {} then StageEntries(v, k, attacked, Evasions, m)
              else StageEntries(v, k, attacked, Captures, m) + StageEntries(v, k, attacked, Quiets, m)
    {
      EntriesByStage(v, k, attacked, m);
    }
  }

  lemma EmptyCounts()
    ensures forall m :: Count([], m) == 0
  {
  }

  lemma EntriesByStage(v: View, k: Square, attacked: Bitboard, m: Move)
    requires |v.byType| == 7 && |v.byColor| == 2 && |v.st.blockers| == 2
    ensures LegalEntries(v, k, attacked, m) ==
            if v.st.checkers != {} then StageEntries(v, k, attacked, Evasions, m)
            else StageEntries(v, k, attacked, Captures, m) + StageEntries(v, k, attacked, Quiets, m)
  {
    hide StageEntries;
  }

  /** Out of check each stage lists exactly its own legal moves. */
  lemma StagesShare(z: Zobrist, p: Pos, v: View)
    requires WellFormed(p) && Represents(z, p, v) && v.st.checkers == {}
    ensures |v.byType| == 7 && |v.byColor| == 2 && |v.st.blockers| == 2 && PiecesCP(v, v.side, King) != {}
    ensures var k := KingSquare(v, v.side);
            var attacked := AllThreatsBB(v.board, Flip(v.side), k);
            forall m :: && StageEntries(v, k, attacked, Captures, m) == Bit(Legal(p, m) && InCaptures(p.board, m))
                        && StageEntries(v, k, attacked, Quiets, m) == Bit(Legal(p, m) && !InCaptures(p.board, m))
  {
    hide *;
    StagesExact(z, p, v);
    SceneHolds(z, p, v);
    var k := KingSquare(v, v.side);
    var attacked := AllThreatsBB(v.board, Flip(v.side), k);
    SceneReads(p, v, k);
    forall m
      ensures StageEntries(v, k, attacked, Captures, m) == Bit(Legal(p, m) && InCaptures(p.board, m))
      ensures StageEntries(v, k, attacked, Quiets, m) == Bit(Legal(p, m) && !InCaptures(p.board, m))
    {
      EntryStage(p.board, p.side, k, v, Captures, m);
      EntryStage(p.board, p.side, k, v, Quiets, m);
      ShareOne(StageEntries(v, k, attacked, Captures, m), StageEntries(v, k, attacked, Quiets, m), Legal(p, m),
               InCaptures(p.board, m));
    }
  }

  lemma ShareOne(captures: nat, quiets: nat, legal: bool, taking: bool)
    requires Bit(legal) == captures + quiets && (captures > 0 ==> taking) && (quiets > 0 ==> !taking)
    ensures captures == Bit(legal && taking) && quiets == Bit(legal && !taking)
  {
  }

  /** The checkers set tells whether the mover is in check. */
  lemma CheckersTell(z: Zobrist, p: Pos, v: View)
    requires WellFormed(p) && Represents(z, p, v)
    ensures HasKing(p.board, p.side) && (v.st.checkers != {} <==> InCheck(p.board, p.side))
  {
    hide *;
    SceneHolds(z, p, v);
    var k := KingOf(p.board, p.side);
    SceneReads(p, v, k);
    CheckersMean(p.board, p.side, k, v);
    CheckIs(p.board, p.side, k);
  }
}
