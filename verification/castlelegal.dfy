/** Castling in the generator: the path, the threat set seen through the king, and "the rook is
    not the screen" amount to legality, Chess960 geometry included. */
module CastleLegal {
  import opened Squares
  import opened Types
  import opened Board
  import opened Rules
  import opened Pins
  import opened Derived
  import opened Play
  import opened EnPassantRule
  import opened CastleCheck

  /** Castling r before and after: k and rook leave, the path is vacant, k is not in check. */
  ghost predicate CastlingScene(b: Board, b': Board, us: Color, r: Right, k: Square, rook: Square) {
    && r.color == us
    && IsKing(b, us, k) && b[rook] == Piece(us, Rook) && Rank(k) == BackRank(us) && Rank(rook) == BackRank(us)
    && (r.wing == KingSide <==> rook > k) && rook != k
    && !Attacked(b, Flip(us), k)
    && (forall x: Square :: CastlingPath(r, k, rook, x) ==> b[x] == NoPiece)
    && b' == b[k := NoPiece][rook := NoPiece][KingTarget(r) := Piece(us, King)][RookTarget(r) := Piece(us, Rook)]
  }

  lemma CastlingBoard(b: Board, b': Board, us: Color, r: Right, k: Square, rook: Square, a: Square)
    requires CastlingScene(b, b', us, r, k, rook)
    ensures Occupied(b') == Occupied(b) - {k, rook} + {KingTarget(r), RookTarget(r)}
    ensures IsColor(b', Flip(us), a) <==> IsColor(b, Flip(us), a)
    ensures IsColor(b, Flip(us), a) ==> b'[a] == b[a] && a != k && a != rook && a != KingTarget(r) && a != RookTarget(r)
  {
    TargetsVacant(b, b', us, r, k, rook);
    CastledOccupied(b, us, k, rook, KingTarget(r), RookTarget(r));
    hide KingTarget, RookTarget, CastlingPath, Occupied, Attacked;
  }

  lemma TargetsVacant(b: Board, b': Board, us: Color, r: Right, k: Square, rook: Square)
    requires CastlingScene(b, b', us, r, k, rook)
    ensures KingTarget(r) == k || KingTarget(r) == rook || b[KingTarget(r)] == NoPiece
    ensures RookTarget(r) == k || RookTarget(r) == rook || b[RookTarget(r)] == NoPiece
  {
    assert CastlingPath(r, k, rook, KingTarget(r)) || KingTarget(r) == k || KingTarget(r) == rook;
    CastlingPathTarget(r, k, rook);
  }

  /** Out of check, a square is attacked exactly when it is with the king lifted. */
  lemma ThreatenedIsAttacked(b: Board, them: Color, k: Square, t: Square)
    requires !Attacked(b, them, k) && b[k] != NoPiece
    ensures Attacked(b, them, t) <==> Threatened(b, them, k, t)
  {
    forall a: Square
      ensures Attacker(b, them, a, t, Occupied(b)) <==> Attacker(b, them, a, t, Occupied(b) - {k})
    {
      LiftedKing(b, them, k, t, a);
    }
    hide Attacker, Occupied;
  }

  lemma LiftedKing(b: Board, them: Color, k: Square, t: Square, a: Square)
    requires !Attacked(b, them, k) && b[k] != NoPiece
    ensures Attacker(b, them, a, t, Occupied(b)) <==> Attacker(b, them, a, t, Occupied(b) - {k})
  {
    assert !Attacker(b, them, a, k, Occupied(b));
    OccupiedHere(b, k);
    hide Inside, KnightStep, KingStep, PawnStep, RookLine, BishopLine, Attacked, Occupied;
    if Inside(a, k, t) {
      InsideKind(a, k, t);
      ClearPrefix(a, k, t, Occupied(b));
    } else {
      assert Clear(a, t, Occupied(b)) <==> Clear(a, t, Occupied(b) - {k});
    }
  }

  lemma OccupiedHere(b: Board, k: Square)
    ensures k in Occupied(b) <==> b[k] != NoPiece
  {
  }

  lemma ClearPrefix(a: Square, k: Square, t: Square, occ: Bitboard)
    requires Inside(a, k, t)
    ensures Clear(a, t, occ - {k}) ==> Clear(a, k, occ)
  {
    forall x: Square | Inside(a, x, k)
      ensures Inside(a, x, t) && x != k
    {
      InsideTrans(a, x, k, t);
      InsideDistinct(a, x, k);
    }
    hide Inside;
  }

  // ----- the back rank as files -----

  /** An enemy piece that reaches the king's target after castling stood behind the queen-side rook. */
  lemma ReachesTarget(ks: bool, fk: int, fr: int, fa: int, f: int)
    requires 0 <= fk < 8 && 0 <= fr < 8 && 0 <= fa < 8 && (if ks then fr > fk else fr < fk)
    requires Strictly(fa, fr, KingFile(ks)) && !Strictly(fa, RookFile(ks), KingFile(ks)) && fa != fr &&
             fa != RookFile(ks)
    ensures !ks && Strictly(fk, fr, fa)
    ensures Strictly(fk, f, fa) && f != fr ==> PathFile(ks, fk, fr, f) || Strictly(fa, f, KingFile(ks))
  {
  }

  /** A pinner of the castling rook. */
  lemma PinsRook(ks: bool, fk: int, fr: int, fy: int, f: int)
    requires 0 <= fk < 8 && 0 <= fr < 8 && 0 <= fy < 8 && (if ks then fr > fk else fr < fk)
    requires Strictly(fk, fr, fy) && !PathFile(ks, fk, fr, fy)
    ensures fy != KingFile(ks) && fy != RookFile(ks)
    ensures Strictly(fy, f, KingFile(ks)) ==>
            !ks && f != RookFile(ks) && f != KingFile(ks) && (f == fr || Strictly(fk, f, fy))
    ensures Strictly(fy, f, KingFile(ks)) ==> f != fk
  {
  }

  // ----- the rule -----

  lemma TargetAttacked(b: Board, b': Board, us: Color, r: Right, k: Square, rook: Square, a: Square)
    requires CastlingScene(b, b', us, r, k, rook) && !Threatened(b, Flip(us), k, KingTarget(r))
    requires Attacker(b', Flip(us), a, KingTarget(r), Occupied(b'))
    ensures Blocker(b, Flip(us), k, rook)
  {
    var them, kto, rto, ks := Flip(us), KingTarget(r), RookTarget(r), r.wing == KingSide;
    CastlingBoard(b, b', us, r, k, rook, a);
    TargetsOnBackRank(r);
    assert !Attacker(b, them, a, kto, Occupied(b) - {k});
    NoEnd(a, kto);
    TargetFiles(r);
    RookObstructed(b, b', us, r, k, rook, a);
    EdgeRank(a, rook, kto);
    SameRankInside(a, rook, kto);
    SameRankInside(a, rto, kto);
    SameRankInside(k, rook, a);
    SameSquare(a, rook);
    SameSquare(a, rto);
    FilesInRange(k, rook, a);
    assert rto in Occupied(b') && Clear(a, kto, Occupied(b'));
    ReachesTarget(ks, File(k), File(rook), File(a), 0) by { hide *; }
    forall y: Square | Inside(k, y, a) && b[y] != NoPiece
      ensures y == rook
    {
      SameRankInside(k, y, a);
      SameRankInside(a, y, kto);
      SameSquare(y, rook);
      SameSquare(y, k);
      ReachesTarget(ks, File(k), File(rook), File(a), File(y));
      PathIsFiles(r, k, rook, y);
      OccupiedHere(b, y);
      hide File, Rank, Inside, KingTarget, RookTarget, CastlingPath, PathFile, Attacked, IsKing, Occupied, RookLine,
           BishopLine;
    }
    assert RookLine(k, a) by { SameRankLine(k, a); }
    RankSniper(b, them, k, kto, a);
    assert !Sniper(b, them, k, rook);
    assert Screens(b, them, k, rook, a);
  }

  lemma FilesInRange(k: Square, rook: Square, a: Square)
    ensures 0 <= File(k) < 8 && 0 <= File(rook) < 8 && 0 <= File(a) < 8
    ensures Rank(k) == Rank(rook) ==> (rook > k <==> File(rook) > File(k)) && (rook < k <==> File(rook) < File(k))
  {
    Coords(k); Coords(rook);
    hide File, Rank;
  }

  lemma SameRankLine(k: Square, a: Square)
    requires Rank(k) == Rank(a) && k != a
    ensures RookLine(k, a) && !BishopLine(k, a)
  {
    Coords(k); Coords(a);
    hide File, Rank;
  }

  lemma RankSniper(b: Board, them: Color, k: Square, t: Square, a: Square)
    requires IsColor(b, them, a) && Slides(b[a].kind) && Rank(k) == Rank(a) == Rank(t) && k != a && t != a
    requires RookLine(a, t) && (b[a].kind == Rook || b[a].kind == Queen)
    ensures Sniper(b, them, k, a)
  {
    SameRankLine(k, a);
  }

  lemma NoEnd(a: Square, t: Square)
    ensures !Inside(a, t, t) && !Inside(a, a, t)
  {
  }

  /** Only the castling rook can have stood between a and the king's target. */
  lemma RookObstructed(b: Board, b': Board, us: Color, r: Right, k: Square, rook: Square, a: Square)
    requires CastlingScene(b, b', us, r, k, rook) && !Threatened(b, Flip(us), k, KingTarget(r))
    requires Attacker(b', Flip(us), a, KingTarget(r), Occupied(b'))
    ensures Inside(a, rook, KingTarget(r)) && Clear(a, KingTarget(r), Occupied(b'))
    ensures IsColor(b, Flip(us), a) && Slides(b[a].kind) && (b[a].kind == Rook || b[a].kind == Queen)
    ensures RookLine(a, KingTarget(r)) && a != KingTarget(r)
  {
    var kto, rto := KingTarget(r), RookTarget(r);
    CastlingBoard(b, b', us, r, k, rook, a);
    assert !Attacker(b, Flip(us), a, kto, Occupied(b) - {k});
    NoEnd(a, kto);
    TargetFiles(r);
    hide KnightStep, KingStep, PawnStep, RookLine, BishopLine, Occupied, Attacked, CastlingPath, KingTarget,
         RookTarget, IsKing, Inside;
    assert Slides(b[a].kind);
    assert !Clear(a, kto, Occupied(b) - {k});
    var x: Square :| Inside(a, x, kto) && x in Occupied(b) - {k};
    assert x == rook;
    EdgeRank(a, rook, kto);
    SameRankLine(a, kto) by { InsideDistinct(a, rook, kto); }
  }

  lemma PinnedRookExposes(b: Board, b': Board, us: Color, r: Right, k: Square, rook: Square)
    requires CastlingScene(b, b', us, r, k, rook) && Blocker(b, Flip(us), k, rook)
    ensures Attacked(b', Flip(us), KingTarget(r))
  {
    var them, kto, rto, ks := Flip(us), KingTarget(r), RookTarget(r), r.wing == KingSide;
    var y := BlockerPins(b, them, k, rook);
    CastlingBoard(b, b', us, r, k, rook, y);
    SniperSlides(b, them, k, y);
    TargetFiles(r);
    EdgeRank(k, rook, y);
    SameRankInside(k, rook, y);
    PathIsFiles(r, k, rook, y);
    FilesInRange(k, rook, y);
    SameSquare(y, kto);
    InsideDistinct(k, rook, y);
    PinsRook(ks, File(k), File(rook), File(y), 0) by { hide CastlingPath, Occupied, Inside, Attacked; }
    forall x: Square | Inside(y, x, kto)
      ensures x !in Occupied(b')
    {
      SameRankInside(y, x, kto);
      SameRankInside(k, x, y);
      PinsRook(ks, File(k), File(rook), File(y), File(x));
      SameSquare(x, rook);
      SameSquare(x, k);
      SameSquare(x, rto);
      SameSquare(x, kto);
      OccupiedHere(b, x);
      hide File, Rank, Inside, KingTarget, RookTarget, CastlingPath, PathFile, Attacked, IsKing, Occupied, RookLine,
           BishopLine, Sniper;
    }
    SameRankLine(k, y);
    SameRankLine(y, kto);
    assert Attacker(b', them, y, kto, Occupied(b'));
  }

  /** The king's target is attacked afterwards exactly when the rook was the screen. */
  lemma CastlingSafe(b: Board, b': Board, us: Color, r: Right, k: Square, rook: Square)
    requires CastlingScene(b, b', us, r, k, rook) && !Threatened(b, Flip(us), k, KingTarget(r))
    ensures Attacked(b', Flip(us), KingTarget(r)) <==> Blocker(b, Flip(us), k, rook)
  {
    hide CastlingScene, Blocker, Threatened, Occupied, KingTarget;
    if Blocker(b, Flip(us), k, rook) {
      PinnedRookExposes(b, b', us, r, k, rook);
    } else {
      forall a: Square
        ensures !Attacker(b', Flip(us), a, KingTarget(r), Occupied(b'))
      {
        if Attacker(b', Flip(us), a, KingTarget(r), Occupied(b')) {
          TargetAttacked(b, b', us, r, k, rook, a);
        }
      }
    }
  }
}
