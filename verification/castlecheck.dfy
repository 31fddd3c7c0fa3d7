/** Castling and check: after a legal castling move only the rook can attack the enemy king, and
    it does so exactly when the king screened a slider or the cached check squares say so. */
module CastleCheck {
  import opened Squares
  import opened Types
  import opened Board
  import opened Rules
  import opened Attacks
  import opened Pins
  import opened Derived
  import opened Play
  import opened EnPassantRule
  import opened CheckRule
  import opened State
  import opened Views

  // ----- the back rank as files 0 to 7 -----

  function KingFile(ks: bool): int {
    if ks then 6 else 2
  }

  function RookFile(ks: bool): int {
    if ks then 5 else 3
  }

  /** The files that must be vacant: fk the king's, fr the rook's. */
  predicate PathFile(ks: bool, fk: int, fr: int, f: int) {
    && f != fk && f != fr
    && (f == KingFile(ks) || f == RookFile(ks) || Strictly(fk, f, KingFile(ks)) || Strictly(fr, f, RookFile(ks)))
  }

  /** An enemy king on file ft beside a legal castling. */
  predicate KingsFiles(ks: bool, fk: int, fr: int, ft: int) {
    && 0 <= fk < 8 && 0 <= fr < 8 && 0 <= ft < 8 && fk != ft && fr != ft
    && (if ks then fr > fk else fr < fk)
    && !PathFile(ks, fk, fr, ft) && Abs(KingFile(ks) - ft) > 1
  }

  /** No other slider can see the enemy king through the vacated squares. */
  lemma NoOtherSlider(ks: bool, fk: int, fr: int, ft: int, fa: int)
    requires KingsFiles(ks, fk, fr, ft) && 0 <= fa < 8
    requires !PathFile(ks, fk, fr, fa) && fa != fk && fa != fr
    ensures Strictly(ft, fk, fa) || Strictly(ft, fr, fa) ==>
              Strictly(ft, KingFile(ks), fa) || Strictly(ft, RookFile(ks), fa)
              || fa == KingFile(ks) || fa == RookFile(ks)
  {
  }

  /** A slider pinning the castling king leaves the rook's new line open. */
  lemma PinOpensLine(ks: bool, fk: int, fr: int, ft: int, fy: int, f: int)
    requires KingsFiles(ks, fk, fr, ft) && 0 <= fy < 8
    requires Strictly(ft, fk, fy) && !Strictly(ft, fr, fy)
    requires Strictly(RookFile(ks), f, ft)
    ensures f != KingFile(ks)
    ensures f == fk || f == fr || Strictly(ft, f, fy) || PathFile(ks, fk, fr, f)
  {
  }

  /** The new king square is off the rook's line unless the enemy king is in the queen-side corner. */
  lemma KingOffLine(ks: bool, fk: int, fr: int, ft: int)
    requires KingsFiles(ks, fk, fr, ft)
    ensures Strictly(RookFile(ks), KingFile(ks), ft) ==> !ks && ft == 0
    ensures !ks && ft == 0 ==> fr > 0
  {
  }

  /** In that corner case the old rook would see the enemy king. */
  lemma CornerRookSees(fk: int, fr: int, f: int)
    requires KingsFiles(false, fk, fr, 0) && Strictly(0, f, fr)
    ensures Strictly(3, f, 0) || PathFile(false, fk, fr, f) || f == fk
    ensures f != fk
  {
  }

  /** If the king stands on the rook's new line, it stands between the enemy king and the old
      rook, and beyond it the path is vacant. */
  lemma KingOnLine(ks: bool, fk: int, fr: int, ft: int, f: int)
    requires KingsFiles(ks, fk, fr, ft)
    requires Strictly(RookFile(ks), fk, ft)
    requires !Strictly(RookFile(ks), KingFile(ks), ft)
    ensures Strictly(ft, fk, fr)
    ensures Strictly(ft, f, fr) && f != fk ==> Strictly(RookFile(ks), f, ft) || PathFile(ks, fk, fr, f)
    ensures f != fr || !Strictly(ft, f, fr)
  {
  }

  lemma RookOnLine(ks: bool, fk: int, fr: int, ft: int)
    requires KingsFiles(ks, fk, fr, ft) && Strictly(RookFile(ks), fr, ft)
    ensures Strictly(RookFile(ks), fk, ft) || Strictly(RookFile(ks), KingFile(ks), ft)
  {
  }

  // ----- squares -----

  /** The board before and after a legal castling, seen from the enemy king on tk. */
  ghost predicate Castled(b: Board, b': Board, us: Color, r: Right, k: Square, rook: Square, tk: Square) {
    && r.color == us
    && IsKing(b, us, k) && b[rook] == Piece(us, Rook) && Rank(k) == BackRank(us) && Rank(rook) == BackRank(us)
    && (r.wing == KingSide <==> rook > k)
    && IsKing(b, Flip(us), tk) && !Attacked(b, us, tk)
    && (forall x: Square :: CastlingPath(r, k, rook, x) ==> b[x] == NoPiece)
    && Occupied(b') == Occupied(b) - {k, rook} + {KingTarget(r), RookTarget(r)}
    && b'[KingTarget(r)] == Piece(us, King) && b'[RookTarget(r)] == Piece(us, Rook)
    && (forall a: Square :: a != KingTarget(r) && a != RookTarget(r) && IsColor(b', us, a) ==>
          b'[a] == b[a] && a != k && a != rook)
    && !KingStep(KingTarget(r), tk)
  }

  lemma SameRankInside(a: Square, x: Square, b: Square)
    requires Rank(a) == Rank(b)
    ensures Inside(a, x, b) <==> Rank(x) == Rank(a) && Strictly(File(a), File(x), File(b))
  {
    Coords(a); Coords(x); Coords(b);
    hide File, Rank;
  }

  /** Off an edge rank nothing lies beyond a square of it. */
  lemma EdgeRank(a: Square, x: Square, b: Square)
    requires Inside(a, x, b) && (Rank(x) == 0 || Rank(x) == 7)
    ensures Rank(a) == Rank(x) == Rank(b)
  {
  }

  lemma SameSquare(a: Square, b: Square)
    ensures a == b <==> File(a) == File(b) && Rank(a) == Rank(b)
  {
    Coords(a); Coords(b);
    hide File, Rank;
  }

  lemma TargetFiles(r: Right)
    ensures File(KingTarget(r)) == KingFile(r.wing == KingSide) && File(RookTarget(r)) == RookFile(r.wing == KingSide)
    ensures Rank(KingTarget(r)) == BackRank(r.color) && Rank(RookTarget(r)) == BackRank(r.color)
  {
  }

  lemma PathIsFiles(r: Right, k: Square, rook: Square, x: Square)
    requires Rank(k) == BackRank(r.color) && Rank(rook) == BackRank(r.color)
    ensures CastlingPath(r, k, rook, x) <==>
              Rank(x) == BackRank(r.color) && PathFile(r.wing == KingSide, File(k), File(rook), File(x))
  {
    TargetFiles(r);
    SameRankInside(k, x, KingTarget(r));
    SameRankInside(rook, x, RookTarget(r));
    SameSquare(x, k);
    SameSquare(x, rook);
    SameSquare(x, KingTarget(r));
    SameSquare(x, RookTarget(r));
    hide File, Rank, Inside, KingTarget, RookTarget, Strictly;
  }

  /** The enemy king's file, when it shares the back rank. */
  lemma KingsFilesHold(b: Board, b': Board, us: Color, r: Right, k: Square, rook: Square, tk: Square)
    requires Castled(b, b', us, r, k, rook, tk) && Rank(tk) == BackRank(us)
    ensures KingsFiles(r.wing == KingSide, File(k), File(rook), File(tk))
  {
    TargetFiles(r);
    PathIsFiles(r, k, rook, tk);
    SameSquare(tk, k);
    SameSquare(tk, rook);
    SameSquare(tk, KingTarget(r));
    Coords(k); Coords(rook);
    hide File, Rank, KingTarget, RookTarget, CastlingPath, PathFile, Occupied, Attacked;
  }

  /** Nothing but the castled pieces can attack tk, and the king does not. */
  lemma OnlyTheRook(b: Board, b': Board, us: Color, r: Right, k: Square, rook: Square, tk: Square, a: Square)
    requires Castled(b, b', us, r, k, rook, tk) && a != RookTarget(r)
    ensures !Attacker(b', us, a, tk, Occupied(b'))
  {
    var kto, rto := KingTarget(r), RookTarget(r);
    assert !Attacker(b, us, a, tk, Occupied(b));
    assert kto in Occupied(b') && rto in Occupied(b');
    hide KingTarget, RookTarget, KnightStep, KingStep, PawnStep, RookLine, BishopLine, Inside, Occupied, Attacked,
         IsKing;
    if a != kto && IsColor(b', us, a) && Slides(b'[a].kind) {
      SniperAttacks(b, us, tk, a, Occupied(b));
      SniperAttacks(b', us, tk, a, Occupied(b'));
      if Sniper(b, us, tk, a) {
        ThroughVacated(b, b', us, r, k, rook, tk, a);
      }
    }
  }

  lemma ThroughVacated(b: Board, b': Board, us: Color, r: Right, k: Square, rook: Square, tk: Square, a: Square)
    requires Castled(b, b', us, r, k, rook, tk) && a != RookTarget(r) && a != KingTarget(r)
    requires IsColor(b', us, a) && !Clear(tk, a, Occupied(b))
    ensures !Clear(tk, a, Occupied(b'))
  {
    CastledStands(b, b', us, r, k, rook, tk, a);
    hide KingTarget, RookTarget, Occupied, Attacked, IsKing, CastlingPath;
    var x: Square :| Inside(tk, x, a) && x in Occupied(b);
    if x == k || x == rook {
      EdgeRank(tk, x, a);
      TargetsTakeOver(b, b', us, r, k, rook, tk, a);
    } else {
      assert x in Occupied(b');
    }
  }

  lemma CastledStands(b: Board, b': Board, us: Color, r: Right, k: Square, rook: Square, tk: Square, a: Square)
    requires Castled(b, b', us, r, k, rook, tk) && a != RookTarget(r) && a != KingTarget(r) && IsColor(b', us, a)
    ensures KingTarget(r) in Occupied(b') && RookTarget(r) in Occupied(b') && a != k && a != rook
    ensures !CastlingPath(r, k, rook, a) && Rank(k) == Rank(rook) == BackRank(us) && r.color == us
    ensures BackRank(us) == 0 || BackRank(us) == 7
  {
    hide CastlingPath, KingTarget, RookTarget, Attacked, IsKing, Rank;
  }

  /** What king or rook used to screen on the back rank, one of their new squares screens. */
  lemma TargetsTakeOver(b: Board, b': Board, us: Color, r: Right, k: Square, rook: Square, tk: Square, a: Square)
    requires Castled(b, b', us, r, k, rook, tk) && a != RookTarget(r) && a != KingTarget(r) && IsColor(b', us, a)
    requires Rank(tk) == Rank(a) == BackRank(us) && (Inside(tk, k, a) || Inside(tk, rook, a))
    ensures Inside(tk, KingTarget(r), a) || Inside(tk, RookTarget(r), a)
  {
    hide *;
    var kto, rto := KingTarget(r), RookTarget(r);
    CastledStands(b, b', us, r, k, rook, tk, a);
    TargetFiles(r);
    PathIsFiles(r, k, rook, a);
    KingsFilesHold(b, b', us, r, k, rook, tk);
    SameRankInside(tk, k, a);
    SameRankInside(tk, rook, a);
    SameRankInside(tk, kto, a);
    SameRankInside(tk, rto, a);
    SameSquare(a, k);
    SameSquare(a, rook);
    SameSquare(a, kto);
    SameSquare(a, rto);
    FileRange(a);
    NoOtherSlider(r.wing == KingSide, File(k), File(rook), File(tk), File(a));
  }

  lemma FileRange(s: Square)
    ensures 0 <= File(s) < 8
  {
  }

  /** On the board after: the rook attacks along an open line. */
  lemma RookLineAfter(b: Board, b': Board, us: Color, r: Right, k: Square, rook: Square, tk: Square)
    requires Castled(b, b', us, r, k, rook, tk) && Rank(tk) == BackRank(us)
    ensures Clear(RookTarget(r), tk, Occupied(b'))
            <==> Blocker(b, us, tk, k) || Clear(RookTarget(r), tk, Occupied(b))
  {
    if Blocker(b, us, tk, k) {
      PinnedKingOpens(b, b', us, r, k, rook, tk);
    } else if Clear(RookTarget(r), tk, Occupied(b)) {
      OpenStaysOpen(b, b', us, r, k, rook, tk);
    } else if Clear(RookTarget(r), tk, Occupied(b')) {
      OpenedByKing(b, b', us, r, k, rook, tk);
    }
    hide *;
  }

  lemma PinnedKingOpens(b: Board, b': Board, us: Color, r: Right, k: Square, rook: Square, tk: Square)
    requires Castled(b, b', us, r, k, rook, tk) && Rank(tk) == BackRank(us)
    requires Blocker(b, us, tk, k)
    ensures Clear(RookTarget(r), tk, Occupied(b'))
  {
    var ks := r.wing == KingSide;
    var rto := RookTarget(r);
    var y := BlockerPins(b, us, tk, k);
    EdgeRank(tk, k, y);
    TargetFiles(r);
    KingsFilesHold(b, b', us, r, k, rook, tk);
    assert rook != k;
    SameRankInside(tk, k, y);
    SameRankInside(tk, rook, y);
    forall x: Square | Inside(rto, x, tk)
      ensures x !in Occupied(b')
    {
      SameRankInside(rto, x, tk);
      SameRankInside(tk, x, y);
      PinOpensLine(ks, File(k), File(rook), File(tk), File(y), File(x));
      PathIsFiles(r, k, rook, x);
      SameSquare(x, k);
      SameSquare(x, rook);
      SameSquare(x, rto);
      SameSquare(x, KingTarget(r));
      hide File, Rank, Inside, KingTarget, RookTarget, CastlingPath, PathFile, Attacked, IsKing, Strictly, KingsFiles;
    }
  }

  lemma OpenStaysOpen(b: Board, b': Board, us: Color, r: Right, k: Square, rook: Square, tk: Square)
    requires Castled(b, b', us, r, k, rook, tk) && Rank(tk) == BackRank(us)
    requires Clear(RookTarget(r), tk, Occupied(b))
    ensures Clear(RookTarget(r), tk, Occupied(b'))
  {
    var ks := r.wing == KingSide;
    var rto, kto := RookTarget(r), KingTarget(r);
    TargetFiles(r);
    KingsFilesHold(b, b', us, r, k, rook, tk);
    KingOffLine(ks, File(k), File(rook), File(tk));
    SameRankInside(rto, kto, tk);
    if Inside(rto, kto, tk) {
      CornerRook(b, b', us, r, k, rook, tk);
    }
    InsideNotEnd(rto, tk);
    hide Inside, KingTarget, RookTarget, Attacked, IsKing, CastlingPath;
  }

  lemma CornerRook(b: Board, b': Board, us: Color, r: Right, k: Square, rook: Square, tk: Square)
    requires Castled(b, b', us, r, k, rook, tk) && Rank(tk) == BackRank(us)
    requires r.wing == QueenSide && File(tk) == 0
    ensures !Clear(RookTarget(r), tk, Occupied(b))
  {
    var rto := RookTarget(r);
    TargetFiles(r);
    KingsFilesHold(b, b', us, r, k, rook, tk);
    assert !Attacker(b, us, rook, tk, Occupied(b));
    assert RookLine(rook, tk) by { SameSquare(rook, tk); }
    var x: Square :| Inside(rook, x, tk) && x in Occupied(b);
    SameRankInside(rook, x, tk);
    SameRankInside(rto, x, tk);
    CornerRookSees(File(k), File(rook), File(x));
    PathIsFiles(r, k, rook, x);
    hide File, Rank, Inside, KingTarget, RookTarget, CastlingPath, PathFile, Attacked, IsKing, KingsFiles;
  }

  lemma OpenedByKing(b: Board, b': Board, us: Color, r: Right, k: Square, rook: Square, tk: Square)
    requires Castled(b, b', us, r, k, rook, tk) && Rank(tk) == BackRank(us)
    requires !Clear(RookTarget(r), tk, Occupied(b)) && Clear(RookTarget(r), tk, Occupied(b'))
    ensures Blocker(b, us, tk, k)
  {
    var rto := RookTarget(r);
    TargetFiles(r);
    KingsFilesHold(b, b', us, r, k, rook, tk);
    KingCrossed(b, b', us, r, k, rook, tk);
    assert RookLine(tk, rook) by { SameSquare(rook, tk); }
    hide File, Rank, Inside, KingTarget, RookTarget, CastlingPath, Attacked;
    forall y: Square | Inside(tk, y, rook) && b[y] != NoPiece
      ensures y == k
    {
      BeyondTheKing(b, b', us, r, k, rook, tk, y);
    }
    assert Screens(b, us, tk, k, rook);
  }

  /** The obstruction that left the rook's new line was the king. */
  lemma KingCrossed(b: Board, b': Board, us: Color, r: Right, k: Square, rook: Square, tk: Square)
    requires Castled(b, b', us, r, k, rook, tk) && Rank(tk) == BackRank(us)
    requires !Clear(RookTarget(r), tk, Occupied(b)) && Clear(RookTarget(r), tk, Occupied(b'))
    ensures var ks := r.wing == KingSide;
            && Strictly(RookFile(ks), File(k), File(tk)) && !Strictly(RookFile(ks), KingFile(ks), File(tk))
    ensures Inside(tk, k, rook)
  {
    var ks := r.wing == KingSide;
    var rto, kto := RookTarget(r), KingTarget(r);
    TargetFiles(r);
    KingsFilesHold(b, b', us, r, k, rook, tk);
    assert kto in Occupied(b');
    var x: Square :| Inside(rto, x, tk) && x in Occupied(b);
    assert x == k || x == rook;
    SameRankInside(rto, k, tk);
    SameRankInside(rto, rook, tk);
    SameRankInside(rto, kto, tk);
    SameRankInside(tk, k, rook);
    hide File, Rank, Inside, KingTarget, RookTarget, CastlingPath, Attacked, IsKing;
    if Strictly(RookFile(ks), File(rook), File(tk)) {
      RookOnLine(ks, File(k), File(rook), File(tk));
    }
    KingOnLine(ks, File(k), File(rook), File(tk), 0);
  }

  /** Nothing stands between the enemy king and the old rook but the castling king. */
  lemma BeyondTheKing(b: Board, b': Board, us: Color, r: Right, k: Square, rook: Square, tk: Square, y: Square)
    requires Castled(b, b', us, r, k, rook, tk) && Rank(tk) == BackRank(us)
    requires Clear(RookTarget(r), tk, Occupied(b'))
    requires var ks := r.wing == KingSide;
             && Strictly(RookFile(ks), File(k), File(tk)) && !Strictly(RookFile(ks), KingFile(ks), File(tk))
    requires Inside(tk, y, rook) && b[y] != NoPiece
    ensures y == k
  {
    var ks := r.wing == KingSide;
    var rto := RookTarget(r);
    TargetFiles(r);
    KingsFilesHold(b, b', us, r, k, rook, tk);
    SameRankInside(tk, y, rook);
    SameRankInside(rto, y, tk);
    PathIsFiles(r, k, rook, y);
    SameSquare(y, k);
    SameSquare(y, rook);
    assert y in Occupied(b);
    hide File, Rank, Inside, KingTarget, RookTarget, CastlingPath, PathFile, Attacked, IsKing, KingsFiles;
    KingOnLine(ks, File(k), File(rook), File(tk), File(y));
  }

  /** Off the back rank the vacated and filled squares are on no line of the enemy king. */
  lemma RookLineElsewhere(b: Board, b': Board, us: Color, r: Right, k: Square, rook: Square, tk: Square)
    requires Castled(b, b', us, r, k, rook, tk) && Rank(tk) != BackRank(us)
    ensures !Blocker(b, us, tk, k)
    ensures Clear(RookTarget(r), tk, Occupied(b')) <==> Clear(RookTarget(r), tk, Occupied(b))
  {
    var rto := RookTarget(r);
    TargetFiles(r);
    forall a: Square
      ensures !Screens(b, us, tk, k, a)
    {
      if Inside(tk, k, a) {
        EdgeRank(tk, k, a);
      }
    }
    forall x: Square | Inside(rto, x, tk)
      ensures x in Occupied(b) <==> x in Occupied(b')
    {
      if Rank(x) == BackRank(us) {
        EdgeRank(rto, x, tk);
      }
      hide Inside, KingTarget, RookTarget, Attacked, IsKing;
    }
  }

  /** The rule: see the module's comment. */
  lemma CastlingRule(b: Board, b': Board, us: Color, r: Right, k: Square, rook: Square, tk: Square)
    requires Castled(b, b', us, r, k, rook, tk)
    ensures Attacked(b', us, tk) <==>
              Blocker(b, us, tk, k) || Hits(Piece(us, Rook), RookTarget(r), tk, Occupied(b))
  {
    var rto := RookTarget(r);
    if Rank(tk) == BackRank(us) {
      RookLineAfter(b, b', us, r, k, rook, tk);
      TargetFiles(r);
      CastlingPathTarget(r, k, rook);
      assert RookLine(rto, tk) by { SameSquare(rto, tk); }
    } else {
      RookLineElsewhere(b, b', us, r, k, rook, tk);
    }
    forall a: Square | a != rto
      ensures !Attacker(b', us, a, tk, Occupied(b'))
    {
      OnlyTheRook(b, b', us, r, k, rook, tk, a);
    }
    assert Attacker(b', us, rto, tk, Occupied(b')) <==> RookLine(rto, tk) && Clear(rto, tk, Occupied(b'));
    hide Blocker, RookLine, Clear, RookTarget, Occupied, Attacker;
  }

  lemma CastlingPathTarget(r: Right, k: Square, rook: Square)
    ensures RookTarget(r) == k || RookTarget(r) == rook || CastlingPath(r, k, rook, RookTarget(r))
  {
  }

  lemma LegalCastles(p: Pos, m: Move, tk: Square)
    requires WellFormed(p) && Legal(p, m) && m.kind == Castling && IsKing(p.board, Flip(p.side), tk)
    ensures Castled(p.board, After(p.board, p.side, m), p.side, CastlingRight(p.side, m), m.from, m.to, tk)
  {
    hide *;
    var b, us := p.board, p.side;
    var r := CastlingRight(us, m);
    var b' := After(b, us, m);
    CastlesFrom(p, m);
    CheckIs(b, Flip(us), tk);
    WellFormedKings(p);
    CastlingSquares(p, m);
    HomeIs(p, r, m.from);
    TargetsOnBackRank(r);
    KingsAfter(p, m);
    KingOfIs(b, Flip(us), tk);
    KingOfIs(b, us, m.from);
    KingAfterCastling(p, m);
    FlipTwice(us);
    CheckIs(b', us, KingTarget(r));
    LegalIsSafe(p, m);
    KingsApart(b', us, KingTarget(r), tk);
    CastledOccupied(b, us, m.from, m.to, KingTarget(r), RookTarget(r));
    CastledOf(b, us, m, tk);
  }

  /** What castling asks of the path, as the board it is played on. */
  lemma CastlesFrom(p: Pos, m: Move)
    requires Legal(p, m) && m.kind == Castling
    ensures PseudoLegal(p, m) && CastlingRight(p.side, m).color == p.side
    ensures forall x: Square :: CastlingPath(CastlingRight(p.side, m), m.from, m.to, x) ==> p.board[x] == NoPiece
  {
    hide CastlingPath, After, Attacked, IsKing;
  }

  lemma WellFormedKings(p: Pos)
    requires WellFormed(p)
    ensures HasKing(p.board, p.side) && HasKing(p.board, Flip(p.side)) && !InCheck(p.board, Flip(p.side))
  {
    hide HasKing, InCheck, PawnsInside, RightsHome, EpSound;
  }

  lemma HomeIs(p: Pos, r: Right, k: Square)
    requires RightHome(p.board, p.rooks, r, k)
    ensures IsKing(p.board, r.color, k) && Rank(k) == BackRank(r.color) && p.board[k] == Piece(r.color, King)
    ensures r in p.rooks && p.board[p.rooks[r]] == Piece(r.color, Rook) && Rank(p.rooks[r]) == BackRank(r.color)
    ensures r.wing == KingSide <==> p.rooks[r] > k
  {
  }

  lemma LegalIsSafe(p: Pos, m: Move)
    requires Legal(p, m)
    ensures HasKing(After(p.board, p.side, m), p.side) && !InCheck(After(p.board, p.side, m), p.side)
  {
    hide HasKing, InCheck, After;
  }

  lemma KingAfterCastling(p: Pos, m: Move)
    requires m.kind == Castling
    ensures forall k: Square :: KingAfter(p, k, m) == KingTarget(CastlingRight(p.side, m))
  {
    hide KingTarget, CastlingRight;
  }

  lemma CastledOf(b: Board, us: Color, m: Move, tk: Square)
    requires m.kind == Castling && m.from != m.to && b[m.from] == Piece(us, King) && b[m.to] == Piece(us, Rook)
    requires var r := CastlingRight(us, m);
             && r.color == us && Rank(m.from) == BackRank(us) && Rank(m.to) == BackRank(us)
             && (r.wing == KingSide <==> m.to > m.from)
             && IsKing(b, us, m.from) && IsKing(b, Flip(us), tk) && !Attacked(b, us, tk)
             && KingTarget(r) != RookTarget(r)
             && (forall x: Square :: CastlingPath(r, m.from, m.to, x) ==> b[x] == NoPiece)
             && !KingStep(KingTarget(r), tk)
    ensures Castled(b, After(b, us, m), us, CastlingRight(us, m), m.from, m.to, tk)
  {
    var r := CastlingRight(us, m);
    CastledOccupied(b, us, m.from, m.to, KingTarget(r), RookTarget(r));
    hide Occupied, Attacked, KingTarget, RookTarget, KingStep, CastlingPath, IsKing, CastlingRight;
  }

  lemma CastledOccupied(b: Board, us: Color, from: Square, to: Square, kto: Square, rto: Square)
    ensures var b' := b[from := NoPiece][to := NoPiece][kto := Piece(us, King)][rto := Piece(us, Rook)];
            Occupied(b') == Occupied(b) - {from, to} + {kto, rto}
  {
  }

  lemma CastlingGivesCheck(p: Pos, m: Move, tk: Square)
    requires WellFormed(p) && Legal(p, m) && m.kind == Castling && IsKing(p.board, Flip(p.side), tk)
    ensures CheckTest(p.board, p.side, tk, m) <==> Attacked(After(p.board, p.side, m), p.side, tk)
  {
    var b, us := p.board, p.side;
    LegalCastles(p, m, tk);
    CastlingRule(b, After(b, us, m), us, CastlingRight(us, m), m.from, m.to, tk);
    assert b[m.from] == Piece(us, King);
    hide Castled, WellFormed, Legal, After, Blocker, RookTarget, OnLine, Hits, Attacked, Occupied;
  }

  // ----- the code's test -----

  lemma ColourBlind(kind: PieceType, s: Square, t: Square, occ: Bitboard)
    requires kind != Pawn
    ensures Hits(Piece(White, kind), s, t, occ) <==> Hits(Piece(Black, kind), s, t, occ)
  {
  }

  /** En passant: the slider test on the new occupancy. */
  lemma EpSliderTest(b: Board, b': Board, us: Color, from: Square, to: Square, v: Square, tk: Square,
                     ours: Bitboard, rq: Bitboard, bq: Bitboard)
    requires TookEnPassant(b, b', us, from, to, v) && IsKing(b, Flip(us), tk) && !Attacked(b, us, tk)
    requires !PawnStep(us, to, tk)
    requires ours == OfColor(b, us) && rq == OfType(b, Queen) + OfType(b, Rook) &&
             bq == OfType(b, Queen) + OfType(b, Bishop)
    ensures var ep := BothAttacksBB(tk, Occupied(b'));
            (ep.rook * (ours * rq)) + (ep.bishop * (ours * bq)) != {} <==> Attacked(b', us, tk)
  {
    var ep := BothAttacksBB(tk, Occupied(b'));
    var hits := (ep.rook * (ours * rq)) + (ep.bishop * (ours * bq));
    hide *;
    forall a: Square
      ensures a in hits <==> Attacker(b', us, a, tk, Occupied(b'))
    {
      EpSliderHit(b, us, tk, ours, rq, bq, Occupied(b'), a);
      EpSlidersStay(b, b', us, from, to, v, tk, a);
    }
    AttackedBySome(b', us, tk);
  }

  lemma AttackedBySome(b: Board, us: Color, tk: Square)
    ensures Attacked(b, us, tk) <==> exists a: Square :: Attacker(b, us, a, tk, Occupied(b))
  {
    hide Attacker;
  }

  /** Membership of the tested set: a slider that stood before the capture, on an open line now. */
  lemma EpSliderHit(b: Board, us: Color, tk: Square, ours: Bitboard, rq: Bitboard, bq: Bitboard, occ: Bitboard,
                    a: Square)
    requires ours == OfColor(b, us) && rq == OfType(b, Queen) + OfType(b, Rook) &&
             bq == OfType(b, Queen) + OfType(b, Bishop)
    ensures var ep := BothAttacksBB(tk, occ);
            a in (ep.rook * (ours * rq)) + (ep.bishop * (ours * bq)) <==> SliderOn(b, us, a, tk, occ)
  {
    LineSym(tk, a);
    ClearSym(tk, a, occ);
    assert a in AttacksBB(Rook, tk, occ) <==> RookLine(tk, a) && Clear(tk, a, occ);
    assert a in AttacksBB(Bishop, tk, occ) <==> BishopLine(tk, a) && Clear(tk, a, occ);
    assert RookLine(tk, a) || BishopLine(tk, a) ==> a != tk;
    hide RookLine, BishopLine, Clear, AttacksBB;
  }

  predicate SliderOn(b: Board, us: Color, a: Square, t: Square, occ: Bitboard) {
    && IsColor(b, us, a) && a != t && Clear(a, t, occ)
    && ((RookLine(a, t) && (b[a].kind == Rook || b[a].kind == Queen)) ||
         (BishopLine(a, t) && (b[a].kind == Bishop || b[a].kind == Queen)))
  }

  /** The capture leaves the mover's sliders where they were, and no leaper attacked before. */
  lemma EpSlidersStay(b: Board, b': Board, us: Color, from: Square, to: Square, v: Square, tk: Square, a: Square)
    requires TookEnPassant(b, b', us, from, to, v) && IsKing(b, Flip(us), tk) && !Attacked(b, us, tk)
    requires !PawnStep(us, to, tk)
    ensures SliderOn(b, us, a, tk, Occupied(b')) <==> Attacker(b', us, a, tk, Occupied(b'))
  {
    assert from != to && v != to;
    assert !Attacker(b, us, a, tk, Occupied(b));
    hide RookLine, BishopLine, Clear, Inside, KnightStep, KingStep, PawnStep, Occupied, Attacked, IsKing;
  }

  lemma EpOccupancy(occ: Bitboard, from: Square, v: Square, to: Square)
    requires from in occ && v in occ && from != v
    ensures Xor(Xor(occ, {from}), {v}) + {to} == occ - {from, v} + {to}
  {
  }

  /** What the test reads of a represented position. */
  ghost predicate Seen(b: Board, us: Color, tk: Square, v: View) {
    && v.board == b && v.side == us
    && TypesSynced(b, v.byType) && ColorsSynced(b, v.byColor)
    && |v.st.checkSquares| == 7 && |v.st.blockers| == 2
    && (forall kind: PieceType :: v.st.checkSquares[TypeIndex(kind)] == CheckSquaresBB(b, us, tk, kind))
    && v.st.blockers[ColorIndex(Flip(us))] == BlockersBB(b, us, tk)
    && PiecesCP(v, White, King) != {} && PiecesCP(v, Black, King) != {}
    && PiecesCP(v, Flip(us), King) == {tk} && KingSquare(v, Flip(us)) == tk
  }

  lemma SeenHolds(z: Zobrist, p: Pos, v: View)
    requires HasKing(p.board, White) && HasKing(p.board, Black) && Represents(z, p, v)
    ensures HasKing(p.board, Flip(p.side)) && Seen(p.board, p.side, KingOf(p.board, Flip(p.side)), v)
  {
    hide *;
    RepresentedPieces(z, p, v);
    RepresentedCaches(z, p, v);
    EitherKing(p.board, Flip(p.side));
    SeenAssembled(p.board, p.side, KingOf(p.board, Flip(p.side)), v);
  }

  lemma EitherKing(b: Board, c: Color)
    requires HasKing(b, White) && HasKing(b, Black)
    ensures HasKing(b, c) && IsKing(b, c, KingOf(b, c))
  {
    assert c == White || c == Black;
  }

  lemma RepresentedCaches(z: Zobrist, p: Pos, v: View)
    requires HasKing(p.board, White) && HasKing(p.board, Black) && Represents(z, p, v)
    ensures v.board == p.board && v.side == p.side && HasKing(p.board, Flip(p.side))
    ensures |v.st.checkSquares| == 7 && |v.st.blockers| == 2
    ensures CheckSquaresFresh(p.board, p.side, v.st)
    ensures v.st.blockers[ColorIndex(Flip(p.side))] == BlockersBB(p.board, p.side, KingOf(p.board, Flip(p.side)))
  {
    hide CheckSquaresBB, BlockersBB, PinnersBB, AuxKeysFresh, MaterialFresh, ThreatsFresh, PathsFresh, TypesSynced,
         ColorsSynced,
         AttackersBB, PositionKey, HasKing, KingOf;
  }

  lemma SeenAssembled(b: Board, us: Color, tk: Square, v: View)
    requires v.board == b && v.side == us && TypesSynced(b, v.byType) && ColorsSynced(b, v.byColor)
    requires HasKing(b, White) && HasKing(b, Black) && HasKing(b, Flip(us)) && tk == KingOf(b, Flip(us))
    requires CheckSquaresFresh(b, us, v.st)
    requires |v.st.checkSquares| == 7 && |v.st.blockers| == 2 &&
             v.st.blockers[ColorIndex(Flip(us))] == BlockersBB(b, us, tk)
    ensures Seen(b, us, tk, v)
  {
    KingSquareExact(b, v, White);
    KingSquareExact(b, v, Black);
    PiecesCPExact(b, v, Flip(us), King);
    assert PiecesCP(v, Flip(us), King) == {tk} by { assert IsKing(b, Flip(us), tk); }
    hide CheckSquaresBB, BlockersBB, PiecesCP, KingSquare, TypesSynced, ColorsSynced, HasKing, KingOf;
  }

  lemma SeenSets(b: Board, us: Color, tk: Square, v: View, from: Square, to: Square, kind: PieceType)
    requires Seen(b, us, tk, v)
    ensures to in v.st.checkSquares[TypeIndex(kind)] <==> kind != King && Hits(Piece(us, kind), to, tk, Occupied(b))
    ensures from in v.st.blockers[ColorIndex(Flip(us))] <==> Blocker(b, us, tk, from)
    ensures LineBB(from, to) * PiecesCP(v, Flip(us), King) == {} <==> !OnLine(from, to, tk)
  {
    assert CheckSquaresBB(b, us, tk, kind) == v.st.checkSquares[TypeIndex(kind)];
    assert tk in LineBB(from, to) <==> OnLine(from, to, tk);
    hide Hits, Occupied, Blocker, OnLine, PiecesCP, KingSquare, TypesSynced, ColorsSynced;
  }

  /** The promotion arm. */
  lemma PromotionArm(b: Board, us: Color, tk: Square, v: View, m: Move)
    requires Seen(b, us, tk, v) && b[m.from] != NoPiece
    ensures AttacksBB(m.promo, m.to, Xor(Pieces(v), {m.from})) * PiecesCP(v, Flip(us), King) != {}
            <==> Hits(Piece(us, m.promo), m.to, tk, Occupied(b) - {m.from})
  {
    assert Pieces(v) == Occupied(b) && m.from in Occupied(b);
    assert Xor(Occupied(b), {m.from}) == Occupied(b) - {m.from};
    ColourBlind(m.promo, m.to, tk, Occupied(b) - {m.from});
    assert tk in AttacksBB(m.promo, m.to, Occupied(b) - {m.from})
           <==> Hits(Piece(White, m.promo), m.to, tk, Occupied(b) - {m.from});
    hide Hits, Occupied, PiecesCP, Xor, AttacksBB;
  }

  /** The en-passant arm. */
  lemma EpArm(b: Board, b': Board, us: Color, tk: Square, v: View, m: Move)
    requires Seen(b, us, tk, v) && IsKing(b, Flip(us), tk) && !Attacked(b, us, tk)
    requires TookEnPassant(b, b', us, m.from, m.to, VictimSquare(m)) && !PawnStep(us, m.to, tk)
    ensures var occ := Xor(Xor(Pieces(v), {m.from}), {VictimSquare(m)}) + {m.to};
            var ours := PiecesC(v, us);
            var ep := BothAttacksBB(KingSquare(v, Flip(us)), occ);
            ((ep.rook * (ours * (PiecesP(v, Queen) + PiecesP(v, Rook))))
             + (ep.bishop * (ours * (PiecesP(v, Queen) + PiecesP(v, Bishop)))) != {}) <==> Attacked(b', us, tk)
  {
    var victim := VictimSquare(m);
    assert m.from in Occupied(b) && victim in Occupied(b) && m.from != victim;
    EpOccupancy(Occupied(b), m.from, victim, m.to);
    assert PiecesP(v, Queen) == OfType(b, Queen) && PiecesP(v, Rook) == OfType(b, Rook) &&
           PiecesP(v, Bishop) == OfType(b, Bishop);
    hide Seen, VictimSquare, Occupied, Attacked, BothAttacksBB, Xor, PawnStep, IsKing, OfType, OfColor;
    EpSliderTest(b, b', us, m.from, m.to, victim, tk,
                 PiecesC(v, us), PiecesP(v, Queen) + PiecesP(v, Rook), PiecesP(v, Queen) + PiecesP(v, Bishop))
      by { assert Seen(b, us, tk, v); SeenPieces(b, us, tk, v); }
    SeenPieces(b, us, tk, v);
  }

  lemma SeenPieces(b: Board, us: Color, tk: Square, v: View)
    requires Seen(b, us, tk, v)
    ensures PiecesC(v, us) == OfColor(b, us) && KingSquare(v, Flip(us)) == tk && Pieces(v) == Occupied(b)
  {
    hide Occupied, OfColor, KingSquare, PiecesCP;
  }

  /** pos_gives_check answers, on a legal move, whether the enemy king is attacked afterwards. */
  lemma GivesCheckExact(z: Zobrist, p: Pos, v: View, m: Move)
    requires WellFormed(p) && Represents(z, p, v) && Legal(p, m)
    ensures |v.byType| == 7 && |v.byColor| == 2 && |v.st.checkSquares| == 7 && |v.st.blockers| == 2
    ensures PiecesCP(v, White, King) != {} && PiecesCP(v, Black, King) != {}
    ensures var b' := After(p.board, p.side, m);
            HasKing(b', Flip(p.side)) && (GivesCheck(v, m) <==> InCheck(b', Flip(p.side)))
  {
    var b, us := p.board, p.side;
    var b' := After(b, us, m);
    hide *;
    LegalScene(p, m);
    SeenHolds(z, p, v);
    var tk := KingOf(b, Flip(us));
    CheckIs(b', Flip(us), tk);
    FlipTwice(us);
    match m.kind {
      case Normal => NormalCheck(p, m, tk);
      case Promotion => PromotionCheck(p, m, tk);
      case EnPassant => EpCheck(p, m, tk); LegalEpTakes(p, m);
      case Castling => CastlingGivesCheck(p, m, tk);
    }
    CodeIsCheckTest(b, b', us, tk, v, m);
  }

  /** Who moves, and where the enemy king is before and after. */
  lemma LegalScene(p: Pos, m: Move)
    requires WellFormed(p) && Legal(p, m)
    ensures HasKing(p.board, White) && HasKing(p.board, Black) && PseudoLegal(p, m)
    ensures HasKing(p.board, Flip(p.side)) && HasKing(After(p.board, p.side, m), p.side)
    ensures var tk := KingOf(p.board, Flip(p.side));
            && IsKing(p.board, Flip(p.side), tk) && !Attacked(p.board, p.side, tk)
            && IsKing(After(p.board, p.side, m), Flip(p.side), tk)
    ensures p.board[m.from].Piece?
    ensures m.kind == Castling ==> p.board[m.from].kind == King
    ensures m.kind == EnPassant ==> p.board[m.from].kind == Pawn
  {
    KingsAfter(p, m);
    CheckIs(p.board, Flip(p.side), KingOf(p.board, Flip(p.side)));
    hide After, Attacked, RightsHome, EpSound, PawnsInside, Hits, PawnPush, PawnDouble, PawnCapture;
  }

  lemma CodeIsCheckTest(b: Board, b': Board, us: Color, tk: Square, v: View, m: Move)
    requires Seen(b, us, tk, v) && IsKing(b, Flip(us), tk) && b[m.from].Piece? && b' == After(b, us, m)
    requires m.kind == Castling ==> b[m.from].kind == King
    requires m.kind == EnPassant ==> b[m.from].kind == Pawn && !Attacked(b, us, tk)
                                     && TookEnPassant(b, b', us, m.from, m.to, VictimSquare(m))
    ensures |v.byType| == 7 && |v.byColor| == 2 && |v.st.checkSquares| == 7 && |v.st.blockers| == 2
    ensures PiecesCP(v, White, King) != {} && PiecesCP(v, Black, King) != {}
    ensures GivesCheck(v, m) <==> CheckTest(b, us, tk, m)
  {
    SeenSets(b, us, tk, v, m.from, m.to, b[m.from].kind);
    match m.kind {
      case Normal =>
      case Promotion => PromotionArm(b, us, tk, v, m);
      case EnPassant =>
        if !PawnStep(us, m.to, tk) {
          EpArm(b, b', us, tk, v, m);
        }
        assert Hits(Piece(us, Pawn), m.to, tk, Occupied(b)) <==> PawnStep(us, m.to, tk);
      case Castling => SeenSets(b, us, tk, v, m.from, RookTarget(CastlingRight(us, m)), Rook);
    }
    assert v.board == b && v.side == us;
    hide Seen, Hits, After, Attacked, BothAttacksBB, AttacksBB, LineBB, OnLine, Blocker, VictimSquare, RookTarget,
         Occupied,
         Xor, PawnStep, KingSquare, PiecesCP, Pieces, PiecesC, PiecesP, TookEnPassant, IsKing;
  }
}
