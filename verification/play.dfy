/** A legal move leads from a well-formed position to a well-formed position. */
module Play {
  import opened Squares
  import opened Types
  import opened Board
  import opened Rules
  import opened Pins

  lemma KingOfIs(b: Board, c: Color, k: Square)
    requires IsKing(b, c, k)
    ensures HasKing(b, c) && KingOf(b, c) == k
  {
  }

  lemma CheckIs(b: Board, c: Color, k: Square)
    requires IsKing(b, c, k)
    ensures HasKing(b, c) && (InCheck(b, c) <==> Attacked(b, Flip(c), k))
  {
    KingOfIs(b, c, k);
  }

  /** No move takes the enemy king: it would have stood attacked already. */
  lemma KingNotTaken(p: Pos, from: Square, to: Square)
    requires WellFormed(p) && Moves(p.board, p.side, from, to)
    ensures p.board[to] != Piece(Flip(p.side), King)
  {
    var b := p.board;
    var tk := KingOf(b, Flip(p.side));
    hide Hits, Inside;
    if b[to] == Piece(Flip(p.side), King) {
      assert to == tk;
    }
    if b[from].kind == Pawn {
      PawnHits(b, p.side, from, tk);
    }
    assert Attacker(b, p.side, from, tk, Occupied(b)) ==> Attacked(b, p.side, tk);
    hide PawnStep, IsKing, KingOf;
  }

  lemma PawnHits(b: Board, us: Color, from: Square, to: Square)
    requires IsColor(b, us, from) && b[from].kind == Pawn
    ensures PawnStep(us, from, to) <==> Hits(b[from], from, to, Occupied(b))
  {
  }

  /** A normal move or a promotion is a step. */
  lemma AfterStepped(b: Board, us: Color, m: Move)
    requires m.kind == Normal || m.kind == Promotion
    requires Moves(b, us, m.from, m.to)
    ensures m.from != m.to
    ensures var b' := After(b, us, m);
            && Stepped(b, b', us, m.from, m.to)
            && b'[m.to] == if m.kind == Normal then b[m.from] else Piece(us, m.promo)
  {
    MoveDistinct(b, us, m.from, m.to);
    hide Hits, PawnPush, PawnDouble, PawnCapture;
  }

  /** Squares the move does not name keep their piece. */
  lemma AfterElsewhere(b: Board, us: Color, m: Move, s: Square)
    requires s != m.from && s != m.to
    requires m.kind == EnPassant ==> s != VictimSquare(m)
    requires m.kind == Castling ==> s != KingTarget(CastlingRight(us, m)) && s != RookTarget(CastlingRight(us, m))
    ensures After(b, us, m)[s] == b[s]
  {
    hide VictimSquare, KingTarget, RookTarget, CastlingRight;
  }

  /** Where the mover's king stands after m. */
  function KingAfter(p: Pos, k: Square, m: Move): Square {
    if m.kind == Castling then KingTarget(CastlingRight(p.side, m)) else if m.from == k then m.to else k
  }

  lemma TargetsOnBackRank(r: Right)
    ensures Rank(KingTarget(r)) == BackRank(r.color) && Rank(RookTarget(r)) == BackRank(r.color)
    ensures KingTarget(r) != RookTarget(r)
  {
  }

  /** The castling rook stands beside its king on the back rank and is not the king. */
  lemma CastlingSquares(p: Pos, m: Move)
    requires WellFormed(p) && PseudoLegal(p, m) && m.kind == Castling
    ensures var r := CastlingRight(p.side, m);
            && RightHome(p.board, p.rooks, r, m.from) && p.rooks[r] == m.to && m.from != m.to
            && (forall x: Square :: x == KingTarget(r) || x == RookTarget(r) ==>
                  x == m.from || x == m.to || p.board[x] == NoPiece)
  {
    var r := CastlingRight(p.side, m);
    var k: Square :| RightHome(p.board, p.rooks, r, k);
    assert CastlingPath(r, m.from, m.to, RookTarget(r)) || RookTarget(r) == m.from || RookTarget(r) == m.to;
    assert CastlingPath(r, m.from, m.to, KingTarget(r)) || KingTarget(r) == m.from || KingTarget(r) == m.to;
  }

  /** Both kings are where the rules say after any pseudo-legal move. */
  lemma KingsAfter(p: Pos, m: Move)
    requires WellFormed(p) && PseudoLegal(p, m)
    ensures var b' := After(p.board, p.side, m);
            && IsKing(b', p.side, KingAfter(p, KingOf(p.board, p.side), m))
            && IsKing(b', Flip(p.side), KingOf(p.board, Flip(p.side)))
  {
    var b, us := p.board, p.side;
    var b' := After(b, us, m);
    var k, tk := KingOf(b, us), KingOf(b, Flip(us));
    if m.kind == Castling {
      CastlingSquares(p, m);
      var r := CastlingRight(us, m);
      TargetsOnBackRank(r);
      KingsAfterCastle(b, us, m.from, m.to, KingTarget(r), RookTarget(r), tk);
    } else if m.kind == EnPassant {
      EpSquares(p, m);
      EpStepped(p, m);
      KingsAfterStep(b[VictimSquare(m) := NoPiece], b', us, m.from, m.to, k, tk);
    } else {
      KingNotTaken(p, m.from, m.to);
      AfterStepped(b, us, m);
      hide Moves, IsKing, After;
      KingsAfterStep(b, b', us, m.from, m.to, k, tk);
    }
  }

  lemma MoveDistinct(b: Board, us: Color, from: Square, to: Square)
    requires Moves(b, us, from, to)
    ensures from != to
  {
  }

  lemma KingsAfterStep(b: Board, b': Board, us: Color, from: Square, to: Square, k: Square, tk: Square)
    requires Stepped(b, b', us, from, to) && IsKing(b, us, k) && IsKing(b, Flip(us), tk)
    requires to != tk && from != to && (b'[to].kind == King <==> from == k)
    ensures IsKing(b', us, if from == k then to else k) && IsKing(b', Flip(us), tk)
  {
  }

  lemma KingsAfterCastle(b: Board, us: Color, from: Square, to: Square, kto: Square, rto: Square, tk: Square)
    requires IsKing(b, us, from) && IsKing(b, Flip(us), tk) && b[to] == Piece(us, Rook) && kto != rto
    requires forall x: Square :: x == kto || x == rto ==> x == from || x == to || b[x] == NoPiece
    ensures var b' := b[from := NoPiece][to := NoPiece][kto := Piece(us, King)][rto := Piece(us, Rook)];
            IsKing(b', us, kto) && IsKing(b', Flip(us), tk)
  {
  }

  /** En passant is a step on the board without the victim. */
  lemma EpStepped(p: Pos, m: Move)
    requires WellFormed(p) && PseudoLegal(p, m) && m.kind == EnPassant
    ensures var b0: Board := p.board[VictimSquare(m) := NoPiece];
            && Stepped(b0, After(p.board, p.side, m), p.side, m.from, m.to)
            && b0[m.from] == p.board[m.from] && After(p.board, p.side, m)[m.to] == p.board[m.from]
            && (forall c: Color, k: Square :: IsKing(p.board, c, k) ==> IsKing(b0, c, k))
  {
    hide *;
    EpSquares(p, m);
    EpMover(p, m);
    TakenStep(p.board, p.side, m);
  }

  lemma EpMover(p: Pos, m: Move)
    requires PseudoLegal(p, m) && m.kind == EnPassant
    ensures p.board[m.from] == Piece(p.side, Pawn)
  {
    hide PawnStep;
  }

  /** With the victim gone, en passant is a step. */
  lemma TakenStep(b: Board, us: Color, m: Move)
    requires m.kind == EnPassant && b[m.from] == Piece(us, Pawn) && b[m.to] == NoPiece && m.from != m.to
    requires VictimSquare(m) != m.from && VictimSquare(m) != m.to && b[VictimSquare(m)] == Piece(Flip(us), Pawn)
    ensures var b0: Board := b[VictimSquare(m) := NoPiece];
            && Stepped(b0, After(b, us, m), us, m.from, m.to)
            && b0[m.from] == b[m.from] && After(b, us, m)[m.to] == b[m.from]
            && (forall c: Color, k: Square :: IsKing(b, c, k) ==> IsKing(b0, c, k))
  {
    var v := VictimSquare(m);
    var b0: Board := b[v := NoPiece];
    assert After(b, us, m) == b0[m.from := NoPiece][m.to := b[m.from]];
    hide VictimSquare, After;
  }

  /** The en-passant square is empty, the victim stands behind it, on the capturer's rank. */
  lemma EpSquares(p: Pos, m: Move)
    requires WellFormed(p) && PseudoLegal(p, m) && m.kind == EnPassant
    ensures VictimSquare(m) == m.to - Up(p.side) && VictimSquare(m) != m.from && m.from != m.to
    ensures p.board[VictimSquare(m)] == Piece(Flip(p.side), Pawn) && p.board[m.to] == NoPiece
    ensures m.to + Up(p.side) < 64 && m.to + Up(p.side) >= 0 && p.board[m.to + Up(p.side)] == NoPiece
  {
    Coords(m.to); Coords(m.from); Coords(VictimSquare(m));
    assert EpSound(p.board, p.side, m.to);
    hide File, Rank, EpAvailable;
  }

  /** A kept right has lost neither its king nor its rook. */
  lemma RightsAfter(p: Pos, m: Move)
    requires WellFormed(p) && PseudoLegal(p, m)
    ensures RightsHome(After(p.board, p.side, m), Next(p, m).rights, p.rooks)
  {
    var b' := After(p.board, p.side, m);
    forall r | r in Next(p, m).rights
      ensures exists k: Square :: RightHome(b', p.rooks, r, k)
    {
      RightAfter(p, m, r);
    }
  }

  lemma RightAfter(p: Pos, m: Move, r: Right)
    requires WellFormed(p) && PseudoLegal(p, m) && r in p.rights && !Touches(p, r, m)
    ensures exists k: Square :: RightHome(After(p.board, p.side, m), p.rooks, r, k)
  {
    var b, us := p.board, p.side;
    var b' := After(b, us, m);
    var k: Square :| RightHome(b, p.rooks, r, k);
    var rook := p.rooks[r];
    UntouchedAfter(p, m, r, k);
    KingsAfter(p, m);
    KingOfIs(b, r.color, k);
    assert IsKing(b', r.color, k) by {
      hide WellFormed, RightHome, KingOf, After, PseudoLegal;
    }
    hide KingOf, IsKing, After, PseudoLegal, WellFormed, Touches;
    assert RightHome(b', p.rooks, r, k);
  }

  /** Neither piece of a kept right is on a square the move changes. */
  lemma UntouchedAfter(p: Pos, m: Move, r: Right, k: Square)
    requires WellFormed(p) && PseudoLegal(p, m) && r in p.rights && !Touches(p, r, m)
    requires RightHome(p.board, p.rooks, r, k)
    ensures var b' := After(p.board, p.side, m);
            b'[k] == p.board[k] && b'[p.rooks[r]] == p.board[p.rooks[r]] && k != m.from
            && (m.kind == Castling ==> r.color != p.side)
  {
    assert IsKing(p.board, r.color, k) && r in p.rooks && Rank(k) == Rank(p.rooks[r]) == BackRank(r.color);
    assert p.board[k] == Piece(r.color, King) && p.board[p.rooks[r]] == Piece(r.color, Rook);
    assert k != m.from && k != m.to && p.rooks[r] != m.from && p.rooks[r] != m.to by {
      hide WellFormed, PseudoLegal, IsKing;
    }
    if m.kind == Castling {
      CastlingSquares(p, m);
      TargetsOnBackRank(CastlingRight(p.side, m));
      KingUnique(p.board, p.side, k, m.from);
      assert IsKing(p.board, p.side, m.from);
    } else if m.kind == EnPassant {
      EpSquares(p, m);
    }
    hide *;
    AfterElsewhere(p.board, p.side, m, k);
    AfterElsewhere(p.board, p.side, m, p.rooks[r]);
  }

  lemma KingUnique(b: Board, c: Color, k: Square, k': Square)
    requires IsKing(b, c, k')
    ensures IsKing(b, c, k) ==> k == k'
  {
  }

  lemma PawnsAfter(p: Pos, m: Move)
    requires WellFormed(p) && PseudoLegal(p, m)
    ensures PawnsInside(After(p.board, p.side, m))
  {
    hide *;
    PawnsBefore(p);
    if m.kind == EnPassant {
      PawnsAfterEp(p, m);
    } else if m.kind == Castling {
      CastleBoard(p, m);
      var r := CastlingRight(p.side, m);
      PawnsAfterCastle(p.board, p.side, m.from, m.to, KingTarget(r), RookTarget(r));
    } else {
      PawnsAfterPlain(p, m);
    }
  }

  lemma PawnsBefore(p: Pos)
    requires WellFormed(p)
    ensures PawnsInside(p.board)
  {
  }

  lemma CastleBoard(p: Pos, m: Move)
    requires m.kind == Castling
    ensures var r := CastlingRight(p.side, m);
            After(p.board, p.side, m) ==
            p.board[m.from := NoPiece][m.to := NoPiece][KingTarget(r) := Piece(p.side,
                King)][RookTarget(r) := Piece(p.side, Rook)]
  {
    hide KingTarget, RookTarget;
  }

  lemma PawnsAfterEp(p: Pos, m: Move)
    requires WellFormed(p) && PseudoLegal(p, m) && m.kind == EnPassant && PawnsInside(p.board)
    ensures PawnsInside(After(p.board, p.side, m))
  {
    hide *;
    EpStepped(p, m);
    EpLandsInside(p, m);
    var b0: Board := p.board[VictimSquare(m) := NoPiece];
    PawnsAfterRemoval(p.board, VictimSquare(m));
    PawnsAfterStep(b0, After(p.board, p.side, m), p.side, m.from, m.to);
  }

  lemma PawnsAfterRemoval(b: Board, s: Square)
    requires PawnsInside(b)
    ensures PawnsInside(b[s := NoPiece])
  {
    hide Rank;
  }

  lemma EpLandsInside(p: Pos, m: Move)
    requires WellFormed(p) && PseudoLegal(p, m) && m.kind == EnPassant
    ensures 1 <= Rank(m.to) <= 6
  {
    assert EpSound(p.board, p.side, m.to);
    hide PawnStep, PawnsInside, RightsHome;
  }

  lemma PawnsAfterPlain(p: Pos, m: Move)
    requires PseudoLegal(p, m) && (m.kind == Normal || m.kind == Promotion) && PawnsInside(p.board)
    ensures PawnsInside(After(p.board, p.side, m))
  {
    PlainLandsInside(p, m);
    AfterStepped(p.board, p.side, m);
    hide After, PseudoLegal, Moves;
    PawnsAfterStep(p.board, After(p.board, p.side, m), p.side, m.from, m.to);
  }

  lemma PlainLandsInside(p: Pos, m: Move)
    requires PseudoLegal(p, m) && (m.kind == Normal || m.kind == Promotion)
    ensures Moves(p.board, p.side, m.from, m.to) && p.board[m.from].Piece?
    ensures m.kind == Normal && p.board[m.from].kind == Pawn ==> 1 <= Rank(m.to) <= 6
  {
    hide Hits, PawnPush, PawnDouble, PawnCapture;
  }

  lemma PawnsAfterCastle(b: Board, us: Color, from: Square, to: Square, kto: Square, rto: Square)
    requires PawnsInside(b)
    ensures PawnsInside(b[from := NoPiece][to := NoPiece][kto := Piece(us, King)][rto := Piece(us, Rook)])
  {
    hide Rank;
  }

  lemma PawnsAfterStep(b: Board, b': Board, us: Color, from: Square, to: Square)
    requires PawnsInside(b) && Stepped(b, b', us, from, to)
    requires b'[to].kind == Pawn ==> 1 <= Rank(to) <= 6
    ensures PawnsInside(b')
  {
    hide Rank;
  }

  /** A double push leaves the square passed over empty, with the pawn behind it. */
  lemma EpAfter(p: Pos, m: Move)
    requires WellFormed(p) && PseudoLegal(p, m) && NextEp(p, m).Some?
    ensures EpSound(After(p.board, p.side, m), Flip(p.side), NextEp(p, m).value)
  {
    hide *;
    var e := NextEp(p, m).value;
    NextEpIs(p, m);
    PushShape(p.board, p.side, m.from, m.to);
    PushedEp(p.board, p.side, m, e);
  }

  lemma NextEpIs(p: Pos, m: Move)
    requires PseudoLegal(p, m) && NextEp(p, m).Some?
    ensures var e := NextEp(p, m).value;
            && m.kind == Normal && p.board[m.from] == Piece(p.side, Pawn) && m.to == m.from + 2 * Up(p.side)
            && e == m.from + Up(p.side)
            && Moves(p.board, p.side, m.from, m.to) && EpAvailable(After(p.board, p.side, m), Flip(p.side), e)
  {
    hide EpAvailable, Moves, After;
  }

  lemma PushedEp(b: Board, us: Color, m: Move, e: Square)
    requires m.kind == Normal && PawnDouble(b, us, m.from, m.to) && b[m.from] == Piece(us, Pawn) && e == m.from + Up(us)
    requires EpAvailable(After(b, us, m), Flip(us), e)
    ensures EpSound(After(b, us, m), Flip(us), e)
  {
    Coords(m.from); Coords(m.to); Coords(e);
    hide EpAvailable, File, Rank;
  }

  lemma PushShape(b: Board, us: Color, from: Square, to: Square)
    requires Moves(b, us, from, to) && b[from].kind == Pawn && to == from + 2 * Up(us)
    ensures PawnDouble(b, us, from, to)
  {
    Coords(from); Coords(to);
    hide File, Rank;
  }

  /** Well-formedness is kept by every legal move. */
  lemma NextWellFormed(p: Pos, m: Move)
    requires WellFormed(p) && Legal(p, m)
    ensures WellFormed(Next(p, m))
  {
    KingsAfter(p, m);
    RightsAfter(p, m);
    PawnsAfter(p, m);
    if NextEp(p, m).Some? {
      EpAfter(p, m);
    }
    var b' := After(p.board, p.side, m);
    KingOfIs(b', p.side, KingAfter(p, KingOf(p.board, p.side), m));
    KingOfIs(b', Flip(p.side), KingOf(p.board, Flip(p.side)));
    hide RightsHome, PawnsInside, EpSound, NextEp, After, IsKing, KingOf, Touches, PseudoLegal;
  }

  /** And by a null move made out of check. */
  lemma NextNullWellFormed(p: Pos)
    requires WellFormed(p) && !InCheck(p.board, p.side)
    ensures WellFormed(NextNull(p))
  {
    hide RightsHome, PawnsInside;
  }

  /** No piece is jumped: what move_piece's masked scans rely on. */
  lemma MovePathClear(p: Pos, from: Square, to: Square)
    requires Moves(p.board, p.side, from, to)
    ensures Clear(from, to, Occupied(p.board))
  {
    var b := p.board;
    match b[from].kind {
      case Knight => KnightOffLine(from, to);
      case King => KingStepClear(from, to);
      case Pawn => PawnPathClear(b, p.side, from, to);
      case _ =>
    }
    hide Inside, RookLine, BishopLine, KnightStep, KingStep, PawnPush, PawnDouble, PawnCapture;
  }

  lemma PawnPathClear(b: Board, us: Color, from: Square, to: Square)
    requires PawnPush(b, us, from, to) || PawnDouble(b, us, from, to) || PawnCapture(b, us, from, to)
    ensures Clear(from, to, Occupied(b))
  {
    forall x: Square | Inside(from, x, to)
      ensures x !in Occupied(b)
    {
      Coords(from); Coords(to); Coords(x);
      hide File, Rank;
    }
  }
}
