/** pos_gives_check: the cached check squares and blockers decide whether a legal move attacks
    the enemy king on the board it leads to. */
module CheckRule {
  import opened Squares
  import opened Types
  import opened Board
  import opened Rules
  import opened Attacks
  import opened Pins
  import opened Derived
  import opened Views
  import opened Play
  import opened EnPassantRule

  /** The code's test, reading the cached sets. */
  function GivesCheck(v: View, m: Move): bool
    requires |v.byType| == 7 && |v.byColor| == 2 && |v.st.checkSquares| == 7 && |v.st.blockers| == 2
    requires PiecesCP(v, White, King) != {} && PiecesCP(v, Black, King) != {}
  {
    var us := v.side;
    var them := Flip(us);
    var king := PiecesCP(v, them, King);
    if v.board[m.from].Piece? && m.to in v.st.checkSquares[TypeIndex(v.board[m.from].kind)] then true
    else if m.from in v.st.blockers[ColorIndex(them)] then
      LineBB(m.from, m.to) * king == {} || m.kind == Castling
    else match m.kind
      case Normal => false
      case Promotion => AttacksBB(m.promo, m.to, Xor(Pieces(v), {m.from})) * king != {}
      case EnPassant =>
        var capsq := VictimSquare(m);
        var occ := Xor(Xor(Pieces(v), {m.from}), {capsq}) + {m.to};
        var ours := PiecesC(v, us);
        var ep := BothAttacksBB(KingSquare(v, them), occ);
        (ep.rook * (ours * (PiecesP(v, Queen) + PiecesP(v, Rook))))
        + (ep.bishop * (ours * (PiecesP(v, Queen) + PiecesP(v, Bishop)))) != {}
      case Castling => RookTarget(CastlingRight(us, m)) in v.st.checkSquares[TypeIndex(Rook)]
  }

  // ----- normal moves and promotions -----

  /** A slider other than the mover checks after the step exactly when the mover screened it
      and has left the line. */
  lemma DiscoveredCheck(b: Board, b': Board, us: Color, tk: Square, from: Square, to: Square)
    requires Stepped(b, b', us, from, to) && IsKing(b, Flip(us), tk) && to != tk
    requires !Attacked(b, us, tk)
    requires Clear(from, to, Occupied(b))
    ensures (exists a: Square :: a != to && Attacker(b', us, a, tk, Occupied(b')))
            <==> Blocker(b, us, tk, from) && !OnLine(from, to, tk)
  {
    hide Inside, RookLine, BishopLine, OnLine, Hits;
    SteppedOccupied(b, b', us, from, to);
    if a: Square :| a != to && Attacker(b', us, a, tk, Occupied(b')) {
      DiscoverersMover(b, b', us, tk, from, to, a);
    }
    if Blocker(b, us, tk, from) && !OnLine(from, to, tk) {
      var a: Square :| Screens(b, us, tk, from, a);
      var direct, y := ScreenedOrDirect(b, us, tk, from, a);
      SniperSlides(b, us, tk, y);
      SniperAttacks(b, us, tk, y, Occupied(b));
      assert !direct;
      OnLineTurn(from, to, tk, y);
      assert y != to && y != from;
      assert b'[y] == b[y];
      assert Sniper(b', us, tk, y);
      assert Clear(tk, y, Occupied(b'));
      SniperAttacks(b', us, tk, y, Occupied(b'));
    }
  }

  /** From inside tk-y, a square off the line through from and tk is neither y nor before it. */
  lemma OnLineTurn(from: Square, to: Square, tk: Square, y: Square)
    requires Inside(tk, from, y)
    ensures OnLine(from, to, tk) || from == to || to == tk <==> OnLine(tk, from, to) || from == to || to == tk
    ensures !OnLine(from, to, tk) && from != to && to != tk ==> to != y && !Inside(tk, to, y)
  {
    Coords(from); Coords(to); Coords(tk); Coords(y);
    hide File, Rank;
  }

  lemma DiscoverersMover(b: Board, b': Board, us: Color, tk: Square, from: Square, to: Square, a: Square)
    requires Stepped(b, b', us, from, to) && IsKing(b, Flip(us), tk) && to != tk
    requires !Attacked(b, us, tk) && Clear(from, to, Occupied(b))
    requires a != to && Attacker(b', us, a, tk, Occupied(b'))
    ensures Blocker(b, us, tk, from) && !OnLine(from, to, tk)
  {
    hide Inside, RookLine, BishopLine, OnLine, KnightStep, KingStep, PawnStep;
    SteppedOccupied(b, b', us, from, to);
    assert a != from && b'[a] == b[a];
    assert !Attacker(b, us, a, tk, Occupied(b));
    assert Slides(b[a].kind);
    SniperAttacks(b, us, tk, a, Occupied(b));
    SniperAttacks(b', us, tk, a, Occupied(b'));
    assert Sniper(b, us, tk, a);
    assert Pinned(b, us, tk, from, a) && Inside(tk, from, a);
    FromIsNoSniper(b, us, tk, from, a);
    assert Screens(b, us, tk, from, a);
    assert tk in Occupied(b) && a in Occupied(b) && to in Occupied(b');
    OnLineTurn(from, to, tk, a);
    assert from in Occupied(b) && !Inside(from, tk, to) && !Inside(from, a, to);
    if OnLine(tk, from, to) && to != from {
      PinRay(tk, from, a, to);
    }
    OnLineNot(from, to, tk);
  }

  lemma OnLineNot(from: Square, to: Square, tk: Square)
    ensures OnLine(from, to, tk) ==> from != to
  {
  }

  /** A lone piece of the sniper's own side is no sniper itself, or it would attack already. */
  lemma FromIsNoSniper(b: Board, us: Color, tk: Square, x: Square, a: Square)
    requires Pinned(b, us, tk, x, a) && !Attacked(b, us, tk)
    ensures !Sniper(b, us, tk, x)
  {
    hide Inside, RookLine, BishopLine;
    forall y: Square | Inside(tk, y, x)
      ensures y !in Occupied(b)
    {
      InsideTrans(tk, y, x, a);
      InsideDistinct(tk, y, x);
    }
    assert !Attacker(b, us, x, tk, Occupied(b));
    if IsColor(b, us, x) && Slides(b[x].kind) {
      SniperAttacks(b, us, tk, x, Occupied(b));
    }
  }

  /** The piece that moved attacks tk from its new square under the old occupancy exactly when
      it does under the new one. */
  lemma DirectCheckSame(b: Board, b': Board, us: Color, tk: Square, from: Square, to: Square)
    requires Stepped(b, b', us, from, to) && b'[to] == b[from] && tk != to && tk != from
    requires !Attacker(b, us, from, tk, Occupied(b))
    ensures Hits(b[from], to, tk, Occupied(b)) <==> Hits(b[from], to, tk, Occupied(b'))
  {
    hide Inside, RookLine, BishopLine, KnightStep, KingStep, PawnStep;
    SteppedOccupied(b, b', us, from, to);
    assert from in Occupied(b);
    if Inside(to, from, tk) {
      InsideKind2(to, from, tk);
      assert Clear(to, tk, Occupied(b')) ==> Clear(from, tk, Occupied(b)) by {
        forall x: Square | Inside(from, x, tk)
          ensures Inside(to, x, tk) && x != to && x != from
        {
          InsideTail(to, from, tk, x);
        }
      }
    } else {
      InsideNotEnd(to, tk);
      assert Clear(to, tk, Occupied(b)) <==> Clear(to, tk, Occupied(b'));
    }
  }

  lemma InsideNotEnd(a: Square, b: Square)
    ensures !Inside(a, a, b)
  {
  }

  lemma InsideKind2(a: Square, x: Square, b: Square)
    requires Inside(a, x, b)
    ensures RookLine(x, b) <==> RookLine(a, b)
    ensures BishopLine(x, b) <==> BishopLine(a, b)
  {
    Coords(a); Coords(x); Coords(b);
    hide File, Rank;
  }

  lemma InsideTail(a: Square, x: Square, b: Square, y: Square)
    requires Inside(a, x, b) && Inside(x, y, b)
    ensures Inside(a, y, b) && y != a && y != x
  {
    Coords(a); Coords(x); Coords(b); Coords(y);
    hide File, Rank;
  }

  /** Kings never stand next to each other: the move would be illegal. */
  lemma KingsApart(b: Board, us: Color, k: Square, tk: Square)
    requires IsKing(b, us, k) && IsKing(b, Flip(us), tk) && !Attacked(b, Flip(us), k)
    ensures !KingStep(k, tk)
  {
    assert KingStep(k, tk) <==> KingStep(tk, k);
    assert !Attacker(b, Flip(us), tk, k, Occupied(b));
    hide KingStep;
  }

  /** What check means after a step: the arrived piece, or a discovery. */
  lemma StepCheck(b: Board, b': Board, us: Color, tk: Square, from: Square, to: Square)
    requires Stepped(b, b', us, from, to) && IsKing(b, Flip(us), tk) && to != tk
    requires !Attacked(b, us, tk) && Clear(from, to, Occupied(b))
    ensures Attacked(b', us, tk) <==>
              Hits(b'[to], to, tk, Occupied(b')) || (Blocker(b, us, tk, from) && !OnLine(from, to, tk))
  {
    DiscoveredCheck(b, b', us, tk, from, to);
    hide Blocker, OnLine, Hits, Clear;
    if Hits(b'[to], to, tk, Occupied(b')) {
      assert Attacker(b', us, to, tk, Occupied(b'));
    }
  }

  /** A pawn about to promote is never screening along the line it moves on. */
  lemma PromotionLeavesLine(us: Color, from: Square, to: Square, tk: Square, a: Square)
    requires KingStep(from, to) && RelativeRank(us, to) == 7 && RelativeRank(us, from) == 6
    requires Inside(tk, from, a)
    ensures !Inside(tk, to, a)
  {
    Coords(from); Coords(to); Coords(tk); Coords(a);
    hide File, Rank;
  }

  lemma PromotionShape(b: Board, us: Color, from: Square, to: Square)
    requires Moves(b, us, from, to) && b[from].kind == Pawn && RelativeRank(us, to) == 7
    ensures RelativeRank(us, from) == 6 && KingStep(from, to)
  {
    Coords(from); Coords(to);
    hide File, Rank;
  }

  /** The code's test on the board itself. */
  predicate CheckTest(b: Board, us: Color, tk: Square, m: Move) {
    if b[m.from].Piece? && b[m.from].kind != King && Hits(Piece(us, b[m.from].kind), m.to, tk, Occupied(b)) then true
    else if Blocker(b, us, tk, m.from) then !OnLine(m.from, m.to, tk) || m.kind == Castling
    else match m.kind
      case Normal => false
      case Promotion => Hits(Piece(us, m.promo), m.to, tk, Occupied(b) - {m.from})
      case EnPassant => Attacked(After(b, us, m), us, tk)
      case Castling => Hits(Piece(us, Rook), RookTarget(CastlingRight(us, m)), tk, Occupied(b))
  }

  lemma NormalCheck(p: Pos, m: Move, tk: Square)
    requires WellFormed(p) && Legal(p, m) && m.kind == Normal && IsKing(p.board, Flip(p.side), tk)
    ensures CheckTest(p.board, p.side, tk, m) <==> Attacked(After(p.board, p.side, m), p.side, tk)
  {
    var b, us := p.board, p.side;
    var b' := After(b, us, m);
    CheckIs(b, Flip(us), tk);
    KingNotTaken(p, m.from, m.to);
    AfterStepped(b, us, m);
    MovePathClear(p, m.from, m.to);
    assert !Attacker(b, us, m.from, tk, Occupied(b));
    if b[m.from].kind == King {
      KingMoveNoCheck(p, m, tk);
    } else {
      assert tk != m.from;
      DirectCheckSame(b, b', us, tk, m.from, m.to);
    }
    hide After, Hits, Blocker, OnLine, Clear, WellFormed, Legal, Attacked;
    StepCheck(b, b', us, tk, m.from, m.to);
  }

  lemma KingMoveNoCheck(p: Pos, m: Move, tk: Square)
    requires WellFormed(p) && Legal(p, m) && m.kind == Normal && IsKing(p.board, Flip(p.side), tk)
    requires p.board[m.from].kind == King
    ensures !Hits(p.board[m.from], m.to, tk, Occupied(After(p.board, p.side, m)))
  {
    var b, us := p.board, p.side;
    var b' := After(b, us, m);
    KingsAfter(p, m);
    KingOfIs(b, Flip(us), tk);
    KingOfIs(b, us, m.from) by { assert IsKing(b, us, KingOf(b, us)); }
    CheckIs(b', us, m.to);
    KingsApart(b', us, m.to, tk);
    hide After, Occupied, Attacked, WellFormed;
  }

  lemma PromotionCheck(p: Pos, m: Move, tk: Square)
    requires WellFormed(p) && Legal(p, m) && m.kind == Promotion && IsKing(p.board, Flip(p.side), tk)
    ensures CheckTest(p.board, p.side, tk, m) <==> Attacked(After(p.board, p.side, m), p.side, tk)
  {
    var b, us := p.board, p.side;
    var b' := After(b, us, m);
    CheckIs(b, Flip(us), tk);
    KingNotTaken(p, m.from, m.to);
    AfterStepped(b, us, m);
    MovePathClear(p, m.from, m.to);
    PromotionShape(b, us, m.from, m.to);
    SteppedOccupied(b, b', us, m.from, m.to);
    PromotedOccupancy(Piece(us, m.promo), m.to, tk, Occupied(b), m.from);
    LastRankPawn(us, m.to, tk);
    ScreenNotOnLine(b, us, tk, m.from, m.to);
    hide After, Blocker, OnLine, Clear, WellFormed, Legal, Attacked, KnightStep, KingStep, PawnStep, RookLine,
         BishopLine;
    StepCheck(b, b', us, tk, m.from, m.to);
  }

  lemma LastRankPawn(us: Color, to: Square, tk: Square)
    requires RelativeRank(us, to) == 7
    ensures !PawnStep(us, to, tk)
  {
  }

  lemma PromotedOccupancy(pc: Piece, to: Square, tk: Square, occ: Bitboard, from: Square)
    requires pc.Piece?
    ensures Hits(pc, to, tk, occ - {from}) <==> Hits(pc, to, tk, occ - {from} + {to})
  {
    InsideNotEnd(to, tk);
    assert Clear(to, tk, occ - {from}) <==> Clear(to, tk, occ - {from} + {to});
    hide Clear;
  }

  lemma ScreenNotOnLine(b: Board, us: Color, tk: Square, from: Square, to: Square)
    requires !Attacked(b, us, tk) && b[tk] != NoPiece
    requires KingStep(from, to) && RelativeRank(us, to) == 7 && RelativeRank(us, from) == 6 && to != tk
    requires IsColor(b, us, from) && !IsColor(b, us, to)
    ensures !Blocker(b, us, tk, from) || !OnLine(from, to, tk)
  {
    hide Inside, OnLine, Sniper, RookLine, BishopLine;
    if Blocker(b, us, tk, from) && OnLine(from, to, tk) {
      var s: Square :| Screens(b, us, tk, from, s);
      var direct, y := ScreenedOrDirect(b, us, tk, from, s);
      SniperSlides(b, us, tk, y);
      SniperAttacks(b, us, tk, y, Occupied(b));
      assert !direct;
      OnLineTurn(from, to, tk, y);
      KingStepClear(from, to);
      PinRay(tk, from, y, to);
      PromotionLeavesLine(us, from, to, tk, y);
    }
  }

  // ----- en passant -----

  /** With the capturer on a line through tk and the arrival square, the victim is on no line
      through tk that misses both. */
  lemma VictimSkewed(from: Square, to: Square, v: Square, tk: Square, a: Square)
    requires Abs(File(from) - File(to)) == 1 && Abs(Rank(from) - Rank(to)) == 1
    requires v == MakeSquare(File(to), Rank(from)) && OnLine(from, to, tk) && tk != from && tk != to
    ensures !Inside(tk, v, a)
  {
    Coords(from); Coords(to); Coords(v); Coords(tk); Coords(a);
    hide File, Rank;
  }

  /** b' is b after `us` takes en passant from-to, the victim on v. */
  ghost predicate TookEnPassant(b: Board, b': Board, us: Color, from: Square, to: Square, v: Square) {
    && b[from] == Piece(us, Pawn) && b[to] == NoPiece && b[v] == Piece(Flip(us), Pawn)
    && PawnStep(us, from, to) && v == MakeSquare(File(to), Rank(from))
    && Occupied(b') == Occupied(b) - {from, v} + {to}
    && b'[to] == Piece(us, Pawn)
    && forall a: Square :: a != to ==> (IsColor(b', us, a) <==> IsColor(b, us, a) && a != from)
                                       && (IsColor(b', us, a) ==> b'[a] == b[a])
  }

  lemma LegalEpTakes(p: Pos, m: Move)
    requires WellFormed(p) && PseudoLegal(p, m) && m.kind == EnPassant
    ensures TookEnPassant(p.board, After(p.board, p.side, m), p.side, m.from, m.to, VictimSquare(m))
  {
    hide *;
    EpSquares(p, m);
    EpStepped(p, m);
    EpMover(p, m);
    EpStepOf(p, m);
    TookOf(p.board, After(p.board, p.side, m), p.side, m.from, m.to, VictimSquare(m));
  }

  lemma EpStepOf(p: Pos, m: Move)
    requires PseudoLegal(p, m) && m.kind == EnPassant
    ensures PawnStep(p.side, m.from, m.to) && VictimSquare(m) == MakeSquare(File(m.to), Rank(m.from))
  {
    hide PawnStep, File, Rank;
  }

  lemma TookOf(b: Board, b': Board, us: Color, from: Square, to: Square, v: Square)
    requires b[from] == Piece(us, Pawn) && b[to] == NoPiece && v != from && from != to && b[v] == Piece(Flip(us), Pawn)
    requires PawnStep(us, from, to) && v == MakeSquare(File(to), Rank(from))
    requires Stepped(b[v := NoPiece], b', us, from, to) && b'[to] == b[from]
    ensures TookEnPassant(b, b', us, from, to, v)
  {
    var b0: Board := b[v := NoPiece];
    SteppedOccupied(b0, b', us, from, to);
    assert Occupied(b0) == Occupied(b) - {v};
    hide Occupied;
  }

  lemma EpCheck(p: Pos, m: Move, tk: Square)
    requires WellFormed(p) && Legal(p, m) && m.kind == EnPassant && IsKing(p.board, Flip(p.side), tk)
    ensures CheckTest(p.board, p.side, tk, m) <==> Attacked(After(p.board, p.side, m), p.side, tk)
  {
    var b, us := p.board, p.side;
    var b' := After(b, us, m);
    var v := VictimSquare(m);
    CheckIs(b, Flip(us), tk);
    LegalEpTakes(p, m);
    assert b[m.from] == Piece(us, Pawn) && tk != m.to && tk != m.from;
    hide After, Blocker, OnLine, WellFormed, Legal, Occupied;
    if Hits(Piece(us, Pawn), m.to, tk, Occupied(b)) {
      assert Attacker(b', us, m.to, tk, Occupied(b'));
    } else if Blocker(b, us, tk, m.from) {
      if OnLine(m.from, m.to, tk) {
        forall a: Square
          ensures !Attacker(b', us, a, tk, Occupied(b'))
        {
          EpStaysOnLine(b, b', us, m.from, m.to, v, tk, a);
        }
      } else {
        EpLeavesLine(b, b', us, m.from, m.to, v, tk);
      }
    }
  }

  lemma EpStaysOnLine(b: Board, b': Board, us: Color, from: Square, to: Square, v: Square, tk: Square, a: Square)
    requires TookEnPassant(b, b', us, from, to, v) && IsKing(b, Flip(us), tk) && !Attacked(b, us, tk)
    requires OnLine(from, to, tk) && !PawnStep(us, to, tk)
    ensures !Attacker(b', us, a, tk, Occupied(b'))
  {
    assert !Attacker(b, us, a, tk, Occupied(b));
    PawnStepKingStep(us, from, to);
    assert tk != from && tk != to;
    assert to in Occupied(b') && from !in Occupied(b');
    OnLineSym(from, to, tk);
    OnLineSym(to, from, tk);
    VictimSkewed(from, to, v, tk, a);
    hide Inside, OnLine, RookLine, BishopLine, PawnStep, KnightStep, KingStep, Occupied, Attacked, IsKing;
    if a != to && IsColor(b', us, a) && Slides(b'[a].kind) {
      SniperAttacks(b, us, tk, a, Occupied(b));
      SniperAttacks(b', us, tk, a, Occupied(b'));
      assert a != to;
      if Sniper(b, us, tk, a) && Inside(tk, from, a) {
        CaptureStays(from, to, tk, a);
      } else {
        assert Clear(tk, a, Occupied(b')) ==> Clear(tk, a, Occupied(b));
      }
    }
  }

  lemma EpLeavesLine(b: Board, b': Board, us: Color, from: Square, to: Square, v: Square, tk: Square)
    requires TookEnPassant(b, b', us, from, to, v) && IsKing(b, Flip(us), tk) && !Attacked(b, us, tk)
    requires Blocker(b, us, tk, from) && !OnLine(from, to, tk)
    ensures Attacked(b', us, tk)
  {
    var y := BlockerPins(b, us, tk, from);
    SniperSlides(b, us, tk, y);
    assert tk != to && tk != from && from != to;
    OnLineTurn(from, to, tk, y);
    hide Inside, OnLine, RookLine, BishopLine, PawnStep, Blocker, IsKing;
    assert y != from && y != to;
    assert b'[y] == b[y];
    assert Sniper(b', us, tk, y);
    assert Clear(tk, y, Occupied(b'));
    SniperAttacks(b', us, tk, y, Occupied(b'));
  }
}
