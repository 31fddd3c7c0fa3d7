/** The blocker rule: the one test that replaces "make the move and look at the king" for every
    move that is neither a king move nor en passant. */
module Pins {
  import opened Squares
  import opened Types
  import opened Board
  import opened Rules

  predicate Slides(kind: PieceType) {
    kind == Bishop || kind == Rook || kind == Queen
  }

  /** a holds a slider of `them` that would attack k on an empty board. */
  predicate Sniper(b: Board, them: Color, k: Square, a: Square) {
    && IsColor(b, them, a)
    && (|| (RookLine(k, a) && (b[a].kind == Rook || b[a].kind == Queen))
        || (BishopLine(k, a) && (b[a].kind == Bishop || b[a].kind == Queen)))
  }

  /** x is the only piece between k and the sniper a once every sniper is lifted off the board. */
  predicate Screens(b: Board, them: Color, k: Square, x: Square, a: Square) {
    && Sniper(b, them, k, a)
    && Inside(k, x, a) && b[x] != NoPiece && !Sniper(b, them, k, x)
    && forall y: Square :: Inside(k, y, a) && b[y] != NoPiece && !Sniper(b, them, k, y) ==> y == x
  }

  predicate Blocker(b: Board, them: Color, k: Square, x: Square) {
    exists a: Square :: Screens(b, them, k, x, a)
  }

  /** x is the only piece at all between k and the sniper a. */
  predicate Pinned(b: Board, them: Color, k: Square, x: Square, a: Square) {
    && Sniper(b, them, k, a) && Inside(k, x, a)
    && forall y: Square :: Inside(k, y, a) && b[y] != NoPiece ==> y == x
  }

  lemma LineSym(a: Square, b: Square)
    ensures RookLine(a, b) <==> RookLine(b, a)
    ensures BishopLine(a, b) <==> BishopLine(b, a)
  {
  }

  /** A slider attacks k exactly when it is a sniper and its line is open. */
  lemma SniperAttacks(b: Board, them: Color, k: Square, a: Square, occ: Bitboard)
    requires IsColor(b, them, a) && Slides(b[a].kind)
    ensures Attacker(b, them, a, k, occ) <==> Sniper(b, them, k, a) && Clear(k, a, occ)
  {
    LineSym(k, a);
    ClearSym(k, a, occ);
    hide Clear, RookLine, BishopLine;
  }

  lemma SniperSlides(b: Board, them: Color, k: Square, a: Square)
    requires Sniper(b, them, k, a)
    ensures IsColor(b, them, a) && Slides(b[a].kind) && (RookLine(k, a) || BishopLine(k, a))
  {
  }

  /** A screened sniper either pins x outright, or a nearer sniper already attacks k and x
      stands behind it. */
  lemma ScreenedOrDirect(b: Board, them: Color, k: Square, x: Square, a: Square)
    returns (direct: bool, y: Square)
    requires Screens(b, them, k, x, a)
    ensures Sniper(b, them, k, y)
    ensures direct ==> Clear(k, y, Occupied(b)) && Inside(k, y, x)
    ensures !direct ==> Pinned(b, them, k, x, y)
  {
    hide Inside, RookLine, BishopLine, Sniper;
    assert x in Occupied(b);
    y := FirstHit(k, a, Occupied(b));
    assert y != a && !Inside(k, x, y);
    if Sniper(b, them, k, y) {
      direct := true;
      InsideOrder(k, x, y, a);
    } else {
      assert y == x;
      direct := false;
      y := FirstHit(x, a, Occupied(b));
      forall z: Square | Inside(k, z, x) || Inside(x, z, y)
        ensures b[z] == NoPiece
      {
        if Inside(k, z, x) {
          assert z !in Occupied(b);
        } else {
          assert z !in Occupied(b);
        }
      }
      if y != a {
        InsideSym(k, x, a);
        InsideSym(x, y, a);
        InsideTrans(a, y, x, k);
        InsideSym(a, y, k);
        InsideSym(y, x, k);
        InsideDistinct(x, y, a);
      }
      assert Sniper(b, them, k, y);
      forall z: Square | Inside(k, z, y) && b[z] != NoPiece
        ensures z == x
      {
        InsideSplit(k, x, y, z);
      }
    }
  }

  /** b' is b with one piece of `us` gone from `from` and a piece of `us` standing on `to`. */
  predicate Stepped(b: Board, b': Board, us: Color, from: Square, to: Square) {
    && IsColor(b, us, from) && !IsColor(b, us, to)
    && b'[from] == NoPiece && IsColor(b', us, to)
    && forall s: Square :: s != from && s != to ==> b'[s] == b[s]
  }

  lemma SteppedOccupied(b: Board, b': Board, us: Color, from: Square, to: Square)
    requires Stepped(b, b', us, from, to)
    ensures Occupied(b') == Occupied(b) - {from} + {to}
  {
  }

  /** Necessary: every checker is blocked or taken, and a blocker stays on its line. */
  lemma SafeStepNeeds(b: Board, b': Board, us: Color, k: Square, from: Square, to: Square)
    requires Stepped(b, b', us, from, to) && IsKing(b, us, k) && k != from
    requires !Attacked(b', Flip(us), k)
    ensures forall a: Square :: Attacker(b, Flip(us), a, k, Occupied(b)) ==> Span(k, a, to)
    ensures !Blocker(b, Flip(us), k, from) || OnLine(k, from, to)
  {
    var them := Flip(us);
    SteppedOccupied(b, b', us, from, to);
    forall a: Square | Attacker(b, them, a, k, Occupied(b))
      ensures Span(k, a, to) || Attacked(b', them, k)
    {
      CheckerMustBeMet(b, b', us, k, from, to, a);
    }
    if Blocker(b, them, k, from) && !OnLine(k, from, to) {
      var a: Square :| Screens(b, them, k, from, a);
      BlockerMustStay(b, b', us, k, from, to, a);
    }
  }

  lemma CheckerMustBeMet(b: Board, b': Board, us: Color, k: Square, from: Square, to: Square, a: Square)
    requires Stepped(b, b', us, from, to) && IsKing(b, us, k) && k != from
    requires Attacker(b, Flip(us), a, k, Occupied(b))
    ensures Span(k, a, to) || Attacked(b', Flip(us), k)
  {
    hide Inside, RookLine, BishopLine, KnightStep, KingStep, PawnStep;
    SteppedOccupied(b, b', us, from, to);
    if !Span(k, a, to) {
      ClearSym(k, a, Occupied(b));
      InsideSym(k, to, a);
      assert Attacker(b', Flip(us), a, k, Occupied(b'));
    }
  }

  lemma BlockerMustStay(b: Board, b': Board, us: Color, k: Square, from: Square, to: Square, a: Square)
    requires Stepped(b, b', us, from, to) && IsKing(b, us, k) && k != from
    requires Screens(b, Flip(us), k, from, a) && !OnLine(k, from, to)
    ensures Attacked(b', Flip(us), k)
  {
    var them := Flip(us);
    SteppedOccupied(b, b', us, from, to);
    var direct, y := ScreenedOrDirect(b, them, k, from, a);
    hide Inside, RookLine, BishopLine, OnLine;
    if direct {
      InsideLine(k, y, from);
      OffLineClear(k, y, from, to);
    } else {
      InsideLine(k, from, y);
      OffLineClear(k, y, from, to);
    }
    SniperSlides(b, them, k, y);
    assert Clear(k, y, Occupied(b'));
    assert Sniper(b', them, k, y);
    SniperAttacks(b', them, k, y, Occupied(b'));
  }

  /** A square off the line k-from is neither y nor between k and y, for y on that line. */
  lemma OffLineClear(k: Square, y: Square, from: Square, to: Square)
    requires Inside(k, y, from) || Inside(k, from, y)
    requires !OnLine(k, from, to)
    ensures to != y && !Inside(k, to, y)
  {
    Coords(k); Coords(y); Coords(from); Coords(to);
    hide File, Rank;
  }

  /** Sufficient: see SafeStepNeeds. `to` must be reached without jumping when it stays on
      the line through the king. */
  lemma SafeStepSuffices(b: Board, b': Board, us: Color, k: Square, from: Square, to: Square)
    requires Stepped(b, b', us, from, to) && IsKing(b, us, k) && k != from
    requires forall a: Square :: Attacker(b, Flip(us), a, k, Occupied(b)) ==> Span(k, a, to)
    requires !Blocker(b, Flip(us), k, from) || OnLine(k, from, to)
    requires OnLine(k, from, to) ==> Clear(from, to, Occupied(b))
    ensures !Attacked(b', Flip(us), k)
  {
    var them := Flip(us);
    if Attacked(b', them, k) {
      var a: Square :| Attacker(b', them, a, k, Occupied(b'));
      SafeStepNoAttack(b, b', us, k, from, to, a);
    }
  }

  lemma SafeStepNoAttack(b: Board, b': Board, us: Color, k: Square, from: Square, to: Square, a: Square)
    requires Stepped(b, b', us, from, to) && IsKing(b, us, k) && k != from
    requires forall a: Square :: Attacker(b, Flip(us), a, k, Occupied(b)) ==> Span(k, a, to)
    requires !Blocker(b, Flip(us), k, from) || OnLine(k, from, to)
    requires OnLine(k, from, to) ==> Clear(from, to, Occupied(b))
    ensures !Attacker(b', Flip(us), a, k, Occupied(b'))
  {
    var them := Flip(us);
    hide Inside, RookLine, BishopLine, OnLine, KnightStep, KingStep, PawnStep;
    SteppedOccupied(b, b', us, from, to);
    if Attacker(b', them, a, k, Occupied(b')) {
      assert b[a] == b'[a] && a != to && a != from;
      if Slides(b[a].kind) {
        SniperAttacks(b', them, k, a, Occupied(b'));
        SniperAttacks(b, them, k, a, Occupied(b));
        assert Sniper(b, them, k, a);
        assert !Inside(k, to, a);
        if !Clear(k, a, Occupied(b)) {
          assert Pinned(b, them, k, from, a);
          assert Screens(b, them, k, from, a);
          assert !Inside(from, k, to) by { assert k in Occupied(b); }
          assert !Inside(from, a, to) by { assert a in Occupied(b); }
          PinRay(k, from, a, to);
        }
      } else {
        assert Attacker(b, them, a, k, Occupied(b));
        SpanOfLeaper(b, them, a, k, to);
      }
    }
  }

  /** Nothing can be interposed against a pawn, a knight or a king. */
  lemma SpanOfLeaper(b: Board, them: Color, a: Square, k: Square, to: Square)
    requires IsColor(b, them, a) && !Slides(b[a].kind) && Hits(b[a], a, k, Occupied(b))
    ensures !Inside(k, to, a)
  {
    if b[a].kind == Knight {
      KnightOffLine(a, k);
      InsideSym(k, to, a);
    } else {
      KingStepClear(a, k);
      InsideSym(k, to, a);
    }
  }

  /** No one square answers two checkers at once. */
  lemma TwoCheckersOneSquare(b: Board, them: Color, k: Square, a1: Square, a2: Square, to: Square)
    requires Attacker(b, them, a1, k, Occupied(b)) && Attacker(b, them, a2, k, Occupied(b)) && a1 != a2
    ensures !(Span(k, a1, to) && Span(k, a2, to))
  {
    hide Inside, RookLine, BishopLine, KnightStep, KingStep, PawnStep;
    ClearSym(a1, k, Occupied(b));
    ClearSym(a2, k, Occupied(b));
    assert a1 in Occupied(b) && a2 in Occupied(b);
    assert !Inside(k, a1, a2) by { NoCheckerBetween(b, them, k, a1, a2); }
    assert !Inside(k, a2, a1) by { NoCheckerBetween(b, them, k, a2, a1); }
    if Inside(k, to, a1) && Inside(k, to, a2) {
      InsideFan(k, to, a1, a2);
    }
  }

  lemma NoCheckerBetween(b: Board, them: Color, k: Square, a1: Square, a2: Square)
    requires b[a1] != NoPiece && Attacker(b, them, a2, k, Occupied(b))
    ensures !Inside(k, a1, a2)
  {
    assert a1 in Occupied(b);
    if Slides(b[a2].kind) {
      ClearSym(a2, k, Occupied(b));
    } else {
      SpanOfLeaper(b, them, a2, k, a1);
    }
  }
}
