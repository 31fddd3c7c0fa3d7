/** En-passant captures in the generator: since the square is set only when some capture on it is
    legal, the diagonal pins decide all of them, in and out of check. */
module EpLegal {
  import opened Squares
  import opened Types
  import opened Board
  import opened Rules
  import opened Pins
  import opened Play
  import opened EnPassantRule
  import opened LegalMoves

  /** A capture on e, by the pawn on c, of the pawn on v; b2 is the board it leads to. */
  ghost predicate Take(b: Board, us: Color, c: Square, e: Square, v: Square, b2: Board) {
    && b[c] == Piece(us, Pawn) && b[e] == NoPiece && b[v] == Piece(Flip(us), Pawn)
    && PawnStep(us, c, e) && v == e - Up(us)
    && b2 == b[c := NoPiece][v := NoPiece][e := Piece(us, Pawn)]
  }

  lemma TakeSquares(b: Board, us: Color, c: Square, e: Square, v: Square, b2: Board)
    requires Take(b, us, c, e, v, b2)
    ensures c != e && e != v && c != v && KingStep(c, e)
    ensures Occupied(b2) == Occupied(b) - {c, v} + {e}
    ensures Rank(c) == Rank(v) && File(v) == File(e)
  {
    PawnStepKingStep(us, c, e);
    Coords(c); Coords(e); Coords(v);
    hide KingStep, File, Rank;
  }

  /** The legal capture c0 tells what the checkers are: the victim, or sliders e interposes. */
  lemma EpCheckers(b: Board, us: Color, k: Square, e: Square, v: Square, c0: Square, b0: Board, a: Square)
    requires Take(b, us, c0, e, v, b0) && !Attacked(b0, Flip(us), k)
    requires Attacker(b, Flip(us), a, k, Occupied(b))
    ensures a == v || (Slides(b[a].kind) && Inside(k, e, a))
  {
    TakeSquares(b, us, c0, e, v, b0);
    assert !Attacker(b0, Flip(us), a, k, Occupied(b0));
    InsideSym(a, e, k);
    EnemyStays(b, us, c0, e, v, b0, a);
    hide Inside, RookLine, BishopLine, KnightStep, KingStep, PawnStep, Occupied, Take;
    if a != v {
      assert Clear(a, k, Occupied(b0)) <==> Clear(a, k, Occupied(b)) && !Inside(a, e, k) by {
        EpClear(b, us, c0, e, v, b0, a, k);
      }
    }
  }

  /** Enemy pieces other than the victim stay where they are. */
  lemma EnemyStays(b: Board, us: Color, c: Square, e: Square, v: Square, b2: Board, a: Square)
    requires Take(b, us, c, e, v, b2)
    ensures IsColor(b2, Flip(us), a) ==> IsColor(b, Flip(us), a) && b2[a] == b[a] && a != v && a != e && a != c
    ensures IsColor(b, Flip(us), a) && a != v ==> b2[a] == b[a] && a != e && a != c
  {
    TakeSquares(b, us, c, e, v, b2);
    hide Occupied, PawnStep;
  }

  lemma EpClear(b: Board, us: Color, c: Square, e: Square, v: Square, b2: Board, a: Square, k: Square)
    requires Take(b, us, c, e, v, b2)
    requires Clear(a, k, Occupied(b)) || Clear(k, a, Occupied(b))
    ensures Clear(a, k, Occupied(b2)) <==> Clear(a, k, Occupied(b)) && !Inside(a, e, k)
  {
    ClearSym(a, k, Occupied(b));
    TakeSquares(b, us, c, e, v, b2);
    hide Inside, Occupied, PawnStep;
  }

  /** Two different capturers stand on either side of the victim. */
  lemma TwoCapturers(us: Color, c: Square, c0: Square, e: Square, v: Square, k: Square, a: Square)
    requires PawnStep(us, c, e) && PawnStep(us, c0, e) && v == e - Up(us) && c != c0
    requires Inside(k, c, a) && Inside(k, v, a)
    ensures c0 == k || c0 == a || Inside(k, c0, a)
  {
    CapturersBeside(us, c, c0, e, v);
    Neighbours(c, c0, v, k, a);
  }

  lemma CapturersBeside(us: Color, c: Square, c0: Square, e: Square, v: Square)
    requires PawnStep(us, c, e) && PawnStep(us, c0, e) && v == e - Up(us) && c != c0
    ensures Rank(c) == Rank(c0) == Rank(v) && File(c) + File(c0) == 2 * File(v) && Abs(File(c) - File(v)) == 1
  {
    Coords(c); Coords(c0); Coords(e); Coords(v);
    hide File, Rank;
  }

  lemma Neighbours(c: Square, c0: Square, v: Square, k: Square, a: Square)
    requires Rank(c) == Rank(c0) == Rank(v) && File(c) + File(c0) == 2 * File(v) && Abs(File(c) - File(v)) == 1
    requires Inside(k, c, a) && Inside(k, v, a)
    ensures c0 == k || c0 == a || Inside(k, c0, a)
  {
    Coords(c0); Coords(k); Coords(a);
    hide File, Rank;
  }

  /** A blocker that leaves its line by the capture exposes the king. */
  lemma EpNeedsPin(b: Board, us: Color, k: Square, e: Square, v: Square, c0: Square, b0: Board, c: Square, b2: Board)
    requires IsKing(b, us, k)
    requires Take(b, us, c0, e, v, b0) && !Attacked(b0, Flip(us), k)
    requires Take(b, us, c, e, v, b2)
    requires Blocker(b, Flip(us), k, c) && !OnLine(k, c, e)
    ensures Attacked(b2, Flip(us), k)
  {
    var them := Flip(us);
    TakeSquares(b, us, c, e, v, b2);
    hide Inside, RookLine, BishopLine, PawnStep, KingStep, OnLine, Take, IsKing, Attacked;
    var s: Square :| Screens(b, them, k, c, s);
    var direct, y := ScreenedOrDirect(b, them, k, c, s);
    SniperSlides(b, them, k, y);
    SniperAttacks(b, them, k, y, Occupied(b));
    if direct {
      EpCheckers(b, us, k, e, v, c0, b0, y);
      assert y != v by { assert Take(b, us, c, e, v, b2); VictimIsPawn(b, us, c, e, v, b2); }
      InsideTrans(k, e, y, c);
      InsideLine(k, e, c);
      OnLineSym(k, e, c);
    } else {
      PinnedTake(b, us, k, e, v, c, b2, y);
    }
  }

  lemma VictimIsPawn(b: Board, us: Color, c: Square, e: Square, v: Square, b2: Board)
    requires Take(b, us, c, e, v, b2)
    ensures b[v] == Piece(Flip(us), Pawn) && b[c] == Piece(us, Pawn)
  {
  }

  lemma PinnedTake(b: Board, us: Color, k: Square, e: Square, v: Square, c: Square, b2: Board, y: Square)
    requires Take(b, us, c, e, v, b2)
    requires Pinned(b, Flip(us), k, c, y) && !OnLine(k, c, e)
    ensures Attacked(b2, Flip(us), k)
  {
    var them := Flip(us);
    TakeSquares(b, us, c, e, v, b2);
    VictimIsPawn(b, us, c, e, v, b2);
    SniperSlides(b, them, k, y);
    EnemyStays(b, us, c, e, v, b2, y);
    if Inside(k, e, y) {
      InsideFanLine(k, c, e, y);
    }
    hide Inside, RookLine, BishopLine, PawnStep, KingStep, OnLine, Take, Attacked, Occupied;
    assert Sniper(b2, them, k, y);
    assert Clear(k, y, Occupied(b2)) by {
      forall x: Square | Inside(k, x, y)
        ensures x !in Occupied(b2)
      {
        assert x in Occupied(b) <==> b[x] != NoPiece by { hide Inside; OccupiedIs(b, x); }
      }
    }
    SniperAttacks(b2, them, k, y, Occupied(b2));
    assert Attacker(b2, them, y, k, Occupied(b2));
    AttackedBy(b2, them, y, k);
  }

  lemma OccupiedIs(b: Board, x: Square)
    ensures x in Occupied(b) <==> b[x] != NoPiece
  {
  }

  lemma AttackedBy(b: Board, them: Color, a: Square, t: Square)
    requires Attacker(b, them, a, t, Occupied(b))
    ensures Attacked(b, them, t)
  {
  }

  lemma InsideFanLine(k: Square, c: Square, e: Square, y: Square)
    requires Inside(k, c, y) && Inside(k, e, y)
    ensures OnLine(k, c, e)
  {
    Coords(k); Coords(c); Coords(e); Coords(y);
    hide File, Rank;
  }

  /** A capturer free of its pin, or kept on it, leaves the king unattacked. */
  lemma EpPinSuffices(b: Board, us: Color, k: Square, e: Square, v: Square, c0: Square, b0: Board, c: Square,
                      b2: Board, a: Square)
    requires IsKing(b, us, k)
    requires Take(b, us, c0, e, v, b0) && !Attacked(b0, Flip(us), k)
    requires Take(b, us, c, e, v, b2)
    requires Blocker(b, Flip(us), k, c) ==> OnLine(k, c, e)
    ensures !Attacker(b2, Flip(us), a, k, Occupied(b2))
  {
    var them := Flip(us);
    TakeSquares(b, us, c, e, v, b2);
    TakeSquares(b, us, c0, e, v, b0);
    EnemyStays(b, us, c, e, v, b2, a);
    EnemyStays(b, us, c0, e, v, b0, a);
    VictimIsPawn(b, us, c, e, v, b2);
    VictimIsPawn(b, us, c0, e, v, b0);
    assert k != e && k != c && k != c0 by { TakeKing(b, us, k, c, e, v, b2); TakeKing(b, us, k, c0, e, v, b0); }
    assert !Attacker(b0, them, a, k, Occupied(b0));
    if Attacker(b, them, a, k, Occupied(b)) {
      EpCheckers(b, us, k, e, v, c0, b0, a);
      InsideSym(k, e, a);
      hide Inside, RookLine, BishopLine, PawnStep, KnightStep, KingStep, OnLine, Take, Occupied, Attacked, IsKing,
           Blocker;
    } else if IsColor(b2, them, a) && Slides(b2[a].kind) {
      SniperAttacks(b, them, k, a, Occupied(b));
      SniperAttacks(b2, them, k, a, Occupied(b2));
      SniperAttacks(b0, them, k, a, Occupied(b0));
      hide Inside, RookLine, BishopLine, PawnStep, KnightStep, KingStep, OnLine, Take, Attacked, IsKing, Blocker;
      if Sniper(b, them, k, a) {
        ObstructedAfter(b, us, k, e, v, c0, b0, c, b2, a);
      }
    } else {
      hide Inside, RookLine, BishopLine, PawnStep, KnightStep, KingStep, OnLine, Take, Occupied, Attacked, IsKing,
           Blocker, Clear;
    }
  }

  lemma TakeKing(b: Board, us: Color, k: Square, c: Square, e: Square, v: Square, b2: Board)
    requires IsKing(b, us, k) && Take(b, us, c, e, v, b2)
    ensures k != e && k != c && k != v
  {
  }

  /** A sniper obstructed before, and obstructed after c0's capture, stays obstructed after c's. */
  lemma ObstructedAfter(b: Board, us: Color, k: Square, e: Square, v: Square, c0: Square, b0: Board, c: Square,
                        b2: Board, a: Square)
    requires IsKing(b, us, k)
    requires Take(b, us, c0, e, v, b0) && Take(b, us, c, e, v, b2)
    requires Blocker(b, Flip(us), k, c) ==> OnLine(k, c, e)
    requires Sniper(b, Flip(us), k, a) && !Clear(k, a, Occupied(b)) && !Clear(k, a, Occupied(b0))
    ensures !Clear(k, a, Occupied(b2))
  {
    var them, occ, occ2, occ0 := Flip(us), Occupied(b), Occupied(b2), Occupied(b0);
    TakeMen(b, us, k, c, e, v, b2, a);
    TakeMen(b, us, k, c0, e, v, b0, a);
    SniperSlides(b, them, k, a);
    hide *;
    ClearWider(k, a, occ2, occ, c, v);
    ClearWider(k, a, occ2, occ0, c, c);
    ClearAvoids(k, a, occ2, e);
    ClearAvoids(k, a, occ2, c0);
    LoneCapturer(b, us, k, a, c, v, e);
    PinnedCapturer(c, e, k, a);
    EitherCapturer(us, c, c0, e, v, k, a);
  }

  lemma TakeMen(b: Board, us: Color, k: Square, c: Square, e: Square, v: Square, b2: Board, a: Square)
    requires IsKing(b, us, k) && Take(b, us, c, e, v, b2) && Sniper(b, Flip(us), k, a)
    ensures Occupied(b2) == Occupied(b) - {c, v} + {e} && c in Occupied(b)
    ensures b[c] == Piece(us, Pawn) && b[v] == Piece(Flip(us), Pawn) && PawnStep(us, c, e) && KingStep(c, e) &&
            v == e - Up(us)
    ensures e != k && e != a && c != k && c != a && c != v && c != e
  {
    TakeSquares(b, us, c, e, v, b2);
    TakeKing(b, us, k, c, e, v, b2);
    VictimIsPawn(b, us, c, e, v, b2);
    SniperSlides(b, Flip(us), k, a);
    hide RookLine, BishopLine, PawnStep, KingStep, Sniper, IsKing;
  }

  lemma ClearWider(k: Square, a: Square, occ2: Bitboard, occ: Bitboard, x: Square, y: Square)
    requires occ <= occ2 + {x, y}
    ensures Clear(k, a, occ2) && !Inside(k, x, a) && !Inside(k, y, a) ==> Clear(k, a, occ)
  {
    hide Inside;
  }

  lemma ClearAvoids(k: Square, a: Square, occ: Bitboard, x: Square)
    ensures Clear(k, a, occ) && x in occ ==> !Inside(k, x, a)
  {
    hide Inside;
  }

  /** If nothing but the capturer and its victim stood in the way, and the victim did not, the
      capturer is a blocker. */
  lemma LoneCapturer(b: Board, us: Color, k: Square, a: Square, c: Square, v: Square, e: Square)
    requires Sniper(b, Flip(us), k, a) && b[c] == Piece(us, Pawn)
    ensures Clear(k, a, Occupied(b) - {c, v} + {e}) && Inside(k, c, a) && !Inside(k, v, a) ==>
            Blocker(b, Flip(us), k, c)
  {
    if Clear(k, a, Occupied(b) - {c, v} + {e}) && Inside(k, c, a) && !Inside(k, v, a) {
      assert Screens(b, Flip(us), k, c, a) by {
        OnlyObstruction(b, k, a, Occupied(b) - {c, v} + {e}, c, v, e);
        hide Inside;
      }
    }
  }

  lemma PinnedCapturer(c: Square, e: Square, k: Square, a: Square)
    requires KingStep(c, e) && e != k && e != a && c != k && c != e
    ensures Inside(k, c, a) && OnLine(k, c, e) ==> Inside(k, e, a)
  {
    if Inside(k, c, a) {
      CaptureStays(c, e, k, a);
      OnLineSym(e, k, c);
      OnLineSym(k, e, c);
    }
    hide *;
  }

  lemma EitherCapturer(us: Color, c: Square, c0: Square, e: Square, v: Square, k: Square, a: Square)
    requires PawnStep(us, c, e) && PawnStep(us, c0, e) && v == e - Up(us) && c0 != k && c0 != a
    ensures c != c0 && Inside(k, c, a) && Inside(k, v, a) ==> Inside(k, c0, a)
  {
    if c != c0 && Inside(k, c, a) && Inside(k, v, a) {
      TwoCapturers(us, c, c0, e, v, k, a);
    }
    hide *;
  }

  lemma OnlyObstruction(b: Board, k: Square, a: Square, occ2: Bitboard, c: Square, v: Square, e: Square)
    requires occ2 == Occupied(b) - {c, v} + {e} && Clear(k, a, occ2) && !Inside(k, v, a)
    ensures forall y: Square :: Inside(k, y, a) && b[y] != NoPiece ==> y == c
  {
    hide Inside;
    forall y: Square | Inside(k, y, a) && b[y] != NoPiece
      ensures y == c
    {
      assert y in Occupied(b);
    }
  }

  // ----- in check -----

  /** The square the pushed pawn came from is never among those that answer a check. */
  lemma OriginAnswersNothing(b: Board, us: Color, k: Square, e: Square, v: Square, c0: Square, b0: Board, a: Square)
    requires IsKing(b, us, k)
    requires Take(b, us, c0, e, v, b0) && !Attacked(b0, Flip(us), k)
    requires Attacker(b, Flip(us), a, k, Occupied(b)) && 0 <= e + Up(us) < 64 && b[e + Up(us)] == NoPiece
    ensures !Span(k, a, e + Up(us))
  {
    var o: Square := e + Up(us);
    EpCheckers(b, us, k, e, v, c0, b0, a);
    VictimIsPawn(b, us, c0, e, v, b0);
    TakeKing(b, us, k, c0, e, v, b0);
    TakeVictim(b, us, c0, e, v, b0);
    FileOfThree(us, e, v, o);
    hide *;
    AttackerStands(b, Flip(us), a, k);
    SpanIs(k, a, o);
    PawnSpan(b, Flip(us), a, k, v, o);
    if Slides(b[a].kind) {
      NotBetween(b, Flip(us), a, k, v);
    }
    FileStops(k, e, v, a, o);
  }

  lemma TakeVictim(b: Board, us: Color, c: Square, e: Square, v: Square, b2: Board)
    requires Take(b, us, c, e, v, b2)
    ensures v == e - Up(us)
  {
  }

  lemma AttackerStands(b: Board, them: Color, a: Square, k: Square)
    requires Attacker(b, them, a, k, Occupied(b))
    ensures b[a] != NoPiece && IsColor(b, them, a)
  {
    hide Hits;
  }

  lemma SpanIs(k: Square, a: Square, x: Square)
    ensures Span(k, a, x) <==> x == a || Inside(k, x, a)
  {
    hide Inside;
  }

  /** A pawn that gives check has nothing between it and the king. */
  lemma PawnSpan(b: Board, them: Color, a: Square, k: Square, v: Square, x: Square)
    requires Attacker(b, them, a, k, Occupied(b)) && b[v] == Piece(them, Pawn)
    ensures a == v ==> !Inside(k, x, a)
  {
    if a == v {
      SpanOfLeaper(b, them, a, k, x);
    }
    hide *;
  }

  /** A line to the king that passes e and then o passes the victim's square as well. */
  lemma FileStops(k: Square, e: Square, v: Square, a: Square, o: Square)
    requires File(v) == File(e) == File(o) && Rank(v) + Rank(o) == 2 * Rank(e) && Abs(Rank(v) - Rank(e)) == 1 && v != k
    ensures Inside(k, e, a) && (o == a || Inside(k, o, a)) ==> v == a || Inside(k, v, a)
  {
    if Inside(k, e, a) && (o == a || Inside(k, o, a)) {
      FileThrough(k, e, v, a, o);
    }
    hide *;
  }

  lemma NotBetween(b: Board, them: Color, a: Square, k: Square, x: Square)
    requires Attacker(b, them, a, k, Occupied(b)) && Slides(b[a].kind) && b[x] != NoPiece
    ensures !Inside(k, x, a)
  {
    OccupiedIs(b, x);
    InsideSym(k, x, a);
    hide Inside, RookLine, BishopLine;
  }

  lemma FileOfThree(us: Color, e: Square, v: Square, o: Square)
    requires v == e - Up(us) && o == e + Up(us)
    ensures File(v) == File(e) == File(o) && Rank(v) + Rank(o) == 2 * Rank(e) && Abs(Rank(v) - Rank(e)) == 1
  {
    Coords(e); Coords(v); Coords(o);
    hide File, Rank;
  }

  lemma FileThrough(k: Square, e: Square, v: Square, a: Square, o: Square)
    requires File(v) == File(e) == File(o) && Rank(v) + Rank(o) == 2 * Rank(e) && Abs(Rank(v) - Rank(e)) == 1
    requires Inside(k, e, a) && v != k && (o == a || Inside(k, o, a))
    ensures v == a || Inside(k, v, a)
  {
    Coords(k); Coords(v); Coords(a); Coords(o);
    hide File, Rank;
  }

  /** There is no double check while an en-passant capture is legal. */
  lemma OneChecker(b: Board, us: Color, k: Square, e: Square, v: Square, c0: Square, b0: Board, a1: Square, a2: Square)
    requires IsKing(b, us, k)
    requires Take(b, us, c0, e, v, b0) && !Attacked(b0, Flip(us), k)
    requires Attacker(b, Flip(us), a1, k, Occupied(b)) && Attacker(b, Flip(us), a2, k, Occupied(b))
    ensures a1 == a2
  {
    EpCheckers(b, us, k, e, v, c0, b0, a1);
    EpCheckers(b, us, k, e, v, c0, b0, a2);
    VictimIsPawn(b, us, c0, e, v, b0);
    assert v == e - Up(us) && b[a1] != NoPiece && b[a2] != NoPiece;
    hide KingStep, KnightStep, RookLine, BishopLine, Take, Attacked, IsKing, Inside, PawnStep;
    if a1 == v && a2 != v {
      PawnCheckApart(us, k, e, v, a2);
    } else if a2 == v && a1 != v {
      PawnCheckApart(us, k, e, v, a1);
    } else if a1 != a2 {
      InsideFan(k, e, a1, a2);
      NoCheckerBetween(b, Flip(us), k, a1, a2);
      NoCheckerBetween(b, Flip(us), k, a2, a1);
    }
  }

  lemma PawnCheckApart(us: Color, k: Square, e: Square, v: Square, a: Square)
    requires v == e - Up(us) && PawnStep(Flip(us), v, k)
    ensures !Inside(k, e, a)
  {
    Coords(k); Coords(e); Coords(v); Coords(a);
    hide File, Rank;
  }

  // ----- the rule -----

  /** The position's own witness that the square is sound. */
  ghost predicate Witness(b: Board, us: Color, k: Square, e: Square, c0: Square, b0: Board) {
    && IsKing(b, us, k) && 0 <= e - Up(us) < 64 && 0 <= e + Up(us) < 64
    && RelativeRank(us, e) == 5 && b[e + Up(us)] == NoPiece
    && Take(b, us, c0, e, e - Up(us), b0) && !Attacked(b0, Flip(us), k)
  }

  lemma CaptureIsTake(b: Board, us: Color, c: Square, e: Square)
    requires b[c] == Piece(us, Pawn) && PawnStep(us, c, e) && RelativeRank(us, e) == 5
    requires b[e] == NoPiece && 0 <= e - Up(us) < 64 && b[e - Up(us)] == Piece(Flip(us), Pawn)
    ensures Take(b, us, c, e, e - Up(us), After(b, us, EpMove(c, e)))
    ensures RelativeRank(us, c) == 4
  {
    Coords(c); Coords(e); Coords(e - Up(us)); Coords(VictimSquare(EpMove(c, e)));
    assert VictimSquare(EpMove(c, e)) == e - Up(us) by { hide File, Rank; }
    assert c != e && c != e - Up(us);
    hide VictimSquare;
  }

  lemma KingStays(b: Board, us: Color, k: Square, c: Square, e: Square, v: Square, b2: Board)
    requires IsKing(b, us, k) && Take(b, us, c, e, v, b2)
    ensures IsKing(b2, us, k)
  {
    hide PawnStep;
  }

  lemma EpWitness(p: Pos) returns (k: Square, c0: Square, b0: Board)
    requires WellFormed(p) && p.ep.Some?
    ensures Witness(p.board, p.side, k, p.ep.value, c0, b0)
    ensures p.board[p.ep.value] == NoPiece
            && p.board[p.ep.value - Up(p.side)] == Piece(Flip(p.side), Pawn)
  {
    var b, us, e := p.board, p.side, p.ep.value;
    EnemyKing(p);
    k := KingOf(b, us);
    assert EpSound(b, us, e);
    c0 :| EpCapture(b, us, c0, e);
    b0 := After(b, us, EpMove(c0, e));
    EpSquareRange(us, e);
    CaptureIsTake(b, us, c0, e);
    KingStays(b, us, k, c0, e, e - Up(us), b0);
    CheckIs(b0, us, k);
    hide WellFormed, Take, Attacked, After, IsKing;
  }

  lemma EpSquareRange(us: Color, e: Square)
    requires RelativeRank(us, e) == 5
    ensures 0 <= e - Up(us) < 64 && 0 <= e + Up(us) < 64
  {
  }

  /** An en-passant word is legal exactly when a pawn steps onto the square and its pin allows it. */
  lemma EpMoveLegal(p: Pos, m: Move, k: Square)
    requires WellFormed(p) && m.kind == EnPassant && IsKing(p.board, p.side, k)
    ensures Legal(p, m) <==>
              && m.promo == Knight && p.board[m.from] == Piece(p.side, Pawn) && p.ep == Some(m.to)
              && PawnStep(p.side, m.from, m.to) && PinFree(p.board, p.side, k, m.from, m.to)
    ensures Legal(p, m) ==> RelativeRank(p.side, m.from) == 4
  {
    hide *;
    var b, us := p.board, p.side;
    EpWords(p, m);
    if PseudoLegal(p, m) {
      var k', c0, b0 := EpWitness(p);
      WitnessHas(b, us, k', p.ep.value, c0, b0);
      KingUnique(b, us, k', k);
      var e := m.to;
      var b2 := After(b, us, m);
      CaptureIsTake(b, us, m.from, e);
      KingStays(b, us, k, m.from, e, e - Up(us), b2);
      CheckIs(b2, us, k);
      PinFreeIs(b, us, k, m.from, e);
      if Blocker(b, Flip(us), k, m.from) && !OnLine(k, m.from, e) {
        EpNeedsPin(b, us, k, e, e - Up(us), c0, b0, m.from, b2);
      } else {
        EpSafe(b, us, k, e, e - Up(us), c0, b0, m.from, b2);
      }
    }
  }

  /** The piece rule of en passant, and what is left to ask. */
  lemma EpWords(p: Pos, m: Move)
    requires m.kind == EnPassant
    ensures PseudoLegal(p, m) <==>
              && m.promo == Knight && p.board[m.from] == Piece(p.side, Pawn) && p.ep == Some(m.to)
              && PawnStep(p.side, m.from, m.to)
    ensures PseudoLegal(p, m) ==> m == EpMove(m.from, m.to)
    ensures var b' := After(p.board, p.side, m);
            Legal(p, m) <==> PseudoLegal(p, m) && HasKing(b', p.side) && !InCheck(b', p.side)
  {
    hide PawnStep, After, HasKing, InCheck;
  }

  lemma WitnessHas(b: Board, us: Color, k: Square, e: Square, c0: Square, b0: Board)
    requires Witness(b, us, k, e, c0, b0)
    ensures IsKing(b, us, k) && 0 <= e - Up(us) < 64 && RelativeRank(us, e) == 5
    ensures Take(b, us, c0, e, e - Up(us), b0) && !Attacked(b0, Flip(us), k)
  {
    hide Take, Attacked, IsKing, RelativeRank;
  }

  lemma PinFreeIs(b: Board, us: Color, k: Square, from: Square, to: Square)
    ensures PinFree(b, us, k, from, to) <==> (Blocker(b, Flip(us), k, from) ==> OnLine(k, from, to))
  {
    hide Blocker, OnLine;
  }

  lemma EpSafe(b: Board, us: Color, k: Square, e: Square, v: Square, c0: Square, b0: Board, c: Square, b2: Board)
    requires IsKing(b, us, k)
    requires Take(b, us, c0, e, v, b0) && !Attacked(b0, Flip(us), k)
    requires Take(b, us, c, e, v, b2)
    requires Blocker(b, Flip(us), k, c) ==> OnLine(k, c, e)
    ensures !Attacked(b2, Flip(us), k)
  {
    forall a: Square
      ensures !Attacker(b2, Flip(us), a, k, Occupied(b2))
    {
      EpPinSuffices(b, us, k, e, v, c0, b0, c, b2, a);
    }
  }

  /** In check with an en-passant square set: one checker, and the pushed pawn's origin does
      not answer it. */
  lemma EpInCheck(p: Pos, k: Square, a: Square)
    requires WellFormed(p) && p.ep.Some? && IsKing(p.board, p.side, k)
    requires Attacker(p.board, Flip(p.side), a, k, Occupied(p.board))
    ensures 0 <= p.ep.value + Up(p.side) < 64 && !Span(k, a, p.ep.value + Up(p.side))
    ensures forall a': Square :: Attacker(p.board, Flip(p.side), a', k, Occupied(p.board)) ==> a' == a
  {
    var b, us, e := p.board, p.side, p.ep.value;
    var k', c0, b0 := EpWitness(p);
    KingUnique(b, us, k', k);
    hide WellFormed, IsKing, Take, Attacked, Inside;
    OriginAnswersNothing(b, us, k, e, e - Up(us), c0, b0, a);
    forall a': Square | Attacker(b, Flip(us), a', k, Occupied(b))
      ensures a' == a
    {
      OneChecker(b, us, k, e, e - Up(us), c0, b0, a', a);
    }
  }
}
