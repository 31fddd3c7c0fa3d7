/** The en-passant square: pos_do_move decides from the pins alone whether any capture on it is
    legal, and decides right. */
module EnPassantRule {
  import opened Squares
  import opened Types
  import opened Board
  import opened Rules
  import opened Attacks
  import opened Pins
  import opened Derived
  import opened Play

  /** The squares the rule talks about: `them` may answer the push from-to by taking on e from c. */
  ghost predicate PushAnswer(b: Board, us: Color, from: Square, to: Square, e: Square, c: Square, k: Square) {
    && PawnDouble(b, us, from, to) && b[from] == Piece(us, Pawn) && e == from + Up(us)
    && b[c] == Piece(Flip(us), Pawn) && PawnStep(Flip(us), c, e)
    && IsKing(b, Flip(us), k) && !Attacked(b, us, k)
  }

  /** The board after the push and the capture. */
  function Answered(b: Board, us: Color, from: Square, e: Square, c: Square): Board {
    b[from := NoPiece][c := NoPiece][e := Piece(Flip(us), Pawn)]
  }

  lemma AnswerSquares(b: Board, us: Color, from: Square, to: Square, e: Square, c: Square, k: Square)
    requires PushAnswer(b, us, from, to, e, c, k)
    ensures from != e && from != to && e != to && c != from && c != to && c != e
    ensures e != k && from != k && c != k && to != k
    ensures VictimSquare(EpMove(c, e)) == to
    ensures b[e] == NoPiece && b[to] == NoPiece
  {
    Coords(from); Coords(to); Coords(e); Coords(c);
    hide File, Rank, Attacked;
  }

  lemma AnsweredBoard(b: Board, us: Color, from: Square, to: Square, e: Square, c: Square, k: Square)
    requires PushAnswer(b, us, from, to, e, c, k)
    ensures var b1 := After(b, us, NormalMove(from, to));
            After(b1, Flip(us), EpMove(c, e)) == Answered(b, us, from, e, c)
  {
    AnswerSquares(b, us, from, to, e, c, k);
    hide PushAnswer, VictimSquare;
  }

  lemma AnsweredOccupied(b: Board, us: Color, from: Square, to: Square, e: Square, c: Square, k: Square)
    requires PushAnswer(b, us, from, to, e, c, k)
    ensures Occupied(Answered(b, us, from, e, c)) == Occupied(b) - {from, c} + {e}
    ensures forall a: Square :: IsColor(Answered(b, us, from, e, c), us, a) <==> IsColor(b, us, a) && a != from
    ensures forall a: Square :: IsColor(b, us, a) && a != from ==> Answered(b, us, from, e, c)[a] == b[a]
  {
    AnswerSquares(b, us, from, to, e, c, k);
    hide PushAnswer, PawnDouble, Attacked;
  }

  // ----- geometry of the three squares -----

  /** The pusher's origin and a capturer are never on one line. */
  lemma OriginSkewed(us: Color, from: Square, e: Square, c: Square, k: Square, a: Square)
    requires RelativeRank(us, from) == 1 && e == from + Up(us) && PawnStep(Flip(us), c, e)
    ensures !(Inside(k, from, a) && Inside(k, c, a))
  {
    Coords(from); Coords(e); Coords(c); Coords(k); Coords(a);
    hide File, Rank;
  }

  lemma FileStays(us: Color, from: Square, e: Square, k: Square, a: Square)
    requires e == from + Up(us) && Inside(k, from, a) && e != k && e != a
    ensures File(from) == File(k) <==> Inside(k, e, a)
  {
    Coords(from); Coords(e); Coords(k); Coords(a);
    hide File, Rank;
  }

  lemma CaptureStays(c: Square, e: Square, k: Square, a: Square)
    requires KingStep(c, e) && Inside(k, c, a) && e != k && e != a
    ensures OnLine(e, k, c) <==> Inside(k, e, a)
  {
    Coords(c); Coords(e); Coords(k); Coords(a);
    hide File, Rank;
  }

  // ----- the rule -----

  /** The code's test for one capturer. */
  predicate PinTest(b: Board, us: Color, from: Square, e: Square, c: Square, k: Square) {
    && (!Blocker(b, us, k, from) || File(from) == File(k))
    && (!Blocker(b, us, k, c) || OnLine(e, k, c))
  }

  /** A pin that the answer lets go is a check. */
  lemma ReleasedPin(b: Board, us: Color, from: Square, to: Square, e: Square, c: Square, k: Square, x: Square,
                    a: Square)
    requires PushAnswer(b, us, from, to, e, c, k) && (x == from || x == c)
    requires Pinned(b, us, k, x, a) && !Inside(k, e, a)
    ensures Attacked(Answered(b, us, from, e, c), us, k)
  {
    var b2 := Answered(b, us, from, e, c);
    AnsweredOccupied(b, us, from, to, e, c, k);
    SniperSlides(b, us, k, a);
    assert b[from].kind == Pawn;
    hide PushAnswer, Answered, Inside, RookLine, BishopLine;
    assert b2[a] == b[a];
    assert Sniper(b2, us, k, a);
    assert Clear(k, a, Occupied(b2));
    SniperAttacks(b2, us, k, a, Occupied(b2));
  }

  lemma BlockerPins(b: Board, us: Color, k: Square, x: Square) returns (a: Square)
    requires Blocker(b, us, k, x) && !Attacked(b, us, k)
    ensures Pinned(b, us, k, x, a)
  {
    var s: Square :| Screens(b, us, k, x, s);
    var direct, y := ScreenedOrDirect(b, us, k, x, s);
    SniperSlides(b, us, k, y);
    SniperAttacks(b, us, k, y, Occupied(b));
    a := y;
    hide Screens, Sniper, Clear, Pinned, Hits, Inside;
  }

  lemma RuleNeeds(b: Board, us: Color, from: Square, to: Square, e: Square, c: Square, k: Square)
    requires PushAnswer(b, us, from, to, e, c, k)
    requires !PinTest(b, us, from, e, c, k)
    ensures Attacked(Answered(b, us, from, e, c), us, k)
  {
    AnswerSquares(b, us, from, to, e, c, k);
    hide Answered, Attacked, Inside, OnLine, Blocker, PawnDouble;
    if Blocker(b, us, k, from) && File(from) != File(k) {
      var a := BlockerPins(b, us, k, from);
      FileStays(us, from, e, k, a);
      assert e != a;
      ReleasedPin(b, us, from, to, e, c, k, from, a);
    } else {
      var a := BlockerPins(b, us, k, c);
      PawnStepKingStep(Flip(us), c, e);
      assert e != a;
      CaptureStays(c, e, k, a);
      ReleasedPin(b, us, from, to, e, c, k, c, a);
    }
  }

  lemma PawnStepKingStep(col: Color, c: Square, e: Square)
    requires PawnStep(col, c, e)
    ensures KingStep(c, e)
  {
  }

  lemma RuleSuffices(b: Board, us: Color, from: Square, to: Square, e: Square, c: Square, k: Square, a: Square)
    requires PushAnswer(b, us, from, to, e, c, k)
    requires PinTest(b, us, from, e, c, k)
    ensures !Attacker(Answered(b, us, from, e, c), us, a, k, Occupied(Answered(b, us, from, e, c)))
  {
    var b2 := Answered(b, us, from, e, c);
    AnswerSquares(b, us, from, to, e, c, k);
    AnsweredOccupied(b, us, from, to, e, c, k);
    assert e in Occupied(b2);
    assert !Attacker(b, us, a, k, Occupied(b));
    OriginSkewed(us, from, e, c, k, a);
    PawnStepKingStep(Flip(us), c, e);
    hide Answered, Inside, OnLine, Blocker, RookLine, BishopLine, PawnStep, KnightStep, KingStep, PawnDouble, Attacked;
    if IsColor(b2, us, a) && Slides(b2[a].kind) {
      SniperAttacks(b2, us, k, a, Occupied(b2));
      SniperAttacks(b, us, k, a, Occupied(b));
      if Sniper(b, us, k, a) && Clear(k, a, Occupied(b2)) {
        assert !Inside(k, e, a);
        LoneBlocker(b, us, k, a, from, c);
        if Inside(k, from, a) {
          FileStays(us, from, e, k, a);
        } else {
          CaptureStays(c, e, k, a);
        }
      }
    }
  }

  /** An obstructed sniper whose only obstructions are from and c, not both, is screened by one. */
  lemma LoneBlocker(b: Board, us: Color, k: Square, a: Square, from: Square, c: Square)
    requires Sniper(b, us, k, a) && !Clear(k, a, Occupied(b))
    requires Clear(k, a, Occupied(b) - {from, c}) && !(Inside(k, from, a) && Inside(k, c, a))
    requires b[from] == Piece(us, Pawn) && b[c] == Piece(Flip(us), Pawn)
    ensures Inside(k, from, a) || Inside(k, c, a)
    ensures Inside(k, from, a) ==> Blocker(b, us, k, from)
    ensures Inside(k, c, a) ==> Blocker(b, us, k, c)
  {
    hide Inside, RookLine, BishopLine;
    var x: Square :| Inside(k, x, a) && x in Occupied(b);
    assert x == from || x == c;
    forall y: Square | Inside(k, y, a) && b[y] != NoPiece
      ensures y == x
    {
      assert y in Occupied(b);
    }
    assert Screens(b, us, k, x, a);
  }

  /** One capturer: its capture is legal exactly when the pin test lets it. */
  lemma EpCaptureRule(b: Board, us: Color, from: Square, to: Square, e: Square, c: Square, k: Square)
    requires PushAnswer(b, us, from, to, e, c, k)
    ensures var b1 := After(b, us, NormalMove(from, to));
            EpCapture(b1, Flip(us), c, e) <==> PinTest(b, us, from, e, c, k)
  {
    var b1 := After(b, us, NormalMove(from, to));
    var b2 := Answered(b, us, from, e, c);
    AnswerSquares(b, us, from, to, e, c, k);
    AnsweredBoard(b, us, from, to, e, c, k);
    assert b1[c] == b[c];
    assert IsKing(b2, Flip(us), k);
    CheckIs(b2, Flip(us), k);
    if PinTest(b, us, from, e, c, k) {
      forall a: Square
        ensures !Attacker(b2, us, a, k, Occupied(b2))
      {
        RuleSuffices(b, us, from, to, e, c, k, a);
      }
    } else {
      RuleNeeds(b, us, from, to, e, c, k);
    }
    hide Answered, After, PinTest, Attacker, IsKing, KingOf;
  }

  /** pos_do_move's bitboard expression for "some capture on e is legal". */
  function PushEpTest(b: Board, us: Color, from: Square, e: Square, k: Square, blockers: Bitboard,
                      theirPawns: Bitboard): bool {
    var capturers := SetOfPawnAttacks(us, {e}) * theirPawns;
    && capturers != {}
    && (from !in blockers || File(from) == File(k))
    && capturers * ((ALL_SQUARES - blockers) + LineBB(e, k)) != {}
  }

  lemma PawnAttackSet(us: Color, e: Square, c: Square)
    ensures c in SetOfPawnAttacks(us, {e}) <==> PawnStep(Flip(us), c, e)
  {
    Coords(c); Coords(e);
    hide File, Rank;
  }

  /** The en-passant square is set exactly when some capture on it is legal. */
  lemma EpSquareFromPins(p: Pos, from: Square, to: Square)
    requires WellFormed(p) && Moves(p.board, p.side, from, to)
    requires p.board[from].kind == Pawn && to == from + 2 * Up(p.side)
    ensures 0 <= from + Up(p.side) < 64
    ensures var k := KingOf(p.board, Flip(p.side));
            PushEpTest(p.board, p.side, from, from + Up(p.side), k, BlockersBB(p.board, p.side, k),
                       OfType(p.board, Pawn) * OfColor(p.board, Flip(p.side)))
            <==> EpAvailable(After(p.board, p.side, NormalMove(from, to)), Flip(p.side), from + Up(p.side))
  {
    var b, us := p.board, p.side;
    var k := KingOf(b, Flip(us));
    PushShape(b, us, from, to);
    Coords(from); Coords(to);
    var e: Square := from + Up(us);
    CheckIs(b, Flip(us), k);
    forall c: Square
      ensures CapturerAgrees(b, us, from, to, e, k, c)
    {
      Capturer(b, us, from, to, e, k, c);
    }
    hide CapturerAgrees, EpCapture;
    CapturersAgree(b, us, from, to, e, k);
  }

  /** c is among the code's capturers, and its capture is legal exactly when the pin test passes. */
  ghost predicate CapturerAgrees(b: Board, us: Color, from: Square, to: Square, e: Square, k: Square, c: Square) {
    var theirPawn := b[c] == Piece(Flip(us), Pawn) && PawnStep(Flip(us), c, e);
    && (c in SetOfPawnAttacks(us, {e}) * (OfType(b, Pawn) * OfColor(b, Flip(us))) <==> theirPawn)
    && (EpCapture(After(b, us, NormalMove(from, to)), Flip(us), c, e)
        <==> theirPawn && PinTest(b, us, from, e, c, k))
  }

  lemma Capturer(b: Board, us: Color, from: Square, to: Square, e: Square, k: Square, c: Square)
    requires PawnDouble(b, us, from, to) && b[from] == Piece(us, Pawn) && e == from + Up(us)
    requires IsKing(b, Flip(us), k) && !Attacked(b, us, k)
    ensures CapturerAgrees(b, us, from, to, e, k, c)
  {
    PawnAttackSet(us, e, c);
    PushedPawnElse(b, us, from, to, c);
    hide PawnDouble, Attacked, PawnStep, SetOfPawnAttacks, PinTest, After;
    if b[c] == Piece(Flip(us), Pawn) && PawnStep(Flip(us), c, e) {
      EpCaptureRule(b, us, from, to, e, c, k);
    }
  }

  lemma CapturersAgree(b: Board, us: Color, from: Square, to: Square, e: Square, k: Square)
    requires forall c: Square :: CapturerAgrees(b, us, from, to, e, k, c)
    ensures PushEpTest(b, us, from, e, k, BlockersBB(b, us, k), OfType(b, Pawn) * OfColor(b, Flip(us)))
            <==> EpAvailable(After(b, us, NormalMove(from, to)), Flip(us), e)
  {
    var capturers := SetOfPawnAttacks(us, {e}) * (OfType(b, Pawn) * OfColor(b, Flip(us)));
    var b1 := After(b, us, NormalMove(from, to));
    hide SetOfPawnAttacks, After, EpCapture, PawnStep, OnLine, Blocker, OfType, OfColor;
    if EpAvailable(b1, Flip(us), e) {
      var c: Square :| EpCapture(b1, Flip(us), c, e);
      assert CapturerAgrees(b, us, from, to, e, k, c);
      assert c in capturers;
      assert c in ALL_SQUARES;
      assert c in capturers * ((ALL_SQUARES - BlockersBB(b, us, k)) + LineBB(e, k));
    }
    if PushEpTest(b, us, from, e, k, BlockersBB(b, us, k), OfType(b, Pawn) * OfColor(b, Flip(us))) {
      var c: Square :| c in capturers * ((ALL_SQUARES - BlockersBB(b, us, k)) + LineBB(e, k));
      assert CapturerAgrees(b, us, from, to, e, k, c);
    }
  }

  lemma PushedPawnElse(b: Board, us: Color, from: Square, to: Square, c: Square)
    requires b[from] == Piece(us, Pawn)
    ensures After(b, us, NormalMove(from, to))[c] == Piece(Flip(us), Pawn) ==> b[c] == Piece(Flip(us), Pawn)
  {
  }
}
