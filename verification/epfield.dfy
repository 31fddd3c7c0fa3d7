/** The parser's own en-passant test: it tries each capture on the occupancy alone, and keeps the
    square exactly when the rules, and a played game, would. */
module EpField {
  import opened Squares
  import opened Types
  import opened Board
  import opened Rules
  import opened Attacks
  import opened Derived
  import opened Play
  import opened Views
  import opened Caches
  import opened EpLegal
  import opened Chains

  /** With the victim gone, the capturer lifted and e occupied, nothing left attacks the king. */
  ghost predicate Escapes(b: Board, us: Color, k: Square, e: Square, target: Bitboard, c: Square) {
    AttackersBB(b, Flip(us), k, Xor(Xor(Xor(Occupied(b), target), {e}), {c})) - target == {}
  }

  /** The squares around e are as a double push leaves them. */
  predicate Pushed(b: Board, us: Color, e: Square) {
    && 0 <= e - Up(us) < 64 && 0 <= e + Up(us) < 64
    && b[e] == NoPiece && b[e + Up(us)] == NoPiece && b[e - Up(us)] == Piece(Flip(us), Pawn)
  }

  lemma EpRank(us: Color, e: Square)
    requires RelativeRank(us, e) == 5
    ensures 0 <= e - Up(us) < 64 && 0 <= e + Up(us) < 64
  {
  }

  /** The occupancy test is the rule. */
  lemma EscapesExact(b: Board, us: Color, k: Square, e: Square, c: Square)
    requires IsKing(b, us, k) && RelativeRank(us, e) == 5 && Pushed(b, us, e)
    requires b[c] == Piece(us, Pawn) && PawnStep(us, c, e)
    ensures Escapes(b, us, k, e, {e - Up(us)}, c) <==> EpCapture(b, us, c, e)
  {
    var v: Square := e - Up(us);
    var b2 := After(b, us, EpMove(c, e));
    CaptureIsTake(b, us, c, e);
    TakeSquares(b, us, c, e, v, b2);
    KingStays(b, us, k, c, e, v, b2);
    CheckIs(b2, us, k);
    TakenOccupancy(Occupied(b), c, e, v);
    assert c in Occupied(b) && v in Occupied(b) && e !in Occupied(b);
    forall a: Square
      ensures Attacker(b2, Flip(us), a, k, Occupied(b2)) <==> Attacker(b, Flip(us), a, k, Occupied(b2)) && a != v
    {
      EnemyStays(b, us, c, e, v, b2, a);
      hide Hits, Take, Occupied;
    }
    hide Attacker, Occupied, Take, After, HasKing, InCheck, IsKing, PawnStep, KingStep;
    EscapesMeans(b, us, k, e, v, c, Occupied(b2));
  }

  lemma EscapesMeans(b: Board, us: Color, k: Square, e: Square, v: Square, c: Square, occ2: Bitboard)
    requires occ2 == Xor(Xor(Xor(Occupied(b), {v}), {e}), {c})
    ensures Escapes(b, us, k, e, {v}, c) <==> forall a: Square :: !(Attacker(b, Flip(us), a, k, occ2) && a != v)
  {
    hide Attacker, Occupied, Xor;
    forall a: Square
      ensures a in AttackersBB(b, Flip(us), k, occ2) - {v} <==> Attacker(b, Flip(us), a, k, occ2) && a != v
    {
    }
    hide AttackersBB;
  }

  lemma TakenOccupancy(occ: Bitboard, c: Square, e: Square, v: Square)
    requires c != e && e != v && c != v
    ensures c in occ && v in occ && e !in occ ==> Xor(Xor(Xor(occ, {v}), {e}), {c}) == occ - {c, v} + {e}
  {
  }

  ghost predicate SomeEscape(b: Board, us: Color, k: Square, e: Square, target: Bitboard, capturers: Bitboard) {
    exists c :: c in capturers && Escapes(b, us, k, e, target, c)
  }

  lemma EscapeMore(b: Board, us: Color, k: Square, e: Square, target: Bitboard, capturers: Bitboard, c: Square)
    ensures SomeEscape(b, us, k, e, target, capturers + {c}) <==>
              SomeEscape(b, us, k, e, target, capturers) || Escapes(b, us, k, e, target, c)
  {
    hide Escapes;
    assert c in capturers + {c};
    assert forall x :: x in capturers ==> x in capturers + {c};
  }

  /** What the capturers and the target are. */
  lemma FieldReads(b: Board, v: View, e: Square)
    requires TypesSynced(b, v.byType) && ColorsSynced(b, v.byColor) && RelativeRank(v.side, e) == 5
    ensures |v.byType| == 7 && |v.byColor| == 2 && Pieces(v) == Occupied(b) && 0 <= e - Up(v.side) < 64 &&
            0 <= e + Up(v.side) < 64
    ensures forall c: Square :: c in PiecesCP(v, v.side, Pawn) * PawnAttacksBB(Flip(v.side), e) <==>
              b[c] == Piece(v.side, Pawn) && PawnStep(v.side, c, e)
    ensures PiecesCP(v, Flip(v.side), Pawn) * {e - Up(v.side)} ==
            if b[e - Up(v.side)] == Piece(Flip(v.side), Pawn) then {e - Up(v.side)} else {}
    ensures PiecesC(v, Flip(v.side)) == OfColor(b, Flip(v.side))
  {
    EpRank(v.side, e);
    PiecesCPExact(b, v, v.side, Pawn);
    PiecesCPExact(b, v, Flip(v.side), Pawn);
    forall c: Square
      ensures PawnStep(Flip(v.side), e, c) <==> PawnStep(v.side, c, e)
    {
      Coords(c); Coords(e);
      hide File, Rank;
    }
    hide PawnStep, Occupied, OfType, OfColor, PiecesCP;
  }

  /** The verdict on everything read. */
  lemma KeptExact(b: Board, us: Color, k: Square, e: Square, target: Bitboard, capturers: Bitboard)
    requires IsKing(b, us, k) && RelativeRank(us, e) == 5 && 0 <= e - Up(us) < 64 && 0 <= e + Up(us) < 64
    requires forall c: Square :: c in capturers <==> b[c] == Piece(us, Pawn) && PawnStep(us, c, e)
    requires target == if b[e - Up(us)] == Piece(Flip(us), Pawn) then {e - Up(us)} else {}
    ensures var available := capturers != {} && target != {} && Occupied(b) * ({e} + {e + Up(us)}) == {};
            available && SomeEscape(b, us, k, e, target, capturers) <==> EpSound(b, us, e)
  {
    assert Occupied(b) * ({e} + {e + Up(us)}) == {} <==> b[e] == NoPiece && b[e + Up(us)] == NoPiece by {
      assert b[e] != NoPiece <==> e in Occupied(b);
      assert b[e + Up(us)] != NoPiece <==> e + Up(us) in Occupied(b);
      hide Occupied;
    }
    hide IsKing, Escapes, EpCapture, PawnStep, Occupied;
    if Pushed(b, us, e) {
      forall c: Square | b[c] == Piece(us, Pawn) && PawnStep(us, c, e)
        ensures Escapes(b, us, k, e, {e - Up(us)}, c) <==> EpCapture(b, us, c, e)
      {
        EscapesExact(b, us, k, e, c);
      }
      EpCapturers(b, us, e);
    }
  }

  lemma EpCapturers(b: Board, us: Color, e: Square)
    ensures forall c: Square :: EpCapture(b, us, c, e) ==> b[c] == Piece(us, Pawn) && PawnStep(us, c, e)
  {
    hide HasKing, InCheck, After, PawnStep;
  }

  /** pos_set_reason's test of a named en-passant square. */
  method KeptOnParse(v: View, ep: Square) returns (keep: bool)
    requires TypesSynced(v.board, v.byType) && ColorsSynced(v.board, v.byColor) && HasKing(v.board, v.side)
    requires RelativeRank(v.side, ep) == 5
    ensures keep <==> EpSound(v.board, v.side, ep)
  {
    hide *;
    ghost var b := v.board;
    var stm, other, up := v.side, Flip(v.side), Up(v.side);
    FieldReads(b, v, ep);
    KingSquareExact(b, v, stm);
    var ksq := KingSquare(v, stm);
    KingOfIsKing(b, stm);
    var all := PiecesCP(v, stm, Pawn) * PawnAttacksBB(other, ep);
    var target := PiecesCP(v, other, Pawn) * {ep - up};
    var occ := Xor(Xor(Pieces(v), target), {ep});
    var available := all != {} && target != {} && Pieces(v) * ({ep} + {ep + up}) == {};
    var legal := false;
    var capturers := all;
    assert all - capturers == {};
    NoEscape(b, stm, ksq, ep, target);
    while capturers != {}
      invariant capturers <= all && legal == SomeEscape(b, stm, ksq, ep, target, all - capturers)
    {
      var c := Lsb(capturers);
      ghost var done := all - capturers;
      capturers := capturers - {c};
      assert all - capturers == done + {c};
      EscapeMore(b, stm, ksq, ep, target, done, c);
      var after := Xor(occ, {c});
      CheckersScan(b, v, other, ksq, after);
      EscapesIs(b, stm, ksq, ep, target, c);
      if AttackersTo(v, ksq, after) * PiecesC(v, other) - target == {} {
        legal := true;
      }
    }
    assert all - capturers == all;
    KeptExact(b, stm, ksq, ep, target, all);
    keep := available && legal;
  }

  lemma NoEscape(b: Board, us: Color, k: Square, e: Square, target: Bitboard)
    ensures !SomeEscape(b, us, k, e, target, {})
  {
  }

  lemma EscapesIs(b: Board, us: Color, k: Square, e: Square, target: Bitboard, c: Square)
    ensures Escapes(b, us, k, e, target, c) <==>
              AttackersBB(b, Flip(us), k, Xor(Xor(Xor(Occupied(b), target), {e}), {c})) - target == {}
  {
    hide AttackersBB, Xor, Occupied;
  }

  /** Played and parsed positions agree: the square a double push passes over is recorded by the
      move exactly when the parser would keep it. */
  lemma PlayedAsParsed(p: Pos, m: Move)
    requires WellFormed(p) && PseudoLegal(p, m) && m.kind == Normal && p.board[m.from] == Piece(p.side, Pawn)
    requires m.to == m.from + 2 * Up(p.side)
    ensures 0 <= m.from + Up(p.side) < 64
    ensures var e: Square := m.from + Up(p.side);
            NextEp(p, m) == if EpSound(After(p.board, p.side, m), Flip(p.side), e) then Some(e) else None
  {
    assert Moves(p.board, p.side, m.from, m.to);
    PushSquare(p.side, m.from);
    hide WellFormed, PseudoLegal, After, Moves;
    if NextEp(p, m).Some? {
      EpAfter(p, m);
    }
    hide EpAvailable, RelativeRank;
  }

  lemma PushSquare(us: Color, from: Square)
    requires 0 <= from + 2 * Up(us) < 64
    ensures 0 <= from + Up(us) < 64
  {
  }
}
