/** The generator is exact: over every well-formed position it emits each legal move once and
    nothing else, the piece rules and "the own king is not attacked afterwards" being the
    definition of legal. */
module LegalMoves {
  import opened Squares
  import opened Types
  import opened Board
  import opened Rules
  import opened Attacks
  import opened Pins
  import opened Derived
  import opened Views
  import opened Play
  import opened MoveGen

  /** What the generator reads of the board. */
  ghost predicate Reads(b: Board, us: Color, k: Square, v: View) {
    && v.board == b && v.side == us
    && TypesSynced(b, v.byType) && ColorsSynced(b, v.byColor)
    && IsKing(b, us, k)
    && |v.st.blockers| == 2 && v.st.blockers[ColorIndex(us)] == BlockersBB(b, Flip(us), k)
    && v.st.checkers == AttackersBB(b, Flip(us), k, Occupied(b))
  }

  // ----- pawns: geometry of a pawn move against the king's line -----

  lemma PushLine(us: Color, k: Square, from: Square, to: Square)
    requires from != k && (to == from + Up(us) || to == from + 2 * Up(us))
    ensures OnLine(k, from, to) <==> File(from) == File(k)
  {
    Coords(k); Coords(from); Coords(to);
    hide File, Rank;
  }

  lemma RightLine(us: Color, k: Square, from: Square, to: Square)
    requires from != k && to == from + UpRight(us) && PawnStep(us, from, to)
    ensures OnLine(k, from, to) <==> from in DiagBB(k)
  {
    Coords(k); Coords(from); Coords(to);
    hide File, Rank;
  }

  lemma LeftLine(us: Color, k: Square, from: Square, to: Square)
    requires from != k && to == from + UpLeft(us) && PawnStep(us, from, to)
    ensures OnLine(k, from, to) <==> from in AntiDiagBB(k)
  {
    Coords(k); Coords(from); Coords(to);
    hide File, Rank;
  }

  /** A pawn attack goes one step up-right or up-left, and shifting does not wrap. */
  lemma StepIsShift(us: Color, from: Square, to: Square)
    ensures PawnStep(us, from, to) <==>
              (to == from + UpRight(us) || to == from + UpLeft(us)) && Abs(File(to) - File(from)) <= 1
  {
    Coords(from); Coords(to);
    hide File, Rank;
  }

  lemma PushNoWrap(us: Color, from: Square, to: Square)
    requires to == from + Up(us)
    ensures File(to) == File(from) && RelativeRank(us, to) == RelativeRank(us, from) + 1
  {
    Coords(from); Coords(to);
    hide File, Rank;
  }

  lemma DoubleNoWrap(us: Color, from: Square, mid: Square)
    requires mid == from + Up(us)
    ensures RelativeRank(us, mid) == 2 <==> RelativeRank(us, from) == 1
  {
    PushNoWrap(us, from, mid);
  }

  lemma RankMask(us: Color, s: Square)
    ensures s in RankBB(if us == White then 6 else 1) <==> RelativeRank(us, s) == 6
    ensures s in RankBB(if us == White then 2 else 5) <==> RelativeRank(us, s) == 2
  {
  }

  // ----- pawns: membership of the shifted sets -----

  /** s holds a pawn of us that the pin lets move to t. */
  predicate FreePawn(b: Board, us: Color, k: Square, s: Square, on7: bool, mayMove: bool) {
    && b[s] == Piece(us, Pawn) && (RelativeRank(us, s) == 6 <==> on7)
    && (Blocker(b, Flip(us), k, s) ==> mayMove)
  }

  function PawnsHere(v: View, on7: bool): Bitboard
    requires |v.byType| == 7 && |v.byColor| == 2
  {
    if on7 then PawnsOn7(v) else PawnsNot7(v)
  }

  lemma PawnsHereMember(b: Board, us: Color, k: Square, v: View, on7: bool, s: Square)
    requires Reads(b, us, k, v)
    ensures s in PawnsHere(v, on7) <==> b[s] == Piece(us, Pawn) && (RelativeRank(us, s) == 6 <==> on7)
    ensures s in Pinned7(v) <==> Blocker(b, Flip(us), k, s)
  {
    PiecesCPExact(b, v, us, Pawn);
    RankMask(us, s);
    hide TypesSynced, ColorsSynced, RankBB, PiecesCP, Blocker, Occupied, IsKing, AttackersBB;
  }

  lemma Push1Member(b: Board, us: Color, k: Square, v: View, on7: bool, from: Square, to: Square)
    requires Reads(b, us, k, v) && to == from + Up(us)
    ensures to in Push1(v, k, PawnsHere(v, on7)) <==>
              FreePawn(b, us, k, from, on7, OnLine(k, from, to)) && b[to] == NoPiece
  {
    PawnsHereMember(b, us, k, v, on7, from);
    PushNoWrap(us, from, to);
    assert Pieces(v) == Occupied(b);
    assert from in ALL_SQUARES && to in ALL_SQUARES;
    if from != k {
      PushLine(us, k, from, to);
    }
    assert to - Up(us) == from;
    hide TypesSynced, ColorsSynced, PawnsHere, Blocker, OnLine, AttackersBB, Pinned7;
  }

  lemma Push2Member(b: Board, us: Color, k: Square, v: View, from: Square, to: Square)
    requires Reads(b, us, k, v) && to == from + 2 * Up(us)
    ensures to in Push2(v, k) <==>
              FreePawn(b, us, k, from, false, OnLine(k, from, to)) && PawnDouble(b, us, from, to)
  {
    Coords(from); Coords(to);
    var mid: Square := from + Up(us);
    Push1Member(b, us, k, v, false, from, mid);
    PushNoWrap(us, from, mid);
    PushNoWrap(us, mid, to);
    DoubleNoWrap(us, from, mid);
    RankMask(us, mid);
    assert Pieces(v) == Occupied(b);
    assert to in ALL_SQUARES;
    if from != k {
      PushLine(us, k, from, to);
      PushLine(us, k, from, mid);
    }
    assert to - Up(us) == mid;
    assert PawnsHere(v, false) == PawnsNot7(v);
    hide TypesSynced, ColorsSynced, PawnsHere, Push1, RankBB, Blocker, OnLine, AttackersBB, File, Rank;
  }

  /** A square of the shifted sets read back: a pawn one step behind it, not held by its pin,
      and an enemy piece on it. */
  lemma TakeRightRead(v: View, k: Square, pawns: Bitboard, from: Square, to: Square)
    requires |v.byColor| == 2 && |v.st.blockers| == 2 && to == from + UpRight(v.side)
    ensures to in TakeRight(v, k, pawns) <==>
              && from in pawns && (from in Pinned7(v) ==> from in DiagBB(k))
              && PawnStep(v.side, from, to) && to in PiecesC(v, Flip(v.side))
  {
    StepIsShift(v.side, from, to);
    assert from in ALL_SQUARES;
    hide DiagBB, PiecesC, Pinned7, PawnStep;
  }

  lemma TakeLeftRead(v: View, k: Square, pawns: Bitboard, from: Square, to: Square)
    requires |v.byColor| == 2 && |v.st.blockers| == 2 && to == from + UpLeft(v.side)
    ensures to in TakeLeft(v, k, pawns) <==>
              && from in pawns && (from in Pinned7(v) ==> from in AntiDiagBB(k))
              && PawnStep(v.side, from, to) && to in PiecesC(v, Flip(v.side))
  {
    StepIsShift(v.side, from, to);
    assert from in ALL_SQUARES;
    hide AntiDiagBB, PiecesC, Pinned7, PawnStep;
  }

  /** What a capture needs, spelled out. */
  lemma TakeNeeds(b: Board, us: Color, k: Square, v: View, on7: bool, from: Square, to: Square)
    requires Reads(b, us, k, v)
    ensures v.side == us && |v.byType| == 7 && |v.byColor| == 2 && |v.st.blockers| == 2
    ensures b[from] == Piece(us, Pawn) ==> from != k
    ensures b[from] == Piece(us, Pawn) ==>
            (PawnCapture(b, us, from, to) <==> PawnStep(us, from, to) && to in PiecesC(v, Flip(us)))
    ensures FreePawn(b, us, k, from, on7, OnLine(k, from, to)) <==>
              && b[from] == Piece(us, Pawn) && (RelativeRank(us, from) == 6 <==> on7)
              && (Blocker(b, Flip(us), k, from) ==> OnLine(k, from, to))
  {
    assert PiecesC(v, Flip(us)) == OfColor(b, Flip(us));
    hide TypesSynced, ColorsSynced, Blocker, OnLine, AttackersBB, PawnStep, PiecesC, RelativeRank;
  }

  lemma RightMember(b: Board, us: Color, k: Square, v: View, on7: bool, from: Square, to: Square)
    requires Reads(b, us, k, v) && to == from + UpRight(us)
    ensures to in TakeRight(v, k, PawnsHere(v, on7)) <==>
              FreePawn(b, us, k, from, on7, OnLine(k, from, to)) && PawnCapture(b, us, from, to)
  {
    hide *;
    TakeNeeds(b, us, k, v, on7, from, to);
    PawnsHereMember(b, us, k, v, on7, from);
    TakeRightRead(v, k, PawnsHere(v, on7), from, to);
    if from != k && PawnStep(us, from, to) {
      RightLine(us, k, from, to);
    }
  }

  lemma LeftMember(b: Board, us: Color, k: Square, v: View, on7: bool, from: Square, to: Square)
    requires Reads(b, us, k, v) && to == from + UpLeft(us)
    ensures to in TakeLeft(v, k, PawnsHere(v, on7)) <==>
              FreePawn(b, us, k, from, on7, OnLine(k, from, to)) && PawnCapture(b, us, from, to)
  {
    hide *;
    TakeNeeds(b, us, k, v, on7, from, to);
    PawnsHereMember(b, us, k, v, on7, from);
    TakeLeftRead(v, k, PawnsHere(v, on7), from, to);
    if from != k && PawnStep(us, from, to) {
      LeftLine(us, k, from, to);
    }
  }

  // ----- pawns: what the whole generator emits -----

  predicate PinFree(b: Board, us: Color, k: Square, from: Square, to: Square) {
    Blocker(b, Flip(us), k, from) ==> OnLine(k, from, to)
  }

  /** Captures belong to the capture stage, other moves to the quiet stage, all to evasions. */
  predicate StageTakes(stage: GenType, capture: bool) {
    if capture then stage != Quiets else stage != Captures
  }

  predicate PawnNormalEntry(b: Board, us: Color, k: Square, stage: GenType, target: Bitboard, m: Move) {
    && m == NormalMove(m.from, m.to) && b[m.from] == Piece(us, Pawn) && RelativeRank(us, m.from) != 6
    && Moves(b, us, m.from, m.to) && PinFree(b, us, k, m.from, m.to)
    && StageTakes(stage, b[m.to] != NoPiece)
    && (stage == Evasions ==> m.to in target)
  }

  predicate PawnPromotionEntry(b: Board, us: Color, k: Square, stage: GenType, target: Bitboard, m: Move) {
    && m.kind == Promotion && b[m.from] == Piece(us, Pawn) && RelativeRank(us, m.from) == 6
    && Moves(b, us, m.from, m.to) && PinFree(b, us, k, m.from, m.to)
    && PromotesIn(stage, b[m.to] != NoPiece, m.promo)
    && (stage == Evasions ==> m.to in target)
  }

  predicate PawnEpEntry(b: Board, us: Color, k: Square, v: View, stage: GenType, target: Bitboard, m: Move) {
    && m.kind == EnPassant && m.promo == Knight && v.st.epSquare == Some(m.to)
    && b[m.from] == Piece(us, Pawn) && RelativeRank(us, m.from) != 6 && PawnStep(us, m.from, m.to)
    && PinFree(b, us, k, m.from, m.to) && EpAllowed(v, stage, target)
  }

  /** The four ways a pawn moves exclude each other. */
  lemma PawnWays(b: Board, us: Color, from: Square, to: Square)
    requires b[from] == Piece(us, Pawn)
    ensures Moves(b, us, from, to) <==>
              PawnPush(b, us, from, to) || PawnDouble(b, us, from, to) || PawnCapture(b, us, from, to)
    ensures PawnCapture(b, us, from, to) ==> b[to] != NoPiece && (to == from + UpRight(us) || to == from + UpLeft(us))
    ensures PawnPush(b, us, from, to) || PawnDouble(b, us, from, to) ==> b[to] == NoPiece
    ensures PawnDouble(b, us, from, to) ==> RelativeRank(us, from) != 6
  {
    StepIsShift(us, from, to);
    hide PawnStep, File, Rank;
  }

  /** The emptiness of a term does not depend on the masks it was built from. */
  lemma PawnTerms(b: Board, us: Color, k: Square, v: View, target: Bitboard, stage: GenType, m: Move, on7: bool)
    requires Reads(b, us, k, v)
    ensures var from, to := m.from, m.to;
            var free := b[from] == Piece(us, Pawn) && (RelativeRank(us, from) == 6 <==> on7) &&
              PinFree(b, us, k, from, to);
            && (to == from + Up(us) ==> (to in Push1(v, k, PawnsHere(v, on7)) <==> free && PawnPush(b, us, from, to)))
            && (to == from + 2 * Up(us) && !on7 ==> (to in Push2(v, k) <==> free && PawnDouble(b, us, from, to)))
            && (to == from + UpRight(us) ==>
                 (to in TakeRight(v, k, PawnsHere(v, on7)) <==> free && PawnCapture(b, us, from, to)))
            && (to == from + UpLeft(us) ==>
                 (to in TakeLeft(v, k, PawnsHere(v, on7)) <==> free && PawnCapture(b, us, from, to)))
  {
    if m.to == m.from + UpRight(us) {
      RightMember(b, us, k, v, on7, m.from, m.to);
    }
    if m.to == m.from + UpLeft(us) {
      LeftMember(b, us, k, v, on7, m.from, m.to);
    }
    if m.to == m.from + Up(us) {
      Push1Member(b, us, k, v, on7, m.from, m.to);
    }
    if m.to == m.from + 2 * Up(us) {
      Push2Member(b, us, k, v, m.from, m.to);
    }
    hide Reads, Push1, Push2, TakeRight, TakeLeft, PawnsHere, Blocker, OnLine, PawnDouble, PawnCapture, RelativeRank;
  }

  lemma MaskedMember(stage: GenType, target: Bitboard, b: Bitboard, s: Square)
    ensures s in Masked(stage, target, b) <==> s in b && (stage == Evasions ==> s in target)
  {
  }

  /** A normal pawn move can only come from the four terms of pawns off the seventh rank. */
  lemma NormalTerms(v: View, k: Square, target: Bitboard, stage: GenType, m: Move)
    requires |v.byType| == 7 && |v.byColor| == 2 && |v.st.blockers| == 2 && m.kind == Normal
    ensures var us, pawns := v.side, PawnsNot7(v);
            PawnEntries(v, k, target, stage, m) ==
            (if stage == Captures then 0 else
               Bit(ToEntry(Masked(stage, target, Push1(v, k, pawns)), Up(us), m))
               + Bit(ToEntry(Masked(stage, target, Push2(v, k)), 2 * Up(us), m)))
            + (if stage == Quiets then 0 else
                 Bit(ToEntry(Masked(stage, target, TakeRight(v, k, pawns)), UpRight(us), m))
                 + Bit(ToEntry(Masked(stage, target, TakeLeft(v, k, pawns)), UpLeft(us), m)))
  {
    hide Push1, Push2, TakeRight, TakeLeft, PawnsNot7, PawnsOn7, Masked, ToEntry, EpFrom, EpAllowed;
  }

  lemma PawnNormalCount(b: Board, us: Color, k: Square, v: View, target: Bitboard, stage: GenType, m: Move)
    requires Reads(b, us, k, v) && m.kind == Normal
    ensures PawnEntries(v, k, target, stage, m) == Bit(PawnNormalEntry(b, us, k, stage, target, m))
  {
    TakeNeeds(b, us, k, v, false, m.from, m.to);
    PawnTerms(b, us, k, v, target, stage, m, false);
    if b[m.from] == Piece(us, Pawn) {
      PawnWays(b, us, m.from, m.to);
    }
    assert PawnsHere(v, false) == PawnsNot7(v);
    NormalTerms(v, k, target, stage, m);
    MaskedMember(stage, target, Push1(v, k, PawnsNot7(v)), m.to);
    MaskedMember(stage, target, Push2(v, k), m.to);
    MaskedMember(stage, target, TakeRight(v, k, PawnsNot7(v)), m.to);
    MaskedMember(stage, target, TakeLeft(v, k, PawnsNot7(v)), m.to);
    hide Reads, Push1, Push2, TakeRight, TakeLeft, PawnsHere, PawnsNot7, PawnEntries, PinFree, PawnCapture, PawnPush,
         PawnDouble,
         Moves, RelativeRank, Masked, FreePawn, Blocker, OnLine, PawnStep, PiecesC;
  }

  /** A promotion can only come from the three terms of pawns on the seventh rank. */
  lemma PromotionTerms(v: View, k: Square, target: Bitboard, stage: GenType, m: Move)
    requires |v.byType| == 7 && |v.byColor| == 2 && |v.st.blockers| == 2 && m.kind == Promotion
    ensures var us, pawns := v.side, PawnsOn7(v);
            PawnEntries(v, k, target, stage, m) ==
            Bit(PromotionEntry(Masked(stage, target, TakeRight(v, k, pawns)), UpRight(us), stage, true, m))
            + Bit(PromotionEntry(Masked(stage, target, TakeLeft(v, k, pawns)), UpLeft(us), stage, true, m))
            + Bit(PromotionEntry(Masked(stage, target, Push1(v, k, pawns)), Up(us), stage, false, m))
  {
    hide Push1, Push2, TakeRight, TakeLeft, PawnsNot7, PawnsOn7, Masked, PromotionEntry, EpFrom, EpAllowed;
  }

  lemma PawnPromotionCount(b: Board, us: Color, k: Square, v: View, target: Bitboard, stage: GenType, m: Move)
    requires Reads(b, us, k, v) && m.kind == Promotion
    ensures PawnEntries(v, k, target, stage, m) == Bit(PawnPromotionEntry(b, us, k, stage, target, m))
  {
    TakeNeeds(b, us, k, v, true, m.from, m.to);
    PawnTerms(b, us, k, v, target, stage, m, true);
    if b[m.from] == Piece(us, Pawn) {
      PawnWays(b, us, m.from, m.to);
    }
    assert PawnsHere(v, true) == PawnsOn7(v);
    PromotionTerms(v, k, target, stage, m);
    MaskedMember(stage, target, TakeRight(v, k, PawnsOn7(v)), m.to);
    MaskedMember(stage, target, TakeLeft(v, k, PawnsOn7(v)), m.to);
    MaskedMember(stage, target, Push1(v, k, PawnsOn7(v)), m.to);
    hide Reads, Push1, Push2, TakeRight, TakeLeft, PawnsHere, PawnsOn7, PawnEntries, PinFree, PawnCapture, PawnPush,
         PawnDouble,
         Moves, RelativeRank, Masked, FreePawn, Blocker, OnLine, PawnStep, PiecesC, PromotesIn;
  }

  lemma EpFromMember(b: Board, us: Color, k: Square, v: View, from: Square, e: Square)
    requires Reads(b, us, k, v)
    ensures from in EpFrom(v, k, e) <==>
              && b[from] == Piece(us, Pawn) && RelativeRank(us, from) != 6 && PawnStep(us, from, e)
              && PinFree(b, us, k, from, e)
  {
    PawnsHereMember(b, us, k, v, false, from);
    StepIsShift(us, from, e);
    assert from in ALL_SQUARES;
    assert b[from] == Piece(us, Pawn) ==> from != k;
    if PawnStep(us, from, e) && from != k {
      if e == from + UpRight(us) {
        RightLine(us, k, from, e);
      } else {
        LeftLine(us, k, from, e);
      }
    }
    EpShift(us, from, e);
    assert PawnsHere(v, false) == PawnsNot7(v);
    hide TypesSynced, ColorsSynced, PawnsHere, PawnsNot7, Blocker, OnLine, AttackersBB, Pinned7, DiagBB, AntiDiagBB,
         PawnStep, ShiftBB, UpRight, UpLeft;
  }

  lemma EpShift(us: Color, from: Square, e: Square)
    ensures from in ShiftBB(-UpRight(us), {e}) <==> e == from + UpRight(us) && Abs(File(e) - File(from)) <= 1
    ensures from in ShiftBB(-UpLeft(us), {e}) <==> e == from + UpLeft(us) && Abs(File(e) - File(from)) <= 1
  {
    hide File;
  }

  lemma PawnEpCount(b: Board, us: Color, k: Square, v: View, target: Bitboard, stage: GenType, m: Move)
    requires Reads(b, us, k, v) && m.kind == EnPassant
    ensures PawnEntries(v, k, target, stage, m) == Bit(PawnEpEntry(b, us, k, v, stage, target, m))
  {
    EpFromMember(b, us, k, v, m.from, m.to);
    assert v.side == us;
    hide Reads, Push1, Push2, TakeRight, TakeLeft, PawnsNot7, PawnsOn7, PinFree, EpFrom, PawnStep, RelativeRank;
  }

  lemma PawnCastlingCount(v: View, k: Square, target: Bitboard, stage: GenType, m: Move)
    requires |v.byType| == 7 && |v.byColor| == 2 && |v.st.blockers| == 2 && m.kind == Castling
    ensures PawnEntries(v, k, target, stage, m) == 0
  {
    hide Push1, Push2, TakeRight, TakeLeft, PawnsNot7, PawnsOn7, EpFrom;
  }

  // ----- pieces and kings -----

  predicate MoverEntry(b: Board, us: Color, k: Square, target: Bitboard, m: Move) {
    && m == NormalMove(m.from, m.to) && IsColor(b, us, m.from)
    && b[m.from].kind != Pawn && b[m.from].kind != King
    && Hits(b[m.from], m.from, m.to, Occupied(b)) && m.to in target && PinFree(b, us, k, m.from, m.to)
  }

  lemma PieceEntryMeans(b: Board, us: Color, k: Square, v: View, kind: PieceType, target: Bitboard, m: Move)
    requires Reads(b, us, k, v) && kind != Pawn && kind != King
    ensures PieceEntry(v, k, kind, target, m) <==> MoverEntry(b, us, k, target, m) && b[m.from].kind == kind
  {
    PiecesCPExact(b, v, us, kind);
    ColourFree(kind, us, m.from, m.to, Occupied(b));
    assert Pieces(v) == Occupied(b);
    assert OnLine(k, m.from, m.to) <==> m.to in LineBB(k, m.from);
    if kind == Knight && Hits(Piece(us, Knight), m.from, m.to, Occupied(b)) {
      KnightOffLine(m.from, m.to);
      KnightNotOnLine(k, m.from, m.to);
    }
    hide TypesSynced, ColorsSynced, Hits, Occupied, Blocker, OnLine, LineBB, AttackersBB, PiecesCP;
  }

  lemma KnightNotOnLine(k: Square, from: Square, to: Square)
    requires KnightStep(from, to)
    ensures !OnLine(k, from, to)
  {
    Coords(k); Coords(from); Coords(to);
    hide File, Rank;
  }

  lemma PieceCount(b: Board, us: Color, k: Square, v: View, target: Bitboard, m: Move)
    requires Reads(b, us, k, v)
    ensures |v.byType| == 7 && |v.byColor| == 2
    ensures Bit(PieceEntry(v, k, Knight, target, m)) + Bit(PieceEntry(v, k, Bishop, target, m))
            + Bit(PieceEntry(v, k, Rook, target, m)) + Bit(PieceEntry(v, k, Queen, target, m))
            == Bit(MoverEntry(b, us, k, target, m))
  {
    PieceEntryMeans(b, us, k, v, Knight, target, m);
    PieceEntryMeans(b, us, k, v, Bishop, target, m);
    PieceEntryMeans(b, us, k, v, Rook, target, m);
    PieceEntryMeans(b, us, k, v, Queen, target, m);
    hide PieceEntry, Hits, PinFree, Occupied, Blocker, AttackersBB;
  }

  predicate KingMoveEntry(b: Board, us: Color, k: Square, stage: GenType, m: Move) {
    && m == NormalMove(k, m.to) && KingStep(k, m.to) && !IsColor(b, us, m.to)
    && !Threatened(b, Flip(us), k, m.to)
    && (stage == Evasions || StageTakes(stage, b[m.to] != NoPiece))
  }

  lemma KingCount(b: Board, us: Color, k: Square, v: View, stage: GenType, m: Move)
    requires Reads(b, us, k, v)
    ensures |v.byType| == 7 && |v.byColor| == 2
    ensures KingEntry(v, k, AllThreatsBB(b, Flip(us), k), stage, m) <==> KingMoveEntry(b, us, k, stage, m)
  {
    assert PiecesC(v, us) == OfColor(b, us) && PiecesC(v, Flip(us)) == OfColor(b, Flip(us)) && Pieces(v) == Occupied(b);
    assert m.to in ALL_SQUARES;
    assert IsColor(b, us, m.to) || IsColor(b, Flip(us), m.to) || b[m.to] == NoPiece;
    hide TypesSynced, ColorsSynced, Threatened, Blocker, AttackersBB, KingStep, PiecesC;
  }

  // ----- the king is safe afterwards -----

  /** Every checker blocked or taken, and the mover free of its pin. */
  predicate SafeMover(b: Board, us: Color, k: Square, from: Square, to: Square) {
    && (forall a: Square :: Attacker(b, Flip(us), a, k, Occupied(b)) ==> Span(k, a, to))
    && PinFree(b, us, k, from, to)
  }

  lemma NonKingSafe(p: Pos, m: Move, k: Square)
    requires WellFormed(p) && (m.kind == Normal || m.kind == Promotion) && Moves(p.board, p.side, m.from, m.to)
    requires IsKing(p.board, p.side, k) && m.from != k
    ensures var b' := After(p.board, p.side, m);
            && IsKing(b', p.side, k) && HasKing(b', p.side)
            && (InCheck(b', p.side) <==> !SafeMover(p.board, p.side, k, m.from, m.to))
  {
    var b, us := p.board, p.side;
    var b' := After(b, us, m);
    AfterStepped(b, us, m);
    MovePathClear(p, m.from, m.to);
    KingNotTaken(p, m.from, m.to);
    EnemyKing(p);
    assert b[m.from].kind != King by { KingUniquePiece(b, us, k, m.from); }
    KingsAfterStep(b, b', us, m.from, m.to, k, KingOf(b, Flip(us)));
    CheckIs(b', us, k);
    hide WellFormed, After, Moves, IsKing, HasKing, Attacked, Blocker, OnLine, Clear, Occupied, Span;
    if Attacked(b', Flip(us), k) {
      if SafeMover(b, us, k, m.from, m.to) {
        SafeStepSuffices(b, b', us, k, m.from, m.to);
      }
    } else {
      SafeStepNeeds(b, b', us, k, m.from, m.to);
    }
  }

  lemma EnemyKing(p: Pos)
    requires WellFormed(p)
    ensures HasKing(p.board, Flip(p.side)) && IsKing(p.board, Flip(p.side), KingOf(p.board, Flip(p.side)))
    ensures HasKing(p.board, p.side) && IsKing(p.board, p.side, KingOf(p.board, p.side))
  {
  }

  lemma KingUniquePiece(b: Board, c: Color, k: Square, s: Square)
    requires IsKing(b, c, k) && s != k && IsColor(b, c, s)
    ensures b[s].kind != King
  {
  }

  /** The king is safe on `to` exactly when nothing attacks it with the king itself lifted. */
  lemma KingSafe(p: Pos, m: Move, k: Square)
    requires WellFormed(p) && m.kind == Normal && Moves(p.board, p.side, m.from, m.to)
    requires IsKing(p.board, p.side, k) && m.from == k
    ensures var b' := After(p.board, p.side, m);
            && HasKing(b', p.side)
            && (InCheck(b', p.side) <==> Threatened(p.board, Flip(p.side), k, m.to))
  {
    var b, us := p.board, p.side;
    var b' := After(b, us, m);
    AfterStepped(b, us, m);
    KingNotTaken(p, m.from, m.to);
    EnemyKing(p);
    KingsAfterStep(b, b', us, m.from, m.to, k, KingOf(b, Flip(us)));
    CheckIs(b', us, m.to);
    hide WellFormed, After, Moves, IsKing, HasKing;
    SteppedOccupied(b, b', us, m.from, m.to);
    forall a: Square
      ensures Attacker(b', Flip(us), a, m.to, Occupied(b')) <==> Attacker(b, Flip(us), a, m.to, Occupied(b) - {k})
    {
      KingTargetAttacker(b, b', us, k, m.to, a);
    }
    hide Attacker, Occupied;
  }

  lemma KingTargetAttacker(b: Board, b': Board, us: Color, k: Square, to: Square, a: Square)
    requires Stepped(b, b', us, k, to) && Occupied(b') == Occupied(b) - {k} + {to}
    ensures Attacker(b', Flip(us), a, to, Occupied(b')) <==> Attacker(b, Flip(us), a, to, Occupied(b) - {k})
  {
    NotInsideEnd(a, to);
    assert Clear(a, to, Occupied(b')) <==> Clear(a, to, Occupied(b) - {k});
    if a == to && IsColor(b, Flip(us), a) {
      HitsSelf(b[a], a, Occupied(b) - {k});
    }
    hide Clear, Occupied, RookLine, BishopLine, KnightStep, KingStep, PawnStep;
  }

  lemma NotInsideEnd(a: Square, b: Square)
    ensures !Inside(a, b, b)
  {
  }

  lemma HitsSelf(pc: Piece, s: Square, occ: Bitboard)
    requires pc.Piece?
    ensures !Hits(pc, s, s, occ)
  {
  }
}
