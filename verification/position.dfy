/** The position as the source keeps it: boards, bitboards and counts rewritten in place, and a
    stack of state records, all moved together by make, unmake and the null move. */
module Position {
  import opened Squares
  import opened Types
  import opened Board
  import opened Rules
  import opened Attacks
  import opened Derived
  import opened State
  import opened Threats
  import opened ThreatDelta
  import opened EnPassantRule
  import opened Views
  import opened Keys
  import opened Records
  import opened Caches
  import opened Chains
  import opened MoveGen
  import PieceDelta

  /** The threat record of one move. */
  class DirtyThreats {
    var list: seq<DirtyThreat>
    var us: Color
    var prevKsq: Square
    var ksq: Square

    constructor ()
    {
    }
  }

  // ----- one square changed: what it does to the tables -----

  /** Setting or clearing s, as `|=` and `^=` do. */
  function Toggled(b: Bitboard, s: Square, put: bool): Bitboard {
    if put then b + {s} else Xor(b, {s})
  }

  lemma TypesToggled(b: Board, byType: seq<Bitboard>, pc: Piece, s: Square, put: bool)
    requires TypesSynced(b, byType) && pc.Piece?
    requires if put then b[s] == NoPiece else b[s] == pc
    ensures TypesSynced(b[s := if put then pc else NoPiece],
                        byType[0 := Toggled(byType[0], s, put)]
                              [TypeIndex(pc.kind) := Toggled(byType[TypeIndex(pc.kind)], s, put)])
  {
    var b' := b[s := if put then pc else NoPiece];
    assert Occupied(b') == Toggled(Occupied(b), s, put);
    forall kind: PieceType
      ensures OfType(b', kind) == if kind == pc.kind then Toggled(OfType(b, kind), s, put) else OfType(b, kind)
      ensures TypeIndex(kind) != 0 && (TypeIndex(kind) == TypeIndex(pc.kind) <==> kind == pc.kind)
    {
    }
    hide Occupied, OfType, Toggled;
  }

  lemma ColorsToggled(b: Board, byColor: seq<Bitboard>, pc: Piece, s: Square, put: bool)
    requires ColorsSynced(b, byColor) && pc.Piece?
    requires if put then b[s] == NoPiece else b[s] == pc
    ensures ColorsSynced(b[s := if put then pc else NoPiece],
                         byColor[ColorIndex(pc.color) := Toggled(byColor[ColorIndex(pc.color)], s, put)])
  {
    var b' := b[s := if put then pc else NoPiece];
    forall c: Color
      ensures OfColor(b', c) == if c == pc.color then Toggled(OfColor(b, c), s, put) else OfColor(b, c)
    {
    }
    hide OfColor, Toggled;
  }

  lemma CountsToggled(b: Board, pieceCount: seq<int>, pc: Piece, s: Square, put: bool)
    requires CountsSynced(b, pieceCount) && pc.Piece?
    requires if put then b[s] == NoPiece else b[s] == pc
    ensures CountsSynced(b[s := if put then pc else NoPiece],
                         pieceCount[PieceIndex(pc) := pieceCount[PieceIndex(pc)] + if put then 1 else -1])
  {
    var b' := b[s := if put then pc else NoPiece];
    forall qc: Piece | qc.Piece?
      ensures |PiecesOf(b', qc)| == |PiecesOf(b, qc)| + if qc != pc then 0 else if put then 1 else -1
      ensures PieceIndex(qc) == PieceIndex(pc) <==> qc == pc
    {
      PieceIndexInjective(qc, pc);
      CountOne(b, qc, pc, s, put);
    }
    hide PiecesOf, PieceIndex;
  }

  lemma CountOne(b: Board, qc: Piece, pc: Piece, s: Square, put: bool)
    requires pc.Piece? && qc.Piece?
    requires if put then b[s] == NoPiece else b[s] == pc
    ensures |PiecesOf(b[s := if put then pc else NoPiece], qc)|
            == |PiecesOf(b, qc)| + if qc != pc then 0 else if put then 1 else -1
  {
    var b' := b[s := if put then pc else NoPiece];
    if qc != pc {
      assert PiecesOf(b', qc) == PiecesOf(b, qc);
    } else if put {
      assert PiecesOf(b', qc) == PiecesOf(b, qc) + {s};
    } else {
      assert PiecesOf(b', qc) + {s} == PiecesOf(b, qc);
    }
  }

  lemma SyncedOccupied(b: Board, byType: seq<Bitboard>, byColor: seq<Bitboard>, pieceCount: seq<int>)
    requires Synced(b, byType, byColor, pieceCount)
    ensures |byType| == 7 && byType[0] == Occupied(b)
  {
  }

  /** One exclusive or with {from, to} is a lift followed by a placement. */
  lemma MovedTables(b: Board, byType: seq<Bitboard>, byColor: seq<Bitboard>, pieceCount: seq<int>, from: Square,
                    to: Square)
    requires Synced(b, byType, byColor, pieceCount) && b[from].Piece? && b[to] == NoPiece && from != to
    ensures |byType| == 7 && |byColor| == 2
    ensures var pc := b[from];
            Synced(b[from := NoPiece][to := pc],
                   byType[0 := Xor(byType[0], {from, to})][TypeIndex(pc.kind) := Xor(byType[TypeIndex(pc.kind)],
                       {from, to})],
                   byColor[ColorIndex(pc.color) := Xor(byColor[ColorIndex(pc.color)], {from, to})],
                   pieceCount)
  {
    var pc := b[from];
    var b0: Board := b[from := NoPiece];
    TypesToggled(b, byType, pc, from, false);
    ColorsToggled(b, byColor, pc, from, false);
    CountsToggled(b, pieceCount, pc, from, false);
    var t0 := byType[0 := Toggled(byType[0], from, false)][TypeIndex(pc.kind) := Toggled(byType[TypeIndex(pc.kind)],
        from, false)];
    var c0 := byColor[ColorIndex(pc.color) := Toggled(byColor[ColorIndex(pc.color)], from, false)];
    var n0 := pieceCount[PieceIndex(pc) := pieceCount[PieceIndex(pc)] - 1];
    TypesToggled(b0, t0, pc, to, true);
    ColorsToggled(b0, c0, pc, to, true);
    CountsToggled(b0, n0, pc, to, true);
    assert to !in byType[TypeIndex(pc.kind)] && from in byType[TypeIndex(pc.kind)];
    assert to !in byColor[ColorIndex(pc.color)] && from in byColor[ColorIndex(pc.color)];
    XorPair(byType[0], from, to);
    XorPair(byType[TypeIndex(pc.kind)], from, to);
    XorPair(byColor[ColorIndex(pc.color)], from, to);
    hide TypesSynced, ColorsSynced, CountsSynced, Toggled, Xor;
    var t1 := t0[0 := Toggled(t0[0], to, true)][TypeIndex(pc.kind) := Toggled(t0[TypeIndex(pc.kind)], to, true)];
    assert t1 ==
           byType[0 := Xor(byType[0], {from, to})][TypeIndex(pc.kind) := Xor(byType[TypeIndex(pc.kind)], {from, to})];
    assert c0[ColorIndex(pc.color) := Toggled(c0[ColorIndex(pc.color)], to, true)]
           == byColor[ColorIndex(pc.color) := Xor(byColor[ColorIndex(pc.color)], {from, to})];
    assert n0[PieceIndex(pc) := n0[PieceIndex(pc)] + 1] == pieceCount;
  }

  lemma XorPair(b: Bitboard, from: Square, to: Square)
    requires from in b && to !in b
    ensures Toggled(Toggled(b, from, false), to, true) == Xor(b, {from, to})
  {
  }

  lemma CountRead(b: Board, byType: seq<Bitboard>, byColor: seq<Bitboard>, pieceCount: seq<int>, pc: Piece)
    requires Synced(b, byType, byColor, pieceCount) && pc.Piece?
    ensures |pieceCount| == 16 && 0 <= PieceIndex(pc) < 16 && pieceCount[PieceIndex(pc)] == |PiecesOf(b, pc)|
  {
  }

  lemma NetNone(l: seq<DirtyThreat>, b: Board)
    ensures NetStep(l, l, b, b)
  {
  }

  /** What capturing does to the record, the key fields apart. */
  ghost predicate CaptureRetired(z: Zobrist, b: Board, captured: Piece, st: StateInfo, st': StateInfo)
    requires captured.Piece? && |st.nonPawnMaterial| == 2
  {
    var i := ColorIndex(captured.color);
    st' == st.(pawnKey := st'.pawnKey, minorPieceKey := st'.minorPieceKey, nonPawnKey := st'.nonPawnKey, rule50 := 0,
               materialKey := Xor(st.materialKey, z.psq(captured, 8 + |PiecesOf(b, captured)| - 1)),
               nonPawnMaterial := st.nonPawnMaterial[i := st.nonPawnMaterial[i] - MaterialTerm(captured,
                   captured.color)])
  }

  /** The record's part of a capture. `slot` is the number of the victim's copies that stay. */
  method RetireRecord(z: Zobrist, st: StateInfo, key: Key, captured: Piece, capSq: Square, slot: int,
                      ghost b: Board, ghost parent: StateInfo, ghost w: Key, ghost d: KeyVector)
    returns (st': StateInfo, key': Key)
    requires captured.Piece? && Carried(parent, st, key, w, d) && |st.nonPawnMaterial| == 2
    requires slot == |PiecesOf(b, captured)| - 1
    ensures Carried(parent, st', key', w, Sum(d, Of(z, captured, capSq)))
    ensures CaptureRetired(z, b, captured, st, st')
  {
    hide Carried, Sum, Of, PiecesOf, Xor, Held;
    var i := ColorIndex(captured.color);
    var toggled: StateInfo;
    toggled, key' := Toggle(z, st, key, captured, capSq, parent, w, d);
    st' := toggled.(materialKey := Xor(st.materialKey, z.psq(captured, 8 + slot)), rule50 := 0);
    if captured.kind != Pawn {
      st' := st'.(nonPawnMaterial := st'.nonPawnMaterial[i := st'.nonPawnMaterial[i] - PieceValue(captured.kind)]);
    } else {
      assert st.nonPawnMaterial[i := st.nonPawnMaterial[i] - 0] == st.nonPawnMaterial;
    }
    CarriedSame(parent, toggled, st', key', w, Sum(d, Of(z, captured, capSq)));
  }

  /** The record's part of a promotion: the pawn's arrival is taken back, the new piece put in its place. */
  method PromoteRecord(z: Zobrist, st: StateInfo, key: Key, pc: Piece, promoted: Piece, to: Square, promotedCount: int,
                       pawnCount: int, ghost parent: StateInfo, ghost w: Key, ghost d: KeyVector)
    returns (st': StateInfo, key': Key)
    requires pc.Piece? && promoted.Piece? && promoted.kind != Pawn && Carried(parent, st, key, w, d) &&
             |st.nonPawnMaterial| == 2
    ensures Carried(parent, st', key', w, Sum(Sum(d, Of(z, pc, to)), Of(z, promoted, to)))
    ensures var i := ColorIndex(promoted.color);
            st' == st.(pawnKey := st'.pawnKey, minorPieceKey := st'.minorPieceKey, nonPawnKey := st'.nonPawnKey,
                       materialKey := Xor(st.materialKey,
                                          Xor(z.psq(promoted, 8 + promotedCount), z.psq(pc, 8 + pawnCount - 1))),
                       nonPawnMaterial := st.nonPawnMaterial[i := st.nonPawnMaterial[i] + PieceValue(promoted.kind)])
  {
    hide Carried, Sum, Of, PiecesOf, Xor, Held;
    var i := ColorIndex(promoted.color);
    var toggled: StateInfo;
    toggled, key' := Toggle(z, st, key, pc, to, parent, w, d);
    toggled, key' := Toggle(z, toggled, key', promoted, to, parent, w, Sum(d, Of(z, pc, to)));
    st' := toggled.(materialKey := Xor(toggled.materialKey,
                                       Xor(z.psq(promoted, 8 + promotedCount), z.psq(pc, 8 + pawnCount - 1))),
                    nonPawnMaterial := toggled.nonPawnMaterial[i := toggled.nonPawnMaterial[i] +
                        PieceValue(promoted.kind)]);
    CarriedSame(parent, toggled, st', key', w, Sum(Sum(d, Of(z, pc, to)), Of(z, promoted, to)));
  }

  /** The pin test of a double push: does some en-passant capture stay legal? */
  method PushEp(v: View, us: Color, from: Square, epSq: Square, blockers: Bitboard) returns (set': bool)
    requires TypesSynced(v.board, v.byType) && ColorsSynced(v.board, v.byColor) && HasKing(v.board, Flip(us))
    ensures set' <==> PushEpTest(v.board, us, from, epSq, KingOf(v.board, Flip(us)), blockers,
                                 OfType(v.board, Pawn) * OfColor(v.board, Flip(us)))
  {
    var them := Flip(us);
    KingSquareExact(v.board, v, them);
    assert PiecesCP(v, them, Pawn) == OfType(v.board, Pawn) * OfColor(v.board, them);
    hide KingOf, HasKing, KingSquare, TypesSynced, ColorsSynced, OfType, OfColor, PiecesCP, SetOfPawnAttacks, OnLine;
    set' := false;
    var capturers := SetOfPawnAttacks(us, {epSq}) * PiecesCP(v, them, Pawn);
    if capturers != {} {
      var ksq := KingSquare(v, them);
      var notBlockers := ALL_SQUARES - blockers;
      assert from in ALL_SQUARES;
      var noDiscovery := {from} * notBlockers != {} || File(from) == File(ksq);
      assert {from} * notBlockers != {} <==> from !in blockers by {
        assert from in notBlockers ==> from in {from} * notBlockers;
      }
      if noDiscovery && capturers * (notBlockers + LineBB(epSq, ksq)) != {} {
        set' := true;
      }
    }
  }

  method PushRecord(z: Zobrist, v: View, us: Color, m: Move, blockers: Bitboard, ghost before: StateInfo,
                    st: StateInfo, key: Key,
                    ghost parent: StateInfo, ghost w: Key, ghost d: KeyVector)
    returns (st': StateInfo, key': Key)
    requires HasKing(v.board, Flip(us)) && TypesSynced(v.board, v.byType) && ColorsSynced(v.board, v.byColor)
    requires FlipsBit4(m.from, m.to) && m.kind == Normal && 0 <= m.to - Up(us) < 64
    requires Carried(parent, st, key, w, d) && |st.nonPawnMaterial| == 2 && st == before.(rule50 := 0) &&
             st.epSquare == None
    ensures st'.epSquare == PinnedEp(v.board, us, m, blockers)
    ensures Carried(parent, st', key', Xor(w, EpKey(z, st'.epSquare)), PawnKeys(z, us, m, d))
    ensures PawnRecorded(z, v.board, us, m, before, st')
  {
    XorNothing(w);
    hide Carried, Sum, Of, Xor, PushEpTest, HasKing, KingOf, OfType, OfColor, FlipsBit4, PiecesOf, TypesSynced,
         ColorsSynced;
    st', key' := st, key;
    var epSq: Square := m.to - Up(us);
    var set' := PushEp(v, us, m.from, epSq, blockers);
    if set' {
      st' := st'.(epSquare := Some(epSq));
      key' := Xor(key', z.enpassant(File(epSq)));
      CarriedSame(parent, st, st', key, w, d);
      ToggleWhole(parent, st', key, w, d, z.enpassant(File(epSq)));
    }
  }

  method PromotionRecord(z: Zobrist, v: View, pieceCount: seq<int>, us: Color, m: Move, ghost before: StateInfo,
                         st: StateInfo, key: Key,
                         ghost blockers: Bitboard, ghost parent: StateInfo, ghost w: Key, ghost d: KeyVector)
    returns (st': StateInfo, key': Key)
    requires HasKing(v.board, Flip(us)) && Synced(v.board, v.byType, v.byColor, pieceCount)
    requires m.kind == Promotion && !FlipsBit4(m.from, m.to)
    requires Carried(parent, st, key, w, d) && |st.nonPawnMaterial| == 2 && st == before.(rule50 := 0) &&
             st.epSquare == None
    ensures st'.epSquare == PinnedEp(v.board, us, m, blockers)
    ensures Carried(parent, st', key', Xor(w, EpKey(z, st'.epSquare)), PawnKeys(z, us, m, d))
    ensures PawnRecorded(z, v.board, us, m, before, st')
  {
    hide *;
    var pc, promoted := Piece(us, Pawn), Piece(us, m.promo);
    PlainMover(z, us, m, w, d);
    CountRead(v.board, v.byType, v.byColor, pieceCount, promoted);
    CountRead(v.board, v.byType, v.byColor, pieceCount, pc);
    PromotionIs(z, v.board, us, m, blockers, d);
    st', key' := PromoteRecord(z, st, key, pc, promoted, m.to, pieceCount[PieceIndex(promoted)],
                               pieceCount[PieceIndex(pc)],
                               parent, w, d);
    PromotedRecord(z, v.board, us, m, before, st');
  }

  lemma PromotionIs(z: Zobrist, b: Board, us: Color, m: Move, blockers: Bitboard, d: KeyVector)
    requires HasKing(b, Flip(us)) && m.kind == Promotion && !FlipsBit4(m.from, m.to)
    ensures PinnedEp(b, us, m, blockers) == None
    ensures PawnKeys(z, us, m, d) == Sum(Sum(d, Of(z, Piece(us, Pawn), m.to)), Of(z, Piece(us, m.promo), m.to))
  {
    hide Sum, Of, HasKing, KingOf, PushEpTest, FlipsBit4;
  }

  lemma PromotedRecord(z: Zobrist, b: Board, us: Color, m: Move, before: StateInfo, st: StateInfo)
    requires m.kind == Promotion && |before.nonPawnMaterial| == 2
    requires var i := ColorIndex(us);
             var promoted, pc := Piece(us, m.promo), Piece(us, Pawn);
             st == before.(rule50 := 0, pawnKey := st.pawnKey, minorPieceKey := st.minorPieceKey,
                           nonPawnKey := st.nonPawnKey,
                           materialKey := Xor(before.materialKey, Xor(z.psq(promoted, 8 + |PiecesOf(b, promoted)|),
                                                                      z.psq(pc, 8 + |PiecesOf(b, pc)| - 1))),
                           nonPawnMaterial := before.nonPawnMaterial[i := before.nonPawnMaterial[i] +
                               PieceValue(promoted.kind)])
    ensures PawnRecorded(z, b, us, m, before, st)
  {
    hide PiecesOf, Xor, PieceValue;
  }

  /** The pawn branch: the clock, the en-passant square of a double push, a promotion. */
  method PawnMoved(z: Zobrist, v: View, pieceCount: seq<int>, us: Color, m: Move, st: StateInfo, key: Key,
                   blockers: Bitboard,
                   ghost parent: StateInfo, ghost w: Key, ghost d: KeyVector)
    returns (st': StateInfo, key': Key)
    requires HasKing(v.board, Flip(us)) && Synced(v.board, v.byType, v.byColor, pieceCount)
    requires TypesSynced(v.board, v.byType) && ColorsSynced(v.board, v.byColor)
    requires Carried(parent, st, key, w, d) && |st.nonPawnMaterial| == 2 && st.epSquare == None
    requires FlipsBit4(m.from, m.to) ==> m.kind == Normal && 0 <= m.to - Up(us) < 64
    ensures st'.epSquare == PinnedEp(v.board, us, m, blockers)
    ensures Carried(parent, st', key', Xor(w, EpKey(z, st'.epSquare)), PawnKeys(z, us, m, d))
    ensures PawnRecorded(z, v.board, us, m, st, st')
  {
    PlainPawn(z, v.board, us, m, st, key, blockers, parent, w, d);
    hide *;
    st', key' := st.(rule50 := 0), key;
    if FlipsBit4(m.from, m.to) {
      st', key' := PushRecord(z, v, us, m, blockers, st, st', key', parent, w, d);
    } else if m.kind == Promotion {
      st', key' := PromotionRecord(z, v, pieceCount, us, m, st, st', key', blockers, parent, w, d);
    }
  }

  /** A pawn move that is neither a double push nor a promotion only restarts the clock. */
  lemma PlainPawn(z: Zobrist, b: Board, us: Color, m: Move, st: StateInfo, key: Key, blockers: Bitboard,
                  parent: StateInfo, w: Key,
                  d: KeyVector)
    requires HasKing(b, Flip(us)) && Carried(parent, st, key, w, d) && |st.nonPawnMaterial| == 2 && st.epSquare == None
    ensures Carried(parent, st.(rule50 := 0), key, w, d)
    ensures !FlipsBit4(m.from, m.to) && m.kind != Promotion ==>
              PinnedEp(b, us, m, blockers) == None && PawnKeys(z, us, m, d) == d && Xor(w, EpKey(z, None)) == w
              && PawnRecorded(z, b, us, m, st, st.(rule50 := 0))
  {
    XorNothing(w);
    CarriedSame(parent, st, st.(rule50 := 0), key, w, d);
    hide Carried, Xor, HasKing, KingOf, PiecesOf;
  }

  lemma CaptureLeaves(z: Zobrist, b: Board, us: Color, m: Move, st: StateInfo, st': StateInfo)
    requires m.kind != Castling && b[CaptureSquare(m)].Piece? && IsCapture(b, m) && |st.nonPawnMaterial| == 2
    requires CaptureRetired(z, b, b[CaptureSquare(m)], st, st')
    ensures LeftRecord(z, b, m, st, st')
  {
    hide PiecesOf, CaptureSquare;
  }

  /** The second half of the record: the mover's keys, the rights, the pawn branch. */
  method FinishRecord(z: Zobrist, v: View, pieceCount: seq<int>, mask: seq<set<Right>>, us: Color, m: Move, pc: Piece,
                      to: Square,
                      st1: StateInfo, key1: Key, dp1: DirtyPiece, ghost p: Pos, parent: StateInfo, ghost st0: StateInfo)
    returns (st: StateInfo, key: Key, dp: DirtyPiece)
    requires Recordable(z, p, m, parent, mask)
    requires us == p.side && pc == p.board[m.from] && pc.Piece? && (pc.kind == Pawn <==> pc == Piece(us, Pawn))
    requires v.board == Staged(p.board, us, m) && Synced(v.board, v.byType, v.byColor, pieceCount)
    requires st0 == parent.(rule50 := parent.rule50 + 1, pliesFromNull := parent.pliesFromNull + 1)
    requires LeftRecord(z, p.board, m, st0, st1) && to == LandSquare(us, m) && dp1 == DirtyLeft(p.board, us, m)
    requires |mask| == 64 && Carried(parent, st1, key1, z.side, LeaveKeys(z, p.board, us, m))
    ensures ChildRecord(z, p, m, parent, st, key) && dp == DirtyOf(p.board, us, m)
    ensures st.rule50 == 0 || st.rule50 == parent.rule50 + 1
    ensures st.pliesFromNull == parent.pliesFromNull + 1 && st.threats == parent.threats
  {
    hide *;
    RecordableHas(z, p, m, parent, mask);
    ColorIndexBound(Flip(us));
    var blockers := parent.blockers[ColorIndex(Flip(us))];
    ghost var d := LeaveKeys(z, p.board, us, m);
    ghost var w :=
      Xor(Xor(Xor(z.side, EpKey(z, st1.epSquare)), z.castling(st1.castlingRights)),
          z.castling(st1.castlingRights - (mask[m.from] + mask[to])));
    var st2, key2 := Carry(z, pc, m.from, to, mask, st1, key1, parent, z.side, d);
    d := Sum(Sum(d, Of(z, pc, m.from)), Of(z, pc, to));
    MaterialSizes(z, p.board, m, st0, st1);
    MoverIs(p, m);
    KeysTelescope(z, p.board, us, m);
    DirtyPromoted(p.board, us, m);
    st, key, dp := st2, key2, dp1;
    if pc.kind == Pawn {
      StagedPawn(z, p, m, parent);
      SyncedTables(v.board, v.byType, v.byColor, pieceCount);
      st, key := PawnMoved(z, v, pieceCount, us, m, st2, key2, blockers, parent, w, d);
      if m.kind == Promotion {
        dp := dp.(addPc := Piece(us, m.promo), addSq := Some(m.to), to := None);
      }
    } else {
      PlainMover(z, us, m, w, d);
    }
    ChildRecordHolds(z, p, m, mask, parent, st0, st1, st2, st, key);
  }

  lemma ColorIndexBound(c: Color)
    ensures 0 <= ColorIndex(c) < 2
  {
  }

  lemma MaterialSizes(z: Zobrist, b: Board, m: Move, st: StateInfo, st': StateInfo)
    requires LeftRecord(z, b, m, st, st')
    ensures |st'.nonPawnMaterial| == 2
  {
  }

  lemma SyncedTables(b: Board, byType: seq<Bitboard>, byColor: seq<Bitboard>, pieceCount: seq<int>)
    requires Synced(b, byType, byColor, pieceCount)
    ensures TypesSynced(b, byType) && ColorsSynced(b, byColor)
  {
  }

  lemma PlainMover(z: Zobrist, us: Color, m: Move, w: Key, d: KeyVector)
    ensures Xor(w, EpKey(z, None)) == w
    ensures m.kind != Promotion ==> PawnKeys(z, us, m, d) == d
  {
    XorNothing(w);
    hide Xor;
  }

  /** The captured piece, the key, the checkers and the caches go into the record. */
  method FillRecord(z: Zobrist, v: View, givesCheck: bool, captured: Piece, key: Key, ghost p: Pos, ghost m: Move,
                    ghost parent: StateInfo)
    returns (st: StateInfo)
    requires HasKing(p.board, White) && HasKing(p.board, Black) && Fresh(z, p, parent) && WellFormed(p) && Legal(p, m)
    requires givesCheck == ChecksAfter(p, m) && v.board == Next(p, m).board && v.side == Next(p, m).side
    requires TypesSynced(v.board, v.byType) && ColorsSynced(v.board, v.byColor) && |v.st.threats| == 7
    requires ChildRecord(z, p, m, parent, v.st, key)
    ensures HasKing(v.board, White) && HasKing(v.board, Black) && Fresh(z, Next(p, m), st)
    ensures st.rule50 == v.st.rule50 && st.pliesFromNull == v.st.pliesFromNull && st.capturedPiece == captured
  {
    hide *;
    NextShape(p, m);
    NextKings(p, m);
    LegalIs(p, m);
    WellFormedSides(Next(p, m));
    CheckersArrive(p, m, v);
    TablesAre(v);
    KingSquareExact(v.board, v, v.side);
    FlipTwice(p.side);
    var checkers := {};
    if givesCheck {
      checkers := AttackersTo(v, KingSquare(v, v.side), Pieces(v)) * PiecesC(v, Flip(v.side));
    }
    var st1 := v.st.(capturedPiece := captured, key := key, checkers := checkers);
    st := SetExtraBitboards(v.(st := st1));
    RecordKept(z, p, m, parent, v.st, st, key);
    ChildFresh(z, p, m, parent, st);
    AssembleFresh(z, Next(p, m), st);
  }

  /** The walk up the chain for the nearest earlier occurrence. */
  method LinkRecord(states: seq<StateInfo>, st: StateInfo) returns (st': StateInfo)
    requires |states| > 0 && ChainCounters(states)
    requires st.rule50 == 0 || st.rule50 == states[|states| - 1].rule50 + 1
    requires st.pliesFromNull == states[|states| - 1].pliesFromNull + 1
    ensures st' == st.(repetition := st'.repetition)
    ensures ChainCounters(states + [st']) && RepetitionFresh(states + [st'], |states|)
  {
    hide *;
    CountersPush(states, st);
    var rep := RepetitionWalk(states + [st]);
    st' := st.(repetition := rep);
    RepetitionPushed(states, st, st');
  }

  /** The last part of a make: the captured piece, the key and the checkers go into the record,
      the caches are filled and the repetition distance is looked up. */
  method CloseRecord(z: Zobrist, v: View, states: seq<StateInfo>, givesCheck: bool, captured: Piece, key: Key,
                     ghost p: Pos, ghost m: Move, ghost mask: seq<set<Right>>)
    returns (st: StateInfo)
    requires |states| > 0 && |v.st.threats| == 7 && ChainCounters(states)
    requires v.st.rule50 == 0 || v.st.rule50 == states[|states| - 1].rule50 + 1
    requires v.st.pliesFromNull == states[|states| - 1].pliesFromNull + 1
    requires WellFormed(p) && Legal(p, m) && givesCheck == ChecksAfter(p, m) && v.board == Next(p, m).board &&
             v.side == Next(p, m).side
    requires HasKing(p.board, White) && HasKing(p.board, Black) && Fresh(z, p, states[|states| - 1])
    requires TypesSynced(v.board, v.byType) && ColorsSynced(v.board, v.byColor)
    requires PathsFresh(p, v.castlingRookSquare, v.castlingPath) && MaskFresh(p, mask)
    requires ChildRecord(z, p, m, states[|states| - 1], v.st, key)
    ensures NodeFresh(z, Next(p, m), st, v.castlingRookSquare, v.castlingPath, mask) && CountersFresh(Next(p, m), st)
    ensures ChainCounters(states + [st]) && RepetitionFresh(states + [st], |states|) && st.capturedPiece == captured
  {
    hide *;
    var filled := FillRecord(z, v, givesCheck, captured, key, p, m, states[|states| - 1]);
    st := LinkRecord(states, filled);
    FreshRepeated(z, Next(p, m), filled, st.repetition);
    NodeKept(z, p, m, st, v.castlingRookSquare, v.castlingPath, mask);
    CountersAre(z, Next(p, m), st);
  }

  /** The record of a null move. */
  method NullChild(z: Zobrist, v: View, ghost p: Pos, ghost mask: seq<set<Right>>) returns (st: StateInfo)
    requires WellFormed(p) && HasKing(p.board, p.side) && !InCheck(p.board, p.side)
    requires HasKing(p.board, White) && HasKing(p.board, Black) && Fresh(z, p, v.st) && v.board == p.board &&
             v.side == p.side
    requires TypesSynced(v.board, v.byType) && ColorsSynced(v.board, v.byColor) && |v.st.threats| == 7
    requires PathsFresh(p, v.castlingRookSquare, v.castlingPath) && MaskFresh(p, mask)
    ensures NodeFresh(z, NextNull(p), st, v.castlingRookSquare, v.castlingPath, mask) && CountersFresh(NextNull(p), st)
    ensures st.pliesFromNull == 0 && st.repetition == 0 && st.rule50 == v.st.rule50 && st.capturedPiece == NoPiece
  {
    hide *;
    FreshParts(z, p, v.st);
    NullCheckers(p, v.st);
    NullSides(p);
    FlipTwice(p.side);
    NullKeyOf(z, v.st);
    var key := Xor(v.st.key, z.side);
    if v.st.epSquare.Some? {
      key := Xor(key, z.enpassant(File(v.st.epSquare.value)));
    }
    var st1 := v.st.(key := key, epSquare := None, pliesFromNull := 0, capturedPiece := NoPiece);
    var st2 := SetExtraBitboards(v.(st := st1, side := Flip(v.side)));
    st := st2.(repetition := 0);
    CachesRepeated(v.board, Flip(v.side), st2, 0);
    NullRecordOf(z, v.st, st);
    NullKeys(z, p, v.st, st);
    AssembleFresh(z, NextNull(p), st);
    NullNode(z, p, st, v.castlingRookSquare, v.castlingPath, mask);
  }

  lemma EmptyTables(b: Board, byType: seq<Bitboard>, byColor: seq<Bitboard>, pieceCount: seq<int>)
    requires b == NoBoard() && byType == seq(7, _ => {}) && byColor == seq(2, _ => {}) && pieceCount == seq(16, _ => 0)
    ensures Synced(b, byType, byColor, pieceCount)
  {
    forall pc: Piece | pc.Piece?
      ensures |PiecesOf(b, pc)| == 0
    {
      assert PiecesOf(b, pc) == {};
    }
    assert forall kind: PieceType :: OfType(b, kind) == {};
    assert forall c: Color :: OfColor(b, c) == {};
    assert Occupied(b) == {};
  }

  class Position {
    const z: Zobrist
    var board: Board
    var byType: seq<Bitboard>
    var byColor: seq<Bitboard>
    var pieceCount: seq<int>
    var sideToMove: Color
    var gamePly: nat
    var castlingRookSquare: map<Right, Square>
    var castlingPath: map<Right, Bitboard>
    var castlingRightsMask: seq<set<Right>>
    var states: seq<StateInfo>

    /** The position each record on the stack describes, and the move between each two of them;
        None for a null move. */
    ghost var trail: seq<Pos>
    ghost var words: seq<Option<Move>>

    /** A position with nothing set: what the parser clears before it reads. */
    constructor Empty(z: Zobrist)
      ensures this.z == z && Boards() && board == NoBoard() && states == [] && trail == [] && words == []
      ensures sideToMove == White && gamePly == 0
      ensures castlingRookSquare == map[] && castlingPath == map[] && castlingRightsMask == seq(64, _ => {})
    {
      this.z := z;
      board := NoBoard();
      byType := seq(7, _ => {});
      byColor := seq(2, _ => {});
      pieceCount := seq(16, _ => 0);
      sideToMove, gamePly := White, 0;
      castlingRookSquare, castlingPath, castlingRightsMask := map[], map[], seq(64, _ => {});
      states, trail, words := [], [], [];
      new;
      EmptyTables(board, byType, byColor, pieceCount);
    }

    /** The position the fields describe. */
    function Abs(): Pos
      requires |states| > 0
      reads this
    {
      var st := states[|states| - 1];
      Pos(board, sideToMove, st.castlingRights, castlingRookSquare, st.epSquare, st.rule50, st.pliesFromNull, gamePly)
    }

    /** What the read-only queries are given. */
    function Snap(): View
      requires |states| > 0
      reads this
    {
      View(board, byType, byColor, sideToMove, castlingRookSquare, castlingPath, states[|states| - 1])
    }

    /** Every table agrees with the board, every record of the stack is fresh for its own
        position, and each position follows from the one before it. */
    ghost predicate Valid()
      reads this
    {
      && |trail| == |states| == |words| + 1 && Boards()
      && Chain(z, trail, words, states, castlingRookSquare, castlingPath, castlingRightsMask)
      && trail[|trail| - 1] == Abs()
    }

    ghost predicate Boards()
      reads this`board, this`byType, this`byColor, this`pieceCount
    {
      Synced(board, byType, byColor, pieceCount)
    }

    method PutPiece(pc: Piece, s: Square, dts: DirtyThreats?)
      requires Boards() && board[s] == NoPiece && pc.Piece?
      modifies this`board, this`byType, this`byColor, this`pieceCount, dts
      ensures dts != null ==> dts.us == old(dts.us) && dts.prevKsq == old(dts.prevKsq)
      ensures Boards() && board == old(board)[s := pc]
      ensures dts != null ==>
              NetStep(old(dts.list), dts.list, old(board), board) &&
              |dts.list| <= |old(dts.list)| + ScanBound(pc.kind, true)
    {
      TypesToggled(board, byType, pc, s, true);
      ColorsToggled(board, byColor, pc, s, true);
      CountsToggled(board, pieceCount, pc, s, true);
      hide TypesSynced, ColorsSynced, CountsSynced;
      board := board[s := pc];
      byType := byType[0 := byType[0] + {s}][TypeIndex(pc.kind) := byType[TypeIndex(pc.kind)] + {s}];
      byColor := byColor[ColorIndex(pc.color) := byColor[ColorIndex(pc.color)] + {s}];
      pieceCount := pieceCount[PieceIndex(pc) := pieceCount[PieceIndex(pc)] + 1];
      if dts != null {
        var dual := BothAttacksBB(s, byType[0]);
        dts.list := UpdatePiece(true, board, byType, byColor, pieceCount, pc, true, s, dts.list, ALL_SQUARES, dual);
        forall w: DirtyThreat
          ensures Net(dts.list, w) == Net(old(dts.list), w) + Change(old(board), board, w)
        {
          NetPut(old(dts.list), dts.list, old(board), pc, s, w);
        }
      }
    }

    method RemovePiece(s: Square, dts: DirtyThreats?)
      requires Boards() && board[s].Piece?
      modifies this`board, this`byType, this`byColor, this`pieceCount, dts
      ensures dts != null ==> dts.us == old(dts.us) && dts.prevKsq == old(dts.prevKsq)
      ensures Boards() && board == old(board)[s := NoPiece]
      ensures dts != null ==> NetStep(old(dts.list), dts.list, old(board), board)
                              && |dts.list| <= |old(dts.list)| + ScanBound(old(board)[s].kind, true)
    {
      var pc := board[s];
      if dts != null {
        var dual := BothAttacksBB(s, byType[0]);
        dts.list := UpdatePiece(true, board, byType, byColor, pieceCount, pc, false, s, dts.list, ALL_SQUARES, dual);
        forall w: DirtyThreat
          ensures Net(dts.list, w) == Net(old(dts.list), w) + Change(old(board), board[s := NoPiece], w)
        {
          NetRemove(old(dts.list), dts.list, old(board), s, w);
        }
      }
      TypesToggled(board, byType, pc, s, false);
      ColorsToggled(board, byColor, pc, s, false);
      CountsToggled(board, pieceCount, pc, s, false);
      hide TypesSynced, ColorsSynced, CountsSynced;
      byType := byType[0 := Xor(byType[0], {s})][TypeIndex(pc.kind) := Xor(byType[TypeIndex(pc.kind)], {s})];
      byColor := byColor[ColorIndex(pc.color) := Xor(byColor[ColorIndex(pc.color)], {s})];
      board := board[s := NoPiece];
      pieceCount := pieceCount[PieceIndex(pc) := pieceCount[PieceIndex(pc)] - 1];
    }

    /** The mover's own squares are masked out of both scans. */
    method MovePiece(from: Square, to: Square, dts: DirtyThreats?)
      requires Boards() && board[from].Piece? && board[to] == NoPiece && from != to
      requires dts != null ==> Clear(from, to, Occupied(board))
      modifies this`board, this`byType, this`byColor, dts
      ensures dts != null ==> dts.us == old(dts.us) && dts.prevKsq == old(dts.prevKsq)
      ensures Boards() && board == old(board)[from := NoPiece][to := old(board)[from]]
      ensures dts != null ==> NetStep(old(dts.list), dts.list, old(board), board)
                              && |dts.list| <= |old(dts.list)| + 2 * ScanBound(old(board)[from].kind, true)
    {
      var pc := board[from];
      var fromto: Bitboard := {from, to};
      ghost var mid: seq<DirtyThreat> := [];
      if dts != null {
        var dual := BothAttacksBB(from, byType[0]);
        dts.list := UpdatePiece(true, board, byType, byColor, pieceCount, pc, false, from, dts.list, fromto, dual);
        mid := dts.list;
      }
      MovedTables(board, byType, byColor, pieceCount, from, to);
      hide TypesSynced, ColorsSynced, CountsSynced;
      byType := byType[0 := Xor(byType[0], fromto)][TypeIndex(pc.kind) := Xor(byType[TypeIndex(pc.kind)], fromto)];
      byColor := byColor[ColorIndex(pc.color) := Xor(byColor[ColorIndex(pc.color)], fromto)];
      board := board[from := NoPiece];
      board := board[to := pc];
      if dts != null {
        var dual := BothAttacksBB(to, byType[0]);
        assert byType[0] == Occupied(board) by { SyncedOccupied(board, byType, byColor, pieceCount); }
        dts.list := UpdatePiece(true, board, byType, byColor, pieceCount, pc, true, to, dts.list, fromto, dual);
        forall w: DirtyThreat
          ensures Net(dts.list, w) == Net(old(dts.list), w) + Change(old(board), board, w)
        {
          NetMove(old(dts.list), mid, dts.list, old(board), from, to, w);
        }
      }
    }

    /** Replace the piece on s: both scans read the board after the swap. */
    method SwapPiece(s: Square, pc: Piece, dts: DirtyThreats?)
      requires Boards() && board[s].Piece? && pc.Piece?
      modifies this`board, this`byType, this`byColor, this`pieceCount, dts
      ensures dts != null ==> dts.us == old(dts.us) && dts.prevKsq == old(dts.prevKsq)
      ensures Boards() && board == old(board)[s := pc]
      ensures dts != null ==> NetStep(old(dts.list), dts.list, old(board), board)
                              && |dts.list| <= |old(dts.list)| + ScanBound(old(board)[s].kind, false) +
                                 ScanBound(pc.kind, false)
    {
      var was := board[s];
      RemovePiece(s, null);
      PutPiece(pc, s, null);
      assert board == old(board)[s := pc];
      if dts != null {
        assert byType[0] == Occupied(board) by { SyncedOccupied(board, byType, byColor, pieceCount); }
        var dual := BothAttacksBB(s, byType[0]);
        dts.list := UpdatePiece(false, board, byType, byColor, pieceCount, was, false, s, dts.list, ALL_SQUARES, dual);
        ghost var mid := dts.list;
        dts.list := UpdatePiece(false, board, byType, byColor, pieceCount, pc, true, s, dts.list, ALL_SQUARES, dual);
        forall w: DirtyThreat
          ensures Net(dts.list, w) == Net(old(dts.list), w) + Change(old(board), board, w)
        {
          NetSwap(old(dts.list), mid, dts.list, old(board), pc, s, w);
        }
      }
    }

    // ----- make -----

    /** do_castling: the rook leaves first, and both leave before either lands. */
    method DoCastling(us: Color, from: Square, to: Square, undo: bool, dts: DirtyThreats?)
      returns (kto: Square, rfrom: Square, rto: Square)
      requires Boards() && Rank(from) == BackRank(us)
      requires var r := CastlingRight(us, Move(Castling, from, to, Knight));
               if undo then CastlingLifts(board, us, KingTarget(r), from, RookTarget(r), to)
               else CastlingLifts(board, us, from, KingTarget(r), to, RookTarget(r))
      modifies this`board, this`byType, this`byColor, this`pieceCount, dts
      ensures dts != null ==> dts.us == old(dts.us) && dts.prevKsq == old(dts.prevKsq)
      ensures Boards()
      ensures var r := CastlingRight(us, Move(Castling, from, to, Knight));
              && kto == KingTarget(r) && rfrom == to && rto == RookTarget(r)
              && board == if undo then Castled(old(board), us, kto, from, rto, rfrom)
                else Castled(old(board), us, from, kto, rfrom, rto)
      ensures dts != null ==> NetStep(old(dts.list), dts.list, old(board), board) && |dts.list| <= |old(dts.list)| + 80
    {
      ghost var r := CastlingRight(us, Move(Castling, from, to, Knight));
      var kingSide := to > from;
      rfrom := to;
      rto := MakeSquare(if kingSide then 5 else 3, Rank(from));
      kto := MakeSquare(if kingSide then 6 else 2, Rank(from));
      CastlingSides(us, from, to);
      hide *;
      if undo {
        LiftBoth(us, kto, from, rto, rfrom, dts);
      } else {
        LiftBoth(us, from, kto, rfrom, rto, dts);
      }
    }

    method LiftBoth(us: Color, kOut: Square, kIn: Square, rOut: Square, rIn: Square, dts: DirtyThreats?)
      requires Boards() && CastlingLifts(board, us, kOut, kIn, rOut, rIn)
      modifies this`board, this`byType, this`byColor, this`pieceCount, dts
      ensures dts != null ==> dts.us == old(dts.us) && dts.prevKsq == old(dts.prevKsq)
      ensures Boards() && board == Castled(old(board), us, kOut, kIn, rOut, rIn)
      ensures dts != null ==> NetStep(old(dts.list), dts.list, old(board), board) && |dts.list| <= |old(dts.list)| + 80
    {
      hide Boards, NetStep;
      ghost var b0 := board;
      ghost var l0 := if dts != null then dts.list else [];
      RemovePiece(rOut, dts);
      ghost var b1 := board;
      ghost var l1 := if dts != null then dts.list else [];
      RemovePiece(kOut, dts);
      ghost var b2 := board;
      ghost var l2 := if dts != null then dts.list else [];
      PutPiece(Piece(us, King), kIn, dts);
      ghost var b3 := board;
      ghost var l3 := if dts != null then dts.list else [];
      PutPiece(Piece(us, Rook), rIn, dts);
      if dts != null {
        NetJoin(l0, l1, l2, b0, b1, b2);
        NetJoin(l0, l2, l3, b0, b2, b3);
        NetJoin(l0, l3, dts.list, b0, b3, board);
      }
    }

    /** The captured piece leaves the keys, the material and, en passant, the board. */
    method RetireCapture(m: Move, captured: Piece, st: StateInfo, key: Key, dts: DirtyThreats,
                         ghost parent: StateInfo, ghost w: Key, ghost d: KeyVector)
      returns (st': StateInfo, key': Key, capSq: Square)
      requires Boards() && m.kind != Castling && captured.Piece? && board[CaptureSquare(m)] == captured
      requires m.kind == EnPassant ==> captured.kind == Pawn && CaptureSquare(m) == m.to - Up(sideToMove)
      requires Carried(parent, st, key, w, d) && |st.nonPawnMaterial| == 2
      modifies this`board, this`byType, this`byColor, this`pieceCount, dts
      ensures dts.us == old(dts.us) && dts.prevKsq == old(dts.prevKsq)
      ensures capSq == CaptureSquare(m)
      ensures Boards() && board == if m.kind == EnPassant then old(board)[capSq := NoPiece] else old(board)
      ensures NetStep(old(dts.list), dts.list, old(board), board) &&
              |dts.list| <= |old(dts.list)| + if m.kind == EnPassant then 26 else 0
      ensures Carried(parent, st', key', w, Sum(d, Of(z, captured, capSq)))
      ensures CaptureRetired(z, old(board), captured, st, st')
    {
      capSq := m.to;
      ghost var b := board;
      assert m.kind != EnPassant ==> CaptureSquare(m) == m.to;
      CountRead(b, byType, byColor, pieceCount, captured);
      NetNone(dts.list, b);
      hide Synced, NetStep, Carried, Sum, Of, PiecesOf, PieceIndex, Xor, CaptureSquare, Held, CaptureRetired;
      if captured.kind == Pawn && m.kind == EnPassant {
        capSq := m.to - Up(sideToMove);
        RemovePiece(capSq, dts);
        CountRead(board, byType, byColor, pieceCount, captured);
        MaterialLift(z, b, capSq);
      }
      st', key' := RetireRecord(z, st, key, captured, capSq, pieceCount[PieceIndex(captured)] - if m.kind != EnPassant
          then 1 else 0,
                                b, parent, w, d);
    }

    /** The boards, mutated last: a capture replaces the victim in place, a promoting pawn goes
        straight to the promoted piece. */
    method Land(m: Move, us: Color, captured: Piece, dts: DirtyThreats)
      requires Boards() && m.kind != Castling && m.from != m.to && IsColor(board, us, m.from)
      requires board[m.to] == if m.kind == EnPassant then NoPiece else captured
      requires m.kind == Promotion || m.kind == EnPassant ==> board[m.from].kind == Pawn
      requires m.kind == EnPassant ==> captured != NoPiece
      requires m.kind != Promotion && board[m.to] == NoPiece ==> Clear(m.from, m.to, Occupied(board))
      modifies this`board, this`byType, this`byColor, this`pieceCount, dts
      ensures dts.us == old(dts.us) && dts.prevKsq == old(dts.prevKsq)
      ensures Boards() && board == old(board)[m.from := NoPiece][m.to := Arrives(old(board), us, m)]
      ensures NetStep(old(dts.list), dts.list, old(board), board) &&
              |dts.list| <= |old(dts.list)| + if m.kind == EnPassant then 52 else 80
    {
      var pc := board[m.from];
      var toPc := if m.kind == Promotion then Piece(us, m.promo) else pc;
      ghost var b, l := board, dts.list;
      hide Boards, NetStep, Clear, Occupied;
      if captured != NoPiece && m.kind != EnPassant {
        RemovePiece(m.from, dts);
        ghost var b1, l1 := board, dts.list;
        SwapPiece(m.to, toPc, dts);
        NetJoin(l, l1, dts.list, b, b1, board);
      } else if pc == toPc {
        MovePiece(m.from, m.to, dts);
      } else {
        RemovePiece(m.from, dts);
        ghost var b1, l1 := board, dts.list;
        PutPiece(toPc, m.to, dts);
        NetJoin(l, l1, dts.list, b, b1, board);
      }
    }

    /** The first half of a make, castling: king and rook change places, the rook's keys move. */
    method LeaveCastling(m: Move, us: Color, st: StateInfo, key: Key, dts: DirtyThreats, ghost parent: StateInfo)
      returns (st': StateInfo, key': Key, to: Square, dp: DirtyPiece)
      requires Boards() && MoveScene(board, us, m) && m.kind == Castling
      requires Carried(parent, st, key, z.side, ZERO) && |st.nonPawnMaterial| == 2
      modifies this`board, this`byType, this`byColor, this`pieceCount, dts
      ensures dts.us == old(dts.us) && dts.prevKsq == old(dts.prevKsq)
      ensures Boards() && board == Staged(old(board), us, m)
      ensures NetStep(old(dts.list), dts.list, old(board), board) && |dts.list| <= |old(dts.list)| + 80
      ensures Carried(parent, st', key', z.side, LeaveKeys(z, old(board), us, m)) &&
              LeftRecord(z, old(board), m, st, st')
      ensures to == LandSquare(us, m) && dp == DirtyLeft(old(board), us, m)
    {
      ghost var b := board;
      CastlingShape(z, b, us, m);
      hide *;
      var rook := Piece(us, Rook);
      var rfrom, rto;
      dp := DirtyPiece(board[m.from], Some(m.from), Some(m.to), None, NoPiece, None, NoPiece);
      to, rfrom, rto := DoCastling(us, m.from, m.to, false, dts);
      dp := dp.(to := Some(to), removePc := rook, addPc := rook, removeSq := Some(rfrom), addSq := Some(rto));
      st', key' := Toggle(z, st, key, rook, rfrom, parent, z.side, ZERO);
      st', key' := Toggle(z, st', key', rook, rto, parent, z.side, Sum(ZERO, Of(z, rook, rfrom)));
      KeysTwice(st, st');
      CastlingLeaves(z, b, us, m, st, st');
    }

    /** The first half of a make: castling is played out, or a victim leaves. */
    method Leave(m: Move, us: Color, st: StateInfo, key: Key, dts: DirtyThreats, ghost parent: StateInfo)
      returns (st': StateInfo, key': Key, to: Square, captured: Piece, dp: DirtyPiece)
      requires Boards() && MoveScene(board, us, m) && sideToMove == us
      requires Carried(parent, st, key, z.side, ZERO) && |st.nonPawnMaterial| == 2
      modifies this`board, this`byType, this`byColor, this`pieceCount, dts
      ensures dts.us == old(dts.us) && dts.prevKsq == old(dts.prevKsq)
      ensures Boards() && board == Staged(old(board), us, m)
      ensures NetStep(old(dts.list), dts.list, old(board), board)
      ensures |dts.list| <= |old(dts.list)| + if m.kind == Castling then 80 else if m.kind == EnPassant then 26 else 0
      ensures Carried(parent, st', key', z.side, LeaveKeys(z, old(board), us, m)) &&
              LeftRecord(z, old(board), m, st, st')
      ensures to == LandSquare(us, m) && dp == DirtyLeft(old(board), us, m)
      ensures captured == if m.kind == Castling then NoPiece else old(board)[CaptureSquare(m)]
    {
      ghost var b := board;
      to := m.to;
      captured := if m.kind == EnPassant then Piece(Flip(us), Pawn) else board[m.to];
      dp := DirtyPiece(board[m.from], Some(m.from), Some(m.to), None, NoPiece, None, NoPiece);
      if m.kind == Castling {
        captured := NoPiece;
        hide *;
        st', key', to, dp := LeaveCastling(m, us, st, key, dts, parent);
      } else if captured != NoPiece {
        hide Synced, NetStep, Carried, Sum, Of, File, Rank, LeftRecord;
        var capSq;
        st', key', capSq := RetireCapture(m, captured, st, key, dts, parent, z.side, ZERO);
        ZeroSum(Of(z, captured, capSq));
        dp := dp.(removePc := captured, removeSq := Some(capSq));
        CaptureLeaves(z, b, us, m, st, st');
      } else {
        st', key' := st, key;
        QuietLeaves(z, b, us, m, st);
        NetNone(dts.list, b);
      }
    }

    lemma Top()
      requires Valid()
      ensures |trail| == |states| == |words| + 1 && Boards()
      ensures Chain(z, trail, words, states, castlingRookSquare, castlingPath, castlingRightsMask)
      ensures trail[|trail| - 1] == Abs()
      ensures Abs().board == board && Abs().side == sideToMove && Abs().rooks == castlingRookSquare &&
              Abs().gamePly == gamePly
    {
      hide Chain, Boards;
    }

    lemma Rebuilt(p: Pos)
      requires |trail| == |states| == |words| + 1 && Boards() && trail[|trail| - 1] == p
      requires Chain(z, trail, words, states, castlingRookSquare, castlingPath, castlingRightsMask)
      requires CountersFresh(p, states[|states| - 1])
      requires p.board == board && p.side == sideToMove && p.rooks == castlingRookSquare && p.gamePly == gamePly
      ensures Valid() && Abs() == p
    {
      hide Chain, Boards;
    }

    lemma BoardsAre()
      requires Boards()
      ensures Synced(board, byType, byColor, pieceCount) && TypesSynced(board, byType) && ColorsSynced(board, byColor)
    {
    }

    lemma SnapIs()
      requires |states| > 0
      ensures Snap() == View(board, byType, byColor, sideToMove, castlingRookSquare, castlingPath, states[|states| - 1])
      ensures Boards() ==> Synced(board, byType, byColor, pieceCount)
    {
    }

    method OwnKing(c: Color) returns (k: Square)
      requires Boards() && HasKing(board, c) && |states| > 0
      ensures IsKing(board, c, k)
    {
      KingSquareExact(board, Snap(), c);
      k := KingSquare(Snap(), c);
    }

    /** Everything a make reads off a valid position. */
    lemma Opening(m: Move)
      requires Valid() && Legal(Abs(), m)
      ensures PseudoLegal(Abs(), m)
      ensures |trail| == |states| == |words| + 1 && Boards() && trail[|trail| - 1] == Abs()
      ensures Chain(z, trail, words, states, castlingRookSquare, castlingPath, castlingRightsMask)
      ensures Abs().board == board && Abs().side == sideToMove && Abs().rooks == castlingRookSquare &&
              Abs().gamePly == gamePly
      ensures WellFormed(Abs()) && HasKing(board, White) && HasKing(board, Black)
      ensures MoveScene(board, sideToMove, m) && board[m.from].Piece? &&
              (board[m.from].kind == Pawn <==> board[m.from] == Piece(sideToMove, Pawn))
      ensures var parent := states[|states| - 1];
              && Recordable(z, Abs(), m, parent, castlingRightsMask) && |castlingRightsMask| == 64
              && |parent.threats| == 7 && |parent.nonPawnKey| == 2 && |parent.nonPawnMaterial| == 2
              && Carried(parent, parent.(rule50 := parent.rule50 + 1, pliesFromNull := parent.pliesFromNull + 1),
                         Xor(parent.key, z.side), z.side, ZERO)
      ensures Captured(Abs(), m) == if m.kind == Castling then NoPiece else board[CaptureSquare(m)]
    {
      hide *;
      Top();
      var p, parent := Abs(), states[|states| - 1];
      LegalIs(p, m);
      ChainTop(z, trail, words, states, castlingRookSquare, castlingPath, castlingRightsMask);
      MakeScene(z, p, m, parent, castlingRookSquare, castlingPath, castlingRightsMask);
      RecordableHas(z, p, m, parent, castlingRightsMask);
      ThreatsHave(z, p, parent, castlingRookSquare, castlingPath, castlingRightsMask);
      CarriedStart(z, parent, parent.(rule50 := parent.rule50 + 1, pliesFromNull := parent.pliesFromNull + 1));
      CapturedIs(p, m);
    }

    /** pos_do_move. */
    method DoMove(m: Move, givesCheck: bool, dts: DirtyThreats) returns (dp: DirtyPiece)
      requires Valid() && Legal(Abs(), m) && givesCheck == ChecksAfter(Abs(), m)
      modifies this`board, this`byType, this`byColor, this`pieceCount, this`sideToMove, this`gamePly, this`states,
               this`trail, this`words, dts
      ensures Valid() && Abs() == Next(old(Abs()), m)
      ensures trail == old(trail) + [Abs()] && words == old(words) + [Some(m)]
      ensures |states| == |old(states)| + 1 && states[..|old(states)|] == old(states)
      ensures NetStep([], dts.list, old(board), board) && |dts.list| <= 80
      ensures dts.us == old(sideToMove) && IsKing(old(board), dts.us, dts.prevKsq) && IsKing(board, dts.us, dts.ksq)
      ensures DirtyHolds(old(board), dp, board)
      ensures PieceDelta.Balances(old(board), dp, board) && dp.pc == old(board)[m.from] && dp.from == Some(m.from)
      ensures dp.to.None? <==> m.kind == Promotion
    {
      hide *;
      Opening(m);
      ghost var p := Abs();
      var parent := states[|states| - 1];
      var us, them, pc := sideToMove, Flip(sideToMove), board[m.from];
      gamePly := gamePly + 1;
      dts.list := [];
      dts.us := us;
      dts.prevKsq := OwnKing(us);
      var st0 := parent.(rule50 := parent.rule50 + 1, pliesFromNull := parent.pliesFromNull + 1);
      var st, key, captured;
      st, key, captured, dp := MoveBoards(m, us, pc, st0, dts, p, parent);
      DirtyFollows(p, m);
      PieceDelta.DirtyBalances(p, m);
      sideToMove := them;
      PushChild(m, givesCheck, captured, st, key, p);
      dts.ksq := OwnKing(us);
    }

    /** The boards and the record of the child, up to the caches. */
    method MoveBoards(m: Move, us: Color, pc: Piece, st0: StateInfo, dts: DirtyThreats, ghost p: Pos, parent: StateInfo)
      returns (st: StateInfo, key: Key, captured: Piece, dp: DirtyPiece)
      requires Boards() && |states| > 0 && p.board == board && p.side == sideToMove == us && PseudoLegal(p, m) &&
               MoveScene(board, us, m)
      requires pc == board[m.from] && pc.Piece? && (pc.kind == Pawn <==> pc == Piece(us, Pawn))
      requires Recordable(z, p, m, parent, castlingRightsMask) && |castlingRightsMask| == 64 &&
               |parent.nonPawnMaterial| == 2
      requires st0 == parent.(rule50 := parent.rule50 + 1, pliesFromNull := parent.pliesFromNull + 1)
      requires Carried(parent, st0, Xor(parent.key, z.side), z.side, ZERO) && dts.list == []
      modifies this`board, this`byType, this`byColor, this`pieceCount, dts
      ensures dts.us == old(dts.us) && dts.prevKsq == old(dts.prevKsq)
      ensures Boards() && board == After(p.board, us, m)
      ensures ChildRecord(z, p, m, parent, st, key) && dp == DirtyOf(p.board, us, m)
      ensures st.rule50 == 0 || st.rule50 == parent.rule50 + 1
      ensures st.pliesFromNull == parent.pliesFromNull + 1 && st.threats == parent.threats
      ensures captured == if m.kind == Castling then NoPiece else p.board[CaptureSquare(m)]
      ensures NetStep([], dts.list, p.board, board) && |dts.list| <= 80
    {
      hide *;
      var st1, key1, to;
      st1, key1, to, captured, dp := Leave(m, us, st0, Xor(parent.key, z.side), dts, parent);
      ghost var b1, l1 := board, dts.list;
      SnapIs();
      st, key, dp := FinishRecord(z, Snap(), pieceCount, castlingRightsMask, us, m, pc, to, st1, key1, dp, p, parent,
                                  st0);
      LandScene(p.board, us, m);
      if m.kind != Castling {
        Land(m, us, captured, dts);
        NetJoin([], l1, dts.list, p.board, b1, board);
      }
    }

    /** The child's record is completed and goes on the stack. */
    method PushChild(m: Move, givesCheck: bool, captured: Piece, st: StateInfo, key: Key, ghost p: Pos)
      requires |trail| == |states| == |words| + 1 && trail[|trail| - 1] == p && Boards()
      requires Chain(z, trail, words, states, castlingRookSquare, castlingPath, castlingRightsMask)
      requires Legal(p, m) && givesCheck == ChecksAfter(p, m) && captured == Captured(p, m)
      requires board == After(p.board, p.side, m) && sideToMove == Flip(p.side) && gamePly == p.gamePly + 1 &&
               castlingRookSquare == p.rooks
      requires ChildRecord(z, p, m, states[|states| - 1], st, key) && |st.threats| == 7
      requires st.rule50 == 0 || st.rule50 == states[|states| - 1].rule50 + 1
      requires st.pliesFromNull == states[|states| - 1].pliesFromNull + 1
      modifies this`states, this`trail, this`words
      ensures Valid() && Abs() == Next(p, m)
      ensures trail == old(trail) + [Abs()] && words == old(words) + [Some(m)]
      ensures |states| == |old(states)| + 1 && states[..|old(states)|] == old(states)
      ensures HasKing(board, White) && HasKing(board, Black) && Boards()
    {
      hide *;
      var parent := states[|states| - 1];
      ChainTop(z, trail, words, states, castlingRookSquare, castlingPath, castlingRightsMask);
      NodeWellFormedFresh(z, p, parent, castlingRookSquare, castlingPath, castlingRightsMask);
      NextShape(p, m);
      NextKings(p, m);
      BoardsAre();
      var v := View(board, byType, byColor, sideToMove, castlingRookSquare, castlingPath, st);
      var rec := CloseRecord(z, v, states, givesCheck, captured, key, p, m, castlingRightsMask);
      LinkedBy(p, m, rec);
      ChainPush(z, trail, words, states, castlingRookSquare, castlingPath, castlingRightsMask, Some(m), Next(p, m),
                rec);
      states := states + [rec];
      trail := trail + [Next(p, m)];
      words := words + [Some(m)];
      Rebuilt(Next(p, m));
    }

    // ----- take back -----

    /** pos_undo_move: the position before m, exactly. */
    method UndoMove(m: Move)
      requires Valid() && |words| > 0 && words[|words| - 1] == Some(m)
      modifies this`board, this`byType, this`byColor, this`pieceCount, this`sideToMove, this`gamePly, this`states,
               this`trail, this`words
      ensures Valid() && Abs() == old(trail)[|old(trail)| - 2]
      ensures trail == old(trail)[..|old(trail)| - 1] && words == old(words)[..|old(words)| - 1] &&
              states == old(states)[..|old(states)| - 1]
    {
      hide *;
      Top();
      ChainLast(z, trail, words, states, castlingRookSquare, castlingPath, castlingRightsMask);
      ChainPop(z, trail, words, states, castlingRookSquare, castlingPath, castlingRightsMask);
      ghost var p := trail[|trail| - 2];
      LinkedMove(p, m, trail[|trail| - 1], states[|states| - 1]);
      UndoScene(p.board, p.side, m);
      FlipTwice(p.side);
      CapturedIs(p, m);
      sideToMove := Flip(sideToMove);
      TakeBack(m, sideToMove, states[|states| - 1].capturedPiece, p.board);
      states := states[..|states| - 1];
      gamePly := gamePly - 1;
      trail := trail[..|trail| - 1];
      words := words[..|words| - 1];
      Rebuilt(p);
    }

    /** The boards of a take-back; nothing is recorded. */
    method TakeBack(m: Move, us: Color, captured: Piece, ghost b: Board)
      requires Boards() && board == After(b, us, m) && MoveScene(b, us, m)
      requires captured == if m.kind == Castling then NoPiece else b[CaptureSquare(m)]
      modifies this`board, this`byType, this`byColor, this`pieceCount
      ensures Boards() && board == b
    {
      hide *;
      UndoScene(b, us, m);
      CastlingRightOf(us, m);
      if m.kind == Promotion {
        SwapPiece(m.to, Piece(us, Pawn), null);
      }
      if m.kind == Castling {
        var kto, rfrom, rto := DoCastling(us, m.from, m.to, true, null);
      } else {
        MovePiece(m.to, m.from, null);
        if captured != NoPiece {
          var capSq := m.to;
          if m.kind == EnPassant {
            capSq := m.to - Up(us);
          }
          PutPiece(captured, capSq, null);
        }
      }
    }

    /** pos_do_null_move: neither the clock nor the game ply advances. */
    method DoNullMove(dts: DirtyThreats) returns (dp: DirtyPiece)
      requires Valid() && HasKing(board, sideToMove) && !InCheck(board, sideToMove)
      modifies this`sideToMove, this`states, this`trail, this`words, dts
      ensures Valid() && Abs() == NextNull(old(Abs()))
      ensures trail == old(trail) + [Abs()] && words == old(words) + [None]
      ensures |states| == |old(states)| + 1 && states[..|old(states)|] == old(states)
      ensures dts.list == [] && dts.us == old(sideToMove) && dts.prevKsq == dts.ksq && IsKing(board, dts.us, dts.ksq)
      ensures dp == NO_DIRTY
    {
      hide *;
      Top();
      ghost var p := Abs();
      ChainTop(z, trail, words, states, castlingRookSquare, castlingPath, castlingRightsMask);
      NodeWellFormedFresh(z, p, states[|states| - 1], castlingRookSquare, castlingPath, castlingRightsMask);
      ThreatsHave(z, p, states[|states| - 1], castlingRookSquare, castlingPath, castlingRightsMask);
      BoardsAre();
      SnapIs();
      NullSides(p);
      dp := NO_DIRTY;
      dts.list := [];
      dts.us := sideToMove;
      dts.ksq := OwnKing(sideToMove);
      dts.prevKsq := dts.ksq;
      var st := NullChild(z, Snap(), p, castlingRightsMask);
      NullCounters(states, st);
      LinkedByNull(p, st);
      ChainPush(z, trail, words, states, castlingRookSquare, castlingPath, castlingRightsMask, None, NextNull(p), st);
      states := states + [st];
      trail := trail + [NextNull(p)];
      words := words + [None];
      sideToMove := Flip(sideToMove);
      Rebuilt(NextNull(p));
    }

    /** pos_undo_null_move. */
    method UndoNullMove()
      requires Valid() && |words| > 0 && words[|words| - 1] == None
      modifies this`sideToMove, this`states, this`trail, this`words
      ensures Valid() && Abs() == old(trail)[|old(trail)| - 2]
      ensures trail == old(trail)[..|old(trail)| - 1] && words == old(words)[..|old(words)| - 1] &&
              states == old(states)[..|old(states)| - 1]
    {
      hide *;
      Top();
      ChainLast(z, trail, words, states, castlingRookSquare, castlingPath, castlingRightsMask);
      ChainPop(z, trail, words, states, castlingRookSquare, castlingPath, castlingRightsMask);
      ghost var p := trail[|trail| - 2];
      LinkedNull(p, trail[|trail| - 1], states[|states| - 1]);
      NullSides(p);
      FlipTwice(p.side);
      states := states[..|states| - 1];
      sideToMove := Flip(sideToMove);
      trail := trail[..|trail| - 1];
      words := words[..|words| - 1];
      Rebuilt(p);
    }

    // ----- reading a position -----

    /** A valid position is what its queries take it for. */
    lemma Seen()
      requires Valid()
      ensures WellFormed(Abs()) && Represents(z, Abs(), Snap())
    {
      hide *;
      Top();
      BoardsAre();
      SnapIs();
      ChainTop(z, trail, words, states, castlingRookSquare, castlingPath, castlingRightsMask);
      NodeWellFormedFresh(z, Abs(), states[|states| - 1], castlingRookSquare, castlingPath, castlingRightsMask);
      RepresentsOf(z, Abs(), Snap());
    }

    /** threats_by: the cached set, every one of them computed on the first read. */
    method ThreatsBy(index: int) returns (r: Bitboard)
      requires Valid() && 0 <= index < 7
      modifies this`states
      ensures Valid() && Abs() == old(Abs()) && states == old(states)[..|old(states)| - 1] + [states[|states| - 1]]
      ensures HasKing(board, sideToMove)
      ensures index == 0 ==> r == AllThreatsBB(board, Flip(sideToMove), KingOf(board, sideToMove))
      ensures forall kind: PieceType :: index == TypeIndex(kind) ==>
                r == ThreatsBB(board, Flip(sideToMove), KingOf(board, sideToMove), kind)
    {
      hide *;
      Top();
      BoardsAre();
      SnapIs();
      ghost var p := Abs();
      ChainTop(z, trail, words, states, castlingRookSquare, castlingPath, castlingRightsMask);
      NodeWellFormedFresh(z, p, states[|states| - 1], castlingRookSquare, castlingPath, castlingRightsMask);
      WellFormedSides(p);
      FreshParts(z, p, states[|states| - 1]);
      ThreatsHave(z, p, states[|states| - 1], castlingRookSquare, castlingPath, castlingRightsMask);
      ghost var before := states;
      ThreatsNeverEmpty(board, Flip(sideToMove), KingOf(board, sideToMove));
      if states[|states| - 1].threats[0] == {} {
        KingSquareExact(board, Snap(), sideToMove);
        KingOfIsKing(board, sideToMove);
        ReadableOf(p.board, Snap());
        var threats := ComputeThreats(Snap());
        var st := states[|states| - 1].(threats := threats);
        FreshFilled(z, p, states[|states| - 1], threats);
        NodeOf(z, p, st, castlingRookSquare, castlingPath, castlingRightsMask);
        ChainRefill(z, trail, words, states, castlingRookSquare, castlingPath, castlingRightsMask, st);
        CountersAre(z, p, st);
        states := states[..|states| - 1] + [st];
        Rebuilt(p);
      }
      r := states[|states| - 1].threats[index];
      ThreatsAre(board, sideToMove, states[|states| - 1]);
    }
  }
}
