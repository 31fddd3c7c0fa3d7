/** A run of moves and null moves, and the stack of state records it leaves behind. */
module Chains {
  import opened Squares
  import opened Types
  import opened Board
  import opened Rules
  import opened Attacks
  import opened Derived
  import opened State
  import opened Play
  import opened Views
  import opened Keys
  import opened Records
  import opened EnPassantRule
  import opened Caches
  import MoveGen

  /** The piece a move takes, as captured_piece records it. */
  function Captured(p: Pos, m: Move): Piece {
    if m.kind == Castling then NoPiece else p.board[CaptureSquare(m)]
  }

  /** p' follows from p by a legal move, or by a null move made out of check. */
  ghost predicate Linked(p: Pos, word: Option<Move>, p': Pos, st': StateInfo) {
    WellFormed(p) &&
    match word
    case Some(m) => Legal(p, m) && p' == Next(p, m) && st'.capturedPiece == Captured(p, m)
    case None => !InCheck(p.board, p.side) && p' == NextNull(p)
  }

  ghost predicate NodeFresh(z: Zobrist, p: Pos, st: StateInfo, rookSquare: map<Right, Square>,
                            path: map<Right, Bitboard>,
                            mask: seq<set<Right>>) {
    WellFormed(p) && Fresh(z, p, st) && PathsFresh(p, rookSquare, path) && MaskFresh(p, mask)
  }

  ghost predicate NodesFresh(z: Zobrist, trail: seq<Pos>, states: seq<StateInfo>, rookSquare: map<Right, Square>,
                             path: map<Right, Bitboard>, mask: seq<set<Right>>)
    requires |trail| == |states|
  {
    forall i :: 0 <= i < |trail| ==> NodeFresh(z, trail[i], states[i], rookSquare, path, mask)
  }

  ghost predicate LinksHold(trail: seq<Pos>, words: seq<Option<Move>>, states: seq<StateInfo>)
    requires |trail| == |states| == |words| + 1
  {
    forall i :: 0 <= i < |words| ==> Linked(trail[i], words[i], trail[i + 1], states[i + 1])
  }

  ghost predicate Chain(z: Zobrist, trail: seq<Pos>, words: seq<Option<Move>>, states: seq<StateInfo>,
                        rookSquare: map<Right, Square>, path: map<Right, Bitboard>, mask: seq<set<Right>>) {
    && |trail| == |states| == |words| + 1
    && NodesFresh(z, trail, states, rookSquare, path, mask)
    && LinksHold(trail, words, states)
    && ChainCounters(states) && RepetitionsFresh(states)
  }

  /** The king and the rook can be lifted and put down: neither target holds a third piece. */
  predicate CastlingLifts(b: Board, us: Color, kFrom: Square, kTo: Square, rFrom: Square, rTo: Square) {
    && kFrom != rFrom && kTo != rTo
    && b[kFrom] == Piece(us, King) && b[rFrom] == Piece(us, Rook)
    && b[kFrom := NoPiece][rFrom := NoPiece][kTo] == NoPiece && b[kFrom := NoPiece][rFrom := NoPiece][rTo] == NoPiece
  }

  function Castled(b: Board, us: Color, kFrom: Square, kTo: Square, rFrom: Square, rTo: Square): Board {
    b[rFrom := NoPiece][kFrom := NoPiece][kTo := Piece(us, King)][rTo := Piece(us, Rook)]
  }

  lemma CastlingSides(us: Color, from: Square, to: Square)
    requires Rank(from) == BackRank(us)
    ensures var r := CastlingRight(us, Move(Castling, from, to, Knight));
            && KingTarget(r) == MakeSquare(if to > from then 6 else 2, Rank(from))
            && RookTarget(r) == MakeSquare(if to > from then 5 else 3, Rank(from))
  {
  }

  // ----- growing and shrinking the chain -----

  lemma RepetitionsExtend(states: seq<StateInfo>, st: StateInfo)
    requires RepetitionsFresh(states) && RepetitionFresh(states + [st], |states|)
    ensures RepetitionsFresh(states + [st])
  {
    var more := states + [st];
    forall i | 0 <= i < |states|
      ensures RepetitionFresh(more, i)
    {
      forall d
        ensures RecursAt(more, i, d) <==> RecursAt(states, i, d)
      {
      }
      assert RepetitionFresh(states, i);
    }
  }

  lemma RepetitionsShrink(states: seq<StateInfo>, n: nat)
    requires n <= |states| && RepetitionsFresh(states)
    ensures RepetitionsFresh(states[..n])
  {
    forall i | 0 <= i < n
      ensures RepetitionFresh(states[..n], i)
    {
      forall d
        ensures RecursAt(states[..n], i, d) <==> RecursAt(states, i, d)
      {
      }
      assert RepetitionFresh(states, i);
    }
  }

  lemma CountersExtend(states: seq<StateInfo>, st: StateInfo)
    requires |states| > 0 && ChainCounters(states)
    requires CountersStep(states[|states| - 1], st) && st.pliesFromNull <= states[|states| - 1].pliesFromNull + 1
    ensures ChainCounters(states + [st])
  {
  }

  lemma ChainPush(z: Zobrist, trail: seq<Pos>, words: seq<Option<Move>>, states: seq<StateInfo>,
                  rookSquare: map<Right, Square>,
                  path: map<Right, Bitboard>, mask: seq<set<Right>>, word: Option<Move>, p: Pos, st: StateInfo)
    requires |trail| == |states| == |words| + 1 && Linked(trail[|trail| - 1], word, p, st)
    requires ChainCounters(states + [st]) && RepetitionFresh(states + [st], |states|)
    requires Chain(z, trail, words, states, rookSquare, path, mask)
    requires NodeFresh(z, p, st, rookSquare, path, mask)
    ensures Chain(z, trail + [p], words + [word], states + [st], rookSquare, path, mask)
  {
    hide NodeFresh, Linked, ChainCounters, RepetitionsFresh, RepetitionFresh;
    RepetitionsExtend(states, st);
  }

  lemma ChainPop(z: Zobrist, trail: seq<Pos>, words: seq<Option<Move>>, states: seq<StateInfo>,
                 rookSquare: map<Right, Square>,
                 path: map<Right, Bitboard>, mask: seq<set<Right>>)
    requires |trail| == |states| == |words| + 1 && |words| > 0
    requires Chain(z, trail, words, states, rookSquare, path, mask)
    ensures Chain(z, trail[..|trail| - 1], words[..|words| - 1], states[..|states| - 1], rookSquare, path, mask)
  {
    hide NodeFresh, Linked, RepetitionsFresh, CountersStep;
    RepetitionsShrink(states, |states| - 1);
  }

  // ----- the child's freshness, assembled -----

  /** The record a legal move computes before the caches are filled. */
  ghost predicate ChildRecord(z: Zobrist, p: Pos, m: Move, parent: StateInfo, st: StateInfo, key: Key) {
    && Carried(parent, st, key, MoveExtra(z, p, Next(p, m)), MoveKeys(z, p.board, p.side, m))
    && st.materialKey == MaterialStep(z, p.board, p.side, m, parent.materialKey)
    && |st.nonPawnMaterial| == 2
    && (forall c: Color :: st.nonPawnMaterial[ColorIndex(c)] == NonPawnStep(p.board, p.side, m, c))
    && CountersFresh(Next(p, m), st)
  }

  /** Everything incremental is what the from-scratch definition says of the child. */
  lemma ChildFresh(z: Zobrist, p: Pos, m: Move, parent: StateInfo, st: StateInfo)
    requires HasKing(p.board, White) && HasKing(p.board, Black) && Fresh(z, p, parent)
    requires WellFormed(p) && PseudoLegal(p, m)
    requires ChildRecord(z, p, m, parent, st, st.key)
    ensures KeysFresh(z, Next(p, m), st) && MaterialFresh(z, Next(p, m).board, st) && CountersFresh(Next(p, m), st)
  {
    hide *;
    FreshParts(z, p, parent);
    MaterialHas(z, p.board, parent);
    RecordParts(z, p, m, parent, st);
    BoardKeysMoved(z, p, m);
    NextShape(p, m);
    ExtraMoved(z, p, Next(p, m));
    KeysArrive(z, p, Next(p, m), parent, st, MoveExtra(z, p, Next(p, m)), MoveKeys(z, p.board, p.side, m));
    MaterialMoved(z, p, m);
    MaterialIs(z, Next(p, m).board, st);
  }

  lemma WellFormedSides(p: Pos)
    requires WellFormed(p)
    ensures HasKing(p.board, White) && HasKing(p.board, Black)
    ensures HasKing(p.board, p.side) && HasKing(p.board, Flip(p.side)) && !InCheck(p.board, Flip(p.side))
  {
    hide HasKing, InCheck, PawnsInside, RightsHome, EpSound;
  }

  lemma MaterialIs(z: Zobrist, b: Board, st: StateInfo)
    requires |st.nonPawnMaterial| == 2 && st.materialKey == MaterialKey(z, b)
    requires forall c: Color :: st.nonPawnMaterial[ColorIndex(c)] == NonPawnMaterial(b, c)
    ensures MaterialFresh(z, b, st)
  {
  }

  lemma NextShape(p: Pos, m: Move)
    ensures Next(p, m).board == After(p.board, p.side, m) && Next(p, m).side == Flip(p.side) &&
            Next(p, m).rooks == p.rooks
    ensures Next(p, m).gamePly == p.gamePly + 1 && Next(p, m).ep == NextEp(p, m)
    ensures Next(p, m).sinceNull == p.sinceNull + 1
    ensures Next(p, m).rule50 == if Irreversible(p.board, m) then 0 else p.rule50 + 1
  {
  }

  lemma FreshParts(z: Zobrist, p: Pos, st: StateInfo)
    requires HasKing(p.board, White) && HasKing(p.board, Black) && Fresh(z, p, st)
    ensures KeysFresh(z, p, st) && MaterialFresh(z, p.board, st) && CountersFresh(p, st)
    ensures st.checkers == AttackersBB(p.board, Flip(p.side), KingOf(p.board, p.side), Occupied(p.board))
    ensures PinsFresh(p.board, st) && CheckSquaresFresh(p.board, p.side, st) && ThreatsFresh(p.board, p.side, st)
  {
    hide MaterialFresh, CountersFresh, AuxKeysFresh, PinsFresh, CheckSquaresFresh, ThreatsFresh, KingOf, HasKing,
         AttackersBB;
  }

  lemma MaterialHas(z: Zobrist, b: Board, st: StateInfo)
    requires MaterialFresh(z, b, st)
    ensures st.materialKey == MaterialKey(z, b)
    ensures |st.nonPawnMaterial| == 2 && forall c: Color :: st.nonPawnMaterial[ColorIndex(c)] == NonPawnMaterial(b, c)
  {
    hide NonPawnMaterial;
  }

  lemma RecordParts(z: Zobrist, p: Pos, m: Move, parent: StateInfo, st: StateInfo)
    requires ChildRecord(z, p, m, parent, st, st.key)
    ensures Carried(parent, st, st.key, MoveExtra(z, p, Next(p, m)), MoveKeys(z, p.board, p.side, m))
    ensures st.materialKey == MaterialStep(z, p.board, p.side, m, parent.materialKey)
    ensures |st.nonPawnMaterial| == 2
    ensures forall c: Color :: st.nonPawnMaterial[ColorIndex(c)] == NonPawnStep(p.board, p.side, m, c)
    ensures CountersFresh(Next(p, m), st)
  {
  }

  lemma AssembleFresh(z: Zobrist, p: Pos, st: StateInfo)
    requires HasKing(p.board, White) && HasKing(p.board, Black)
    requires KeysFresh(z, p, st) && MaterialFresh(z, p.board, st) && CountersFresh(p, st)
    requires st.checkers == AttackersBB(p.board, Flip(p.side), KingOf(p.board, p.side), Occupied(p.board))
    requires PinsFresh(p.board, st) && CheckSquaresFresh(p.board, p.side, st) && ThreatsFresh(p.board, p.side, st)
    ensures Fresh(z, p, st)
  {
    hide MaterialFresh, CountersFresh, AuxKeysFresh, PinsFresh, CheckSquaresFresh, ThreatsFresh, KingOf, HasKing,
         AttackersBB;
  }

  /** The paths of the kept rights. */
  lemma PathsKept(p: Pos, m: Move, rookSquare: map<Right, Square>, path: map<Right, Bitboard>)
    requires WellFormed(p) && PseudoLegal(p, m) && PathsFresh(p, rookSquare, path)
    ensures PathsFresh(Next(p, m), rookSquare, path)
  {
    NextShape(p, m);
    forall r, k: Square | r in Next(p, m).rights && IsKing(Next(p, m).board, r.color, k)
      ensures r in p.rights && IsKing(p.board, r.color, k)
    {
      KingKept(p, m, r, k);
    }
    hide WellFormed, PseudoLegal, Next, IsKing, CastlingPath;
  }

  lemma NodeKept(z: Zobrist, p: Pos, m: Move, st: StateInfo, rookSquare: map<Right, Square>, path: map<Right, Bitboard>,
                 mask: seq<set<Right>>)
    requires WellFormed(p) && Legal(p, m) && PathsFresh(p, rookSquare, path) && MaskFresh(p, mask)
    requires HasKing(Next(p, m).board, White) && HasKing(Next(p, m).board, Black) && Fresh(z, Next(p, m), st)
    ensures NodeFresh(z, Next(p, m), st, rookSquare, path, mask)
  {
    assert PseudoLegal(p, m);
    hide *;
    NextWellFormed(p, m);
    PathsKept(p, m, rookSquare, path);
    HomesKept(p, m, mask);
    NodeOf(z, Next(p, m), st, rookSquare, path, mask);
  }

  lemma NodeOf(z: Zobrist, p: Pos, st: StateInfo, rookSquare: map<Right, Square>, path: map<Right, Bitboard>,
               mask: seq<set<Right>>)
    requires HasKing(p.board, White) && HasKing(p.board, Black) && Fresh(z, p, st)
    requires WellFormed(p) && PathsFresh(p, rookSquare, path) && MaskFresh(p, mask)
    ensures NodeFresh(z, p, st, rookSquare, path, mask)
  {
  }

  // ----- what the code tests of a move -----

  /** `(to ^ from) == 16`: the same file, bit 4 of the square index flipped. */
  predicate FlipsBit4(from: Square, to: Square) {
    to == if from / 16 % 2 == 0 then from + 16 else from - 16
  }

  /** Among pawn moves that test picks out exactly the double pushes. */
  lemma DoublePushIs(p: Pos, m: Move)
    requires WellFormed(p) && PseudoLegal(p, m) && m.kind != Castling && p.board[m.from] == Piece(p.side, Pawn)
    ensures FlipsBit4(m.from, m.to) <==> m.kind == Normal && m.to == m.from + 2 * Up(p.side)
    ensures FlipsBit4(m.from, m.to) ==> Moves(p.board, p.side, m.from, m.to)
  {
    Coords(m.from); Coords(m.to);
    hide File, Rank, WellFormed, IsColor, Hits;
  }

  /** The en-passant square of the child is the one pos_do_move's pin test sets. */
  lemma EpAgrees(p: Pos, m: Move)
    requires WellFormed(p) && PseudoLegal(p, m) && m.kind != Castling && p.board[m.from] == Piece(p.side, Pawn)
    ensures HasKing(p.board, Flip(p.side))
    ensures NextEp(p, m) == PinnedEp(p.board, p.side, m, BlockersBB(p.board, p.side, KingOf(p.board, Flip(p.side))))
    ensures FlipsBit4(m.from, m.to) ==> m.kind == Normal && 0 <= m.to - Up(p.side) < 64
  {
    WellFormedSides(p);
    DoublePushIs(p, m);
    hide WellFormed, PseudoLegal, FlipsBit4, KingOf, HasKing, PushEpTest, BlockersBB, EpAvailable, Moves;
    if FlipsBit4(m.from, m.to) {
      EpSquareFromPins(p, m.from, m.to);
      assert After(p.board, p.side, m) == After(p.board, p.side, NormalMove(m.from, m.to));
    }
  }

  lemma NoEpOtherwise(p: Pos, m: Move)
    requires p.board[m.from] != Piece(p.side, Pawn)
    ensures NextEp(p, m) == None
  {
  }

  // ----- the accumulator's piece delta -----

  /** What the accumulator is told of a move: the piece that moved, at most one removed and one
      added. */
  datatype DirtyPiece = DirtyPiece(pc: Piece, from: Option<Square>, to: Option<Square>, removeSq: Option<Square>,
                                   removePc: Piece,
                                   addSq: Option<Square>, addPc: Piece)

  /** The board an accumulator following the delta arrives at. */
  function ApplyDirty(b: Board, dp: DirtyPiece): Board {
    var b1: Board := if dp.from.Some? then b[dp.from.value := NoPiece] else b;
    var b2: Board := if dp.removeSq.Some? then b1[dp.removeSq.value := NoPiece] else b1;
    var b3: Board := if dp.to.Some? then b2[dp.to.value := dp.pc] else b2;
    if dp.addSq.Some? then b3[dp.addSq.value := dp.addPc] else b3
  }

  /** What the delta removes stood there, and following it gives b'. */
  ghost predicate DirtyHolds(b: Board, dp: DirtyPiece, b': Board) {
    && (dp.from.Some? ==> b[dp.from.value] == dp.pc) && (dp.removeSq.Some? ==> b[dp.removeSq.value] == dp.removePc)
    && ApplyDirty(b, dp) == b'
  }

  /** The delta pos_do_move writes. */
  function DirtyOf(b: Board, us: Color, m: Move): DirtyPiece {
    if m.kind == Castling then
      var r := CastlingRight(us, m);
      var rook := Piece(us, Rook);
      DirtyPiece(b[m.from], Some(m.from), Some(KingTarget(r)), Some(m.to), rook, Some(RookTarget(r)), rook)
    else
      var c := CaptureSquare(m);
      var removeSq := if b[c].Piece? then Some(c) else None;
      if m.kind == Promotion
        then DirtyPiece(b[m.from], Some(m.from), None, removeSq, b[c], Some(m.to), Piece(us, m.promo))
      else DirtyPiece(b[m.from], Some(m.from), Some(m.to), removeSq, b[c], None, NoPiece)
  }

  lemma DirtyFollows(p: Pos, m: Move)
    requires WellFormed(p) && PseudoLegal(p, m)
    ensures DirtyHolds(p.board, DirtyOf(p.board, p.side, m), After(p.board, p.side, m))
  {
    if m.kind == Castling {
      CastlingSquares(p, m);
      TargetsOnBackRank(CastlingRight(p.side, m));
      CastlingDirty(p.board, p.side, m);
      hide WellFormed, PseudoLegal, After, DirtyOf, ApplyDirty;
    } else {
      AfterSteps(p, m);
      hide *;
      PlainDirty(p.board, p.side, m);
    }
  }

  lemma PlainDirty(b: Board, us: Color, m: Move)
    requires m.kind != Castling && b[m.from].Piece?
    requires var c := CaptureSquare(m);
             && c != m.from && (c != m.to ==> b[m.to] == NoPiece) && m.from != m.to
             && After(b, us, m) == b[c := NoPiece][m.from := NoPiece][m.to := Arrives(b, us, m)]
    ensures DirtyHolds(b, DirtyOf(b, us, m), After(b, us, m))
  {
    hide After, CaptureSquare;
  }

  lemma CastlingDirty(b: Board, us: Color, m: Move)
    requires m.kind == Castling && m.from != m.to && b[m.from] == Piece(us, King) && b[m.to] == Piece(us, Rook)
    ensures DirtyHolds(b, DirtyOf(b, us, m), After(b, us, m))
  {
    hide KingTarget, RookTarget, CastlingRight;
  }

  // ----- the record, step by step -----

  /** The board before Land: castling is complete, an en-passant victim is gone. */
  function Staged(b: Board, us: Color, m: Move): Board {
    match m.kind
    case Castling => After(b, us, m)
    case EnPassant => b[CaptureSquare(m) := NoPiece]
    case _ => b
  }

  /** The keys moved before the mover's own. */
  function LeaveKeys(z: Zobrist, b: Board, us: Color, m: Move): KeyVector {
    if m.kind == Castling then
      Sum(Of(z, Piece(us, Rook), m.to), Of(z, Piece(us, Rook), RookTarget(CastlingRight(us, m))))
    else Of(z, b[CaptureSquare(m)], CaptureSquare(m))
  }

  /** The record once the captured piece has left it. */
  ghost predicate LeftRecord(z: Zobrist, b: Board, m: Move, st: StateInfo, st': StateInfo) {
    var c := CaptureSquare(m);
    && st' == st.(pawnKey := st'.pawnKey, minorPieceKey := st'.minorPieceKey, nonPawnKey := st'.nonPawnKey,
                  rule50 := if IsCapture(b, m) then 0 else st.rule50,
                  materialKey := if m.kind != Castling && b[c].Piece?
                    then Xor(st.materialKey, z.psq(b[c], 8 + |PiecesOf(b, b[c])| - 1))
                                 else st.materialKey,
                  nonPawnMaterial := st'.nonPawnMaterial)
    && |st.nonPawnMaterial| == 2 && |st'.nonPawnMaterial| == 2
    && forall col: Color :: st'.nonPawnMaterial[ColorIndex(col)] ==
         st.nonPawnMaterial[ColorIndex(col)] - if m.kind != Castling then MaterialTerm(b[c], col) else 0
  }

  /** What a pawn move does to the record, the key fields apart. */
  ghost predicate PawnRecorded(z: Zobrist, b: Board, us: Color, m: Move, st: StateInfo, st': StateInfo) {
    && |st.nonPawnMaterial| == 2
    && var i := ColorIndex(us);
       st' == st.(pawnKey := st'.pawnKey, minorPieceKey := st'.minorPieceKey, nonPawnKey := st'.nonPawnKey, rule50 := 0,
               epSquare := st'.epSquare,
               materialKey :=
                 if m.kind != Promotion then st.materialKey
                 else Xor(st.materialKey, Xor(z.psq(Piece(us, m.promo), 8 + |PiecesOf(b, Piece(us, m.promo))|),
                                              z.psq(Piece(us, Pawn), 8 + |PiecesOf(b, Piece(us, Pawn))| - 1))),
               nonPawnMaterial :=
                 if m.kind != Promotion then st.nonPawnMaterial
                 else st.nonPawnMaterial[i := st.nonPawnMaterial[i] + PieceValue(m.promo)])
  }

  /** The en-passant square the pin test leaves behind. */
  ghost function PinnedEp(b: Board, us: Color, m: Move, blockers: Bitboard): Option<Square>
    requires HasKing(b, Flip(us))
  {
    var e := m.to - Up(us);
    if && FlipsBit4(m.from, m.to) && 0 <= e < 64
       && PushEpTest(b, us, m.from, e, KingOf(b, Flip(us)), blockers, OfType(b, Pawn) * OfColor(b, Flip(us)))
    then Some(e) else None
  }

  /** The key terms of the pawn branch: a promoting pawn is taken back, the new piece put down. */
  function PawnKeys(z: Zobrist, us: Color, m: Move, d: KeyVector): KeyVector {
    if m.kind == Promotion then Sum(Sum(d, Of(z, Piece(us, Pawn), m.to)), Of(z, Piece(us, m.promo), m.to)) else d
  }

  /** The keys telescope to the move's own. */
  lemma KeysTelescope(z: Zobrist, b: Board, us: Color, m: Move)
    requires m.kind == Castling ==> b[m.from] == Piece(us, King)
    requires m.kind == Promotion ==> b[m.from] == Piece(us, Pawn)
    ensures var d := Sum(Sum(LeaveKeys(z, b, us, m), Of(z, b[m.from], m.from)), Of(z, b[m.from], LandSquare(us, m)));
            MoveKeys(z, b, us, m) == PawnKeys(z, us, m, d)
  {
    SumTwice(Sum(LeaveKeys(z, b, us, m), Of(z, b[m.from], m.from)), Of(z, b[m.from], m.to));
    hide Sum, Of, CaptureSquare, KingTarget, RookTarget, CastlingRight;
  }

  /** The steps of the record add up. st0 is the parent with its clocks advanced, st1 once the
      victim has left, st2 once the mover, the old en-passant square and the rights have. */
  lemma RecordAddsUp(z: Zobrist, p: Pos, m: Move, mask: seq<set<Right>>, parent: StateInfo, st0: StateInfo,
                     st1: StateInfo,
                     st2: StateInfo, st: StateInfo)
    requires WellFormed(p) && PseudoLegal(p, m) && CountersFresh(p, parent) && MaskFresh(p, mask)
    requires |parent.nonPawnMaterial| == 2 &&
             forall c: Color :: parent.nonPawnMaterial[ColorIndex(c)] == NonPawnMaterial(p.board, c)
    requires st0 == parent.(rule50 := parent.rule50 + 1, pliesFromNull := parent.pliesFromNull + 1)
    requires LeftRecord(z, p.board, m, st0, st1)
    requires st2 ==
             st1.(pawnKey := st2.pawnKey, minorPieceKey := st2.minorPieceKey, nonPawnKey := st2.nonPawnKey,
                  epSquare := None,
                         castlingRights := st1.castlingRights - (mask[m.from] + mask[LandSquare(p.side, m)]))
    requires if p.board[m.from] == Piece(p.side, Pawn)
             then PawnRecorded(z, p.board, p.side, m, st2, st) && st.epSquare == NextEp(p, m)
             else st == st2
    ensures st.materialKey == MaterialStep(z, p.board, p.side, m, parent.materialKey)
    ensures |st.nonPawnMaterial| == 2
    ensures forall c: Color :: st.nonPawnMaterial[ColorIndex(c)] == NonPawnStep(p.board, p.side, m, c)
    ensures CountersFresh(Next(p, m), st)
    ensures st ==
            parent.(pawnKey := st.pawnKey, minorPieceKey := st.minorPieceKey, nonPawnKey := st.nonPawnKey,
                    materialKey := st.materialKey,
                          nonPawnMaterial := st.nonPawnMaterial, rule50 := st.rule50,
                            pliesFromNull := parent.pliesFromNull + 1,
                          epSquare := st.epSquare, castlingRights := st.castlingRights)
    ensures st.rule50 == 0 || st.rule50 == parent.rule50 + 1
  {
    hide *;
    MaskHasSquares(p, mask);
    RightsStripped(p, m, mask);
    MoverIs(p, m);
    NextShape(p, m);
    ParentCounters(p, parent);
    ClockStep(p, m);
    MaterialAdds(z, p.board, p.side, m, parent, st0, st1, st2, st);
    CountersAdd(z, p, m, mask, parent, st0, st1, st2, st);
  }

  lemma ParentCounters(p: Pos, st: StateInfo)
    ensures CountersFresh(p, st) <==>
              st.rule50 == p.rule50 && st.pliesFromNull == p.sinceNull && st.epSquare == p.ep &&
                st.castlingRights == p.rights
  {
  }

  lemma MaskHasSquares(p: Pos, mask: seq<set<Right>>)
    requires MaskFresh(p, mask)
    ensures |mask| == 64
  {
  }

  /** The clock restarts on a capture or a pawn move. */
  lemma ClockStep(p: Pos, m: Move)
    requires p.board[m.from].Piece? && p.board[m.from].color == p.side
    ensures Irreversible(p.board, m) <==> IsCapture(p.board, m) || p.board[m.from] == Piece(p.side, Pawn)
  {
  }

  lemma MaterialAdds(z: Zobrist, b: Board, us: Color, m: Move, parent: StateInfo, st0: StateInfo, st1: StateInfo,
                     st2: StateInfo, st: StateInfo)
    requires |parent.nonPawnMaterial| == 2 &&
             forall c: Color :: parent.nonPawnMaterial[ColorIndex(c)] == NonPawnMaterial(b, c)
    requires st0.materialKey == parent.materialKey && st0.nonPawnMaterial == parent.nonPawnMaterial
    requires LeftRecord(z, b, m, st0, st1) && st2.materialKey == st1.materialKey &&
             st2.nonPawnMaterial == st1.nonPawnMaterial
    requires m.kind == Promotion ==> b[m.from] == Piece(us, Pawn)
    requires if b[m.from] == Piece(us, Pawn) then PawnRecorded(z, b, us, m, st2, st) else st == st2
    ensures st.materialKey == MaterialStep(z, b, us, m, parent.materialKey) && |st.nonPawnMaterial| == 2
    ensures forall c: Color :: st.nonPawnMaterial[ColorIndex(c)] == NonPawnStep(b, us, m, c)
  {
    hide PiecesOf, NonPawnMaterial, Xor, CaptureSquare;
  }

  lemma CountersAdd(z: Zobrist, p: Pos, m: Move, mask: seq<set<Right>>, parent: StateInfo, st0: StateInfo,
                    st1: StateInfo,
                    st2: StateInfo, st: StateInfo)
    requires parent.rule50 == p.rule50 && parent.pliesFromNull == p.sinceNull && parent.epSquare == p.ep &&
             parent.castlingRights == p.rights
    requires st0 == parent.(rule50 := parent.rule50 + 1, pliesFromNull := parent.pliesFromNull + 1) &&
             LeftRecord(z, p.board, m, st0, st1)
    requires |mask| == 64 && Next(p, m).rights == p.rights - (mask[m.from] + mask[LandSquare(p.side, m)])
    requires st2 ==
             st1.(pawnKey := st2.pawnKey, minorPieceKey := st2.minorPieceKey, nonPawnKey := st2.nonPawnKey,
                  epSquare := None,
                         castlingRights := st1.castlingRights - (mask[m.from] + mask[LandSquare(p.side, m)]))
    requires Irreversible(p.board, m) <==> IsCapture(p.board, m) || p.board[m.from] == Piece(p.side, Pawn)
    requires if p.board[m.from] == Piece(p.side, Pawn)
             then PawnRecorded(z, p.board, p.side, m, st2, st) && st.epSquare == NextEp(p, m)
             else st == st2
    ensures CountersFresh(Next(p, m), st)
    ensures st ==
            parent.(pawnKey := st.pawnKey, minorPieceKey := st.minorPieceKey, nonPawnKey := st.nonPawnKey,
                    materialKey := st.materialKey,
                          nonPawnMaterial := st.nonPawnMaterial, rule50 := st.rule50,
                            pliesFromNull := parent.pliesFromNull + 1,
                          epSquare := st.epSquare, castlingRights := st.castlingRights)
    ensures st.rule50 == 0 || st.rule50 == parent.rule50 + 1
  {
    if p.board[m.from] != Piece(p.side, Pawn) {
      NoEpOtherwise(p, m);
    }
    hide PiecesOf, NonPawnMaterial, Xor, CaptureSquare, NextEp, Touches, After, Irreversible, IsCapture, LandSquare,
         MaterialTerm;
  }

  lemma MoverIs(p: Pos, m: Move)
    requires WellFormed(p) && PseudoLegal(p, m)
    ensures p.board[m.from].Piece? && p.board[m.from].color == p.side
    ensures m.kind == Promotion || m.kind == EnPassant ==> p.board[m.from] == Piece(p.side, Pawn)
    ensures m.kind == Castling ==> p.board[m.from] == Piece(p.side, King)
    ensures p.board[m.from].kind == Pawn <==> p.board[m.from] == Piece(p.side, Pawn)
    ensures m.kind == EnPassant ==>
            p.board[VictimSquare(m)] == Piece(Flip(p.side), Pawn) && VictimSquare(m) == m.to - Up(p.side)
  {
    if m.kind == Castling {
      CastlingSquares(p, m);
    }
    if m.kind == EnPassant {
      EpSquares(p, m);
    }
    hide WellFormed, Hits, PawnPush, PawnDouble, PawnCapture, PawnStep, CastlingPath, Span, Attacked, VictimSquare;
  }

  // ----- what a make needs to know of its move -----

  /** The board facts a legal move brings. */
  ghost predicate MoveScene(b: Board, us: Color, m: Move) {
    var r := CastlingRight(us, m);
    && IsColor(b, us, m.from) && m.from != m.to
    && (m.kind == Castling ==>
          && Rank(m.from) == BackRank(us) && b[m.from] == Piece(us, King)
          && CastlingLifts(b, us, m.from, KingTarget(r), m.to, RookTarget(r))
          && After(b, us, m) == Castled(b, us, m.from, KingTarget(r), m.to, RookTarget(r)))
    && (m.kind != Castling ==>
          && After(b, us, m) == Staged(b, us, m)[m.from := NoPiece][m.to := Arrives(b, us, m)]
          && Staged(b, us, m)[m.from] == b[m.from]
          && !IsColor(b, us, CaptureSquare(m))
          && IsCapture(b, m) == (b[CaptureSquare(m)] != NoPiece))
    && (m.kind == EnPassant ==>
          b[CaptureSquare(m)] == Piece(Flip(us), Pawn) && CaptureSquare(m) == m.to - Up(us) && b[m.to] == NoPiece)
    && (m.kind == Promotion || m.kind == EnPassant ==> b[m.from] == Piece(us, Pawn))
    && (m.kind == EnPassant || m.kind == Normal ==> Clear(m.from, m.to, Occupied(Staged(b, us, m))))
  }

  lemma SceneHolds(p: Pos, m: Move)
    requires WellFormed(p) && PseudoLegal(p, m)
    ensures MoveScene(p.board, p.side, m)
  {
    hide WellFormed, PseudoLegal, MoveScene;
    if m.kind == Castling {
      CastlingScene(p, m);
    } else if m.kind == EnPassant {
      EpScene(p, m);
    } else {
      StepScene(p, m);
    }
  }

  lemma CastlingScene(p: Pos, m: Move)
    requires WellFormed(p) && PseudoLegal(p, m) && m.kind == Castling
    ensures MoveScene(p.board, p.side, m)
  {
    CastlingSquares(p, m);
    TargetsOnBackRank(CastlingRight(p.side, m));
    hide WellFormed, PseudoLegal, MoveScene, KingTarget, RookTarget;
    CastlingSceneOf(p.board, p.side, m);
  }

  lemma CastlingSceneOf(b: Board, us: Color, m: Move)
    requires m.kind == Castling && b[m.from] == Piece(us, King) && b[m.to] == Piece(us, Rook) &&
             Rank(m.from) == BackRank(us)
    requires var r := CastlingRight(us, m);
             && KingTarget(r) != RookTarget(r)
             && forall x: Square :: x == KingTarget(r) || x == RookTarget(r) ==>
                x == m.from || x == m.to || b[x] == NoPiece
    ensures MoveScene(b, us, m)
  {
    hide KingTarget, RookTarget, CastlingRight, CaptureSquare, Clear, Occupied, Arrives;
  }

  lemma EpScene(p: Pos, m: Move)
    requires WellFormed(p) && PseudoLegal(p, m) && m.kind == EnPassant
    ensures MoveScene(p.board, p.side, m)
  {
    MoverIs(p, m);
    AfterSteps(p, m);
    EpSquares(p, m);
    assert PawnStep(p.side, m.from, m.to);
    hide WellFormed, PseudoLegal, PawnStep, VictimSquare, Inside, CastlingRight;
    PawnStepKingStep(p.side, m.from, m.to);
    KingStepClear(m.from, m.to);
  }

  lemma StepScene(p: Pos, m: Move)
    requires WellFormed(p) && PseudoLegal(p, m) && (m.kind == Normal || m.kind == Promotion)
    ensures MoveScene(p.board, p.side, m)
  {
    MoverIs(p, m);
    AfterSteps(p, m);
    assert Moves(p.board, p.side, m.from, m.to);
    hide WellFormed, PseudoLegal, Clear, Moves, VictimSquare, Occupied, CastlingRight;
    MovePathClear(p, m.from, m.to);
  }

  /** The delta before the pawn branch and the boards. */
  function DirtyLeft(b: Board, us: Color, m: Move): DirtyPiece {
    if m.kind == Castling then DirtyOf(b, us, m)
    else
      var c := CaptureSquare(m);
      DirtyPiece(b[m.from], Some(m.from), Some(m.to), if b[c].Piece? then Some(c) else None, b[c], None, NoPiece)
  }

  /** Castling in the terms LeaveCastling works in. */
  lemma CastlingShape(z: Zobrist, b: Board, us: Color, m: Move)
    requires MoveScene(b, us, m) && m.kind == Castling
    ensures var r := CastlingRight(us, m);
            var rook := Piece(us, Rook);
            && r == CastlingRight(us, Move(Castling, m.from, m.to, Knight)) && Rank(m.from) == BackRank(us)
            && CastlingLifts(b, us, m.from, KingTarget(r), m.to, RookTarget(r))
            && Staged(b, us, m) == Castled(b, us, m.from, KingTarget(r), m.to, RookTarget(r))
            && LandSquare(us, m) == KingTarget(r)
            && LeaveKeys(z, b, us, m) == Sum(Sum(ZERO, Of(z, rook, m.to)), Of(z, rook, RookTarget(r)))
            && DirtyLeft(b, us, m) ==
               DirtyPiece(b[m.from], Some(m.from), Some(KingTarget(r)), Some(m.to), rook, Some(RookTarget(r)), rook)
  {
    ZeroSum(Of(z, Piece(us, Rook), m.to));
    hide Sum, Of, CastlingLifts, Castled, KingTarget, RookTarget, CaptureSquare, Clear, Occupied, Arrives;
  }

  lemma KeysTwice(st: StateInfo, st': StateInfo)
    requires exists mid :: KeysOnly(st, mid) && KeysOnly(mid, st')
    ensures KeysOnly(st, st')
  {
  }

  lemma CastlingLeaves(z: Zobrist, b: Board, us: Color, m: Move, st: StateInfo, st': StateInfo)
    requires m.kind == Castling && KeysOnly(st, st') && |st.nonPawnMaterial| == 2
    ensures LeftRecord(z, b, m, st, st') && Staged(b, us, m) == After(b, us, m)
  {
    hide PiecesOf, CaptureSquare, After, MaterialTerm, Xor;
  }

  lemma QuietLeaves(z: Zobrist, b: Board, us: Color, m: Move, st: StateInfo)
    requires m.kind != Castling && b[CaptureSquare(m)] == NoPiece && !IsCapture(b, m) && |st.nonPawnMaterial| == 2
    ensures LeftRecord(z, b, m, st, st) && Staged(b, us, m) == b && LeaveKeys(z, b, us, m) == ZERO
  {
    OfNothing(z, CaptureSquare(m));
    hide PiecesOf, CaptureSquare;
  }

  /** The mover's keys, the old en-passant square and the rights. */
  method Carry(z: Zobrist, pc: Piece, from: Square, to: Square, mask: seq<set<Right>>, st: StateInfo, key: Key,
               ghost parent: StateInfo, ghost w: Key, ghost d: KeyVector)
    returns (st': StateInfo, key': Key)
    requires pc.Piece? && |mask| == 64 && Carried(parent, st, key, w, d)
    ensures st' ==
            st.(pawnKey := st'.pawnKey, minorPieceKey := st'.minorPieceKey, nonPawnKey := st'.nonPawnKey,
                epSquare := None,
                       castlingRights := st.castlingRights - (mask[from] + mask[to]))
    ensures Carried(parent, st', key',
                    Xor(Xor(Xor(w, EpKey(z, st.epSquare)), z.castling(st.castlingRights)),
                        z.castling(st'.castlingRights)),
                    Sum(Sum(d, Of(z, pc, from)), Of(z, pc, to)))
  {
    hide Carried, Sum, Of, Xor, EpKey;
    st', key' := Toggle(z, st, key, pc, from, parent, w, d);
    st', key' := Toggle(z, st', key', pc, to, parent, w, Sum(d, Of(z, pc, from)));
    st', key' := ClearEp(z, st', key', parent, w, Sum(Sum(d, Of(z, pc, from)), Of(z, pc, to)));
    st', key' := StripRights(z, st', key', mask, from, to, parent, Xor(w, EpKey(z, st.epSquare)),
                             Sum(Sum(d, Of(z, pc, from)), Of(z, pc, to)));
  }

  /** The whole of the record, keys and all. */
  lemma ChildRecordHolds(z: Zobrist, p: Pos, m: Move, mask: seq<set<Right>>, parent: StateInfo, st0: StateInfo,
                         st1: StateInfo,
                         st2: StateInfo, st: StateInfo, key: Key)
    requires WellFormed(p) && PseudoLegal(p, m) && CountersFresh(p, parent) && MaskFresh(p, mask) &&
             MaterialFresh(z, p.board, parent)
    requires st0 == parent.(rule50 := parent.rule50 + 1, pliesFromNull := parent.pliesFromNull + 1)
    requires LeftRecord(z, p.board, m, st0, st1)
    requires st2 ==
             st1.(pawnKey := st2.pawnKey, minorPieceKey := st2.minorPieceKey, nonPawnKey := st2.nonPawnKey,
                  epSquare := None,
                         castlingRights := st1.castlingRights - (mask[m.from] + mask[LandSquare(p.side, m)]))
    requires if p.board[m.from] == Piece(p.side, Pawn)
             then PawnRecorded(z, p.board, p.side, m, st2, st) && st.epSquare == NextEp(p, m)
             else st == st2
    requires var w := Xor(Xor(Xor(z.side, EpKey(z, st1.epSquare)), z.castling(st1.castlingRights)),
                          z.castling(st2.castlingRights));
             Carried(parent, st, key, Xor(w, EpKey(z, st.epSquare)), MoveKeys(z, p.board, p.side, m))
    ensures ChildRecord(z, p, m, parent, st, key)
    ensures st.rule50 == 0 || st.rule50 == parent.rule50 + 1
    ensures st.pliesFromNull == parent.pliesFromNull + 1 && st.threats == parent.threats
  {
    MaterialHas(z, p.board, parent);
    RecordAddsUp(z, p, m, mask, parent, st0, st1, st2, st);
    assert st1.epSquare == p.ep && st1.castlingRights == p.rights;
    assert st.epSquare == Next(p, m).ep && st.castlingRights == st2.castlingRights == Next(p, m).rights;
    hide WellFormed, PseudoLegal, MaskFresh, MaterialStep, NonPawnStep, Carried, MoveKeys, Xor, EpKey, LeftRecord,
         PawnRecorded, Next, NextEp;
  }

  /** The pawn branch may read the staged board: it differs from the parent's only after en
      passant, where nothing it reads matters. */
  lemma StagedPawn(z: Zobrist, p: Pos, m: Move, parent: StateInfo)
    requires WellFormed(p) && PseudoLegal(p, m) && p.board[m.from] == Piece(p.side, Pawn)
    requires HasKing(p.board, White) && HasKing(p.board, Black) && PinsFresh(p.board, parent)
    ensures |parent.blockers| == 2
    ensures var b0 := Staged(p.board, p.side, m);
            && HasKing(b0, Flip(p.side))
            && NextEp(p, m) == PinnedEp(b0, p.side, m, parent.blockers[ColorIndex(Flip(p.side))])
            && (FlipsBit4(m.from, m.to) ==> m.kind == Normal && 0 <= m.to - Up(p.side) < 64)
            && (forall st, st' :: PawnRecorded(z, b0, p.side, m, st, st') ==>
                 PawnRecorded(z, p.board, p.side, m, st, st'))
  {
    hide *;
    MoverIs(p, m);
    NotCastling(p, m);
    EpAgrees(p, m);
    BlockersOf(p.board, p.side, parent);
    if m.kind == EnPassant {
      EpSquares(p, m);
      VictimGone(p.board, Flip(p.side), VictimSquare(m), Piece(Flip(p.side), Pawn));
      NoPushEp(p.board, p.side, m, parent.blockers[ColorIndex(Flip(p.side))]);
    }
    StagedIs(p.board, p.side, m);
    PawnRecordedAlike(z, p.board, p.side, m);
  }

  lemma NotCastling(p: Pos, m: Move)
    requires WellFormed(p) && PseudoLegal(p, m) && p.board[m.from] == Piece(p.side, Pawn)
    ensures m.kind != Castling
  {
    MoverIs(p, m);
    hide WellFormed, PseudoLegal;
  }

  lemma BlockersOf(b: Board, us: Color, parent: StateInfo)
    requires HasKing(b, White) && HasKing(b, Black) && PinsFresh(b, parent)
    ensures |parent.blockers| == 2 && HasKing(b, Flip(us)) && 0 <= ColorIndex(Flip(us)) < 2
    ensures parent.blockers[ColorIndex(Flip(us))] == BlockersBB(b, us, KingOf(b, Flip(us)))
  {
    FlipTwice(us);
    hide KingOf, HasKing, BlockersBB, PinnersBB;
  }

  lemma VictimGone(b: Board, c: Color, v: Square, pawn: Piece)
    requires HasKing(b, c) && b[v] == pawn && pawn.Piece? && pawn.kind == Pawn
    ensures HasKing(b[v := NoPiece], c)
  {
    var k := KingOf(b, c);
    assert IsKing(b[v := NoPiece], c, k);
    hide KingOf;
  }

  lemma NoPushEp(b: Board, us: Color, m: Move, blockers: Bitboard)
    requires !FlipsBit4(m.from, m.to)
    ensures forall b': Board :: HasKing(b', Flip(us)) ==> PinnedEp(b', us, m, blockers) == None
  {
    hide PushEpTest, HasKing, KingOf;
  }

  lemma StagedIs(b: Board, us: Color, m: Move)
    ensures m.kind == Normal || m.kind == Promotion ==> Staged(b, us, m) == b
    ensures m.kind == EnPassant ==> Staged(b, us, m) == b[VictimSquare(m) := NoPiece]
  {
    hide VictimSquare;
  }

  /** Only a promotion's record reads the board. */
  lemma PawnRecordedAlike(z: Zobrist, b: Board, us: Color, m: Move)
    ensures m.kind != Promotion ==>
              forall b': Board, st, st' :: PawnRecorded(z, b', us, m, st, st') ==> PawnRecorded(z, b, us, m, st, st')
  {
    hide PiecesOf, Xor;
  }

  lemma MakeReady(z: Zobrist, p: Pos, m: Move, parent: StateInfo, mask: seq<set<Right>>)
    requires HasKing(p.board, White) && HasKing(p.board, Black) && Fresh(z, p, parent)
    requires WellFormed(p) && PseudoLegal(p, m) && MaskFresh(p, mask)
    ensures MoveScene(p.board, p.side, m) && Recordable(z, p, m, parent, mask)
  {
    hide *;
    SceneHolds(p, m);
    FreshParts(z, p, parent);
    TwoNonPawnKeys(z, p, parent);
    RecordableOf(z, p, m, parent, mask);
  }

  lemma RecordableOf(z: Zobrist, p: Pos, m: Move, parent: StateInfo, mask: seq<set<Right>>)
    requires HasKing(p.board, White) && HasKing(p.board, Black) && PinsFresh(p.board, parent)
    requires WellFormed(p) && PseudoLegal(p, m) && MaskFresh(p, mask) && |parent.nonPawnKey| == 2
    requires CountersFresh(p, parent) && MaterialFresh(z, p.board, parent)
    ensures Recordable(z, p, m, parent, mask)
  {
    hide WellFormed, PseudoLegal, MaskFresh, CountersFresh, MaterialFresh, PinsFresh;
  }

  lemma TwoNonPawnKeys(z: Zobrist, p: Pos, st: StateInfo)
    requires KeysFresh(z, p, st)
    ensures |st.nonPawnKey| == 2
  {
  }

  lemma DirtyPromoted(b: Board, us: Color, m: Move)
    requires m.kind == Promotion ==> b[m.from].Piece?
    ensures DirtyOf(b, us, m) ==
            if m.kind == Promotion
              then DirtyLeft(b, us, m).(addPc := Piece(us, m.promo), addSq := Some(m.to), to := None)
            else DirtyLeft(b, us, m)
  {
    hide CaptureSquare;
  }

  lemma CapturedIs(p: Pos, m: Move)
    ensures Captured(p, m) == if m.kind == Castling then NoPiece else p.board[CaptureSquare(m)]
  {
  }

  /** What the record of a child is computed from. */
  ghost predicate Recordable(z: Zobrist, p: Pos, m: Move, parent: StateInfo, mask: seq<set<Right>>) {
    && WellFormed(p) && PseudoLegal(p, m) && MaskFresh(p, mask) && |parent.nonPawnKey| == 2
    && CountersFresh(p, parent) && MaterialFresh(z, p.board, parent) && PinsFresh(p.board, parent)
  }

  lemma RecordableHas(z: Zobrist, p: Pos, m: Move, parent: StateInfo, mask: seq<set<Right>>)
    requires Recordable(z, p, m, parent, mask)
    ensures HasKing(p.board, White) && HasKing(p.board, Black) && PinsFresh(p.board, parent) && |parent.blockers| == 2
    ensures WellFormed(p) && PseudoLegal(p, m) && MaskFresh(p, mask) && CountersFresh(p, parent) &&
            MaterialFresh(z, p.board, parent)
    ensures |parent.nonPawnKey| == 2 && |parent.nonPawnMaterial| == 2 && |mask| == 64
    ensures p.board[m.from].Piece? && (p.board[m.from].kind == Pawn <==> p.board[m.from] == Piece(p.side, Pawn))
  {
    assert WellFormed(p) && MaskFresh(p, mask) && PinsFresh(p.board, parent) && CountersFresh(p, parent);
    MoverIs(p, m);
    MaterialHas(z, p.board, parent);
    hide PseudoLegal, CountersFresh, MaterialFresh, BlockersBB, PinnersBB, KingOf, HasKing, InCheck, RightsHome,
         EpSound, PawnsInside, IsKing;
  }

  /** m gives check: the argument pos_do_move trusts. */
  ghost predicate ChecksAfter(p: Pos, m: Move) {
    var b' := After(p.board, p.side, m);
    HasKing(b', Flip(p.side)) && InCheck(b', Flip(p.side))
  }

  /** The top of a chain, ready for a move. */
  lemma ChainTop(z: Zobrist, trail: seq<Pos>, words: seq<Option<Move>>, states: seq<StateInfo>,
                 rookSquare: map<Right, Square>,
                 path: map<Right, Bitboard>, mask: seq<set<Right>>)
    requires |trail| == |states| == |words| + 1 && Chain(z, trail, words, states, rookSquare, path, mask)
    ensures NodeFresh(z, trail[|trail| - 1], states[|states| - 1], rookSquare, path, mask) && ChainCounters(states)
  {
    hide NodeFresh, ChainCounters, RepetitionsFresh, Linked;
  }

  lemma NodeWellFormedFresh(z: Zobrist, p: Pos, st: StateInfo, rookSquare: map<Right, Square>,
                            path: map<Right, Bitboard>, mask: seq<set<Right>>)
    requires NodeFresh(z, p, st, rookSquare, path, mask)
    ensures WellFormed(p) && HasKing(p.board, White) && HasKing(p.board, Black) && Fresh(z, p, st)
    ensures PathsFresh(p, rookSquare, path) && MaskFresh(p, mask)
  {
    hide Fresh, PathsFresh, MaskFresh, InCheck, PawnsInside, RightsHome, EpSound, HasKing;
  }

  lemma MakeScene(z: Zobrist, p: Pos, m: Move, parent: StateInfo, rookSquare: map<Right, Square>,
                  path: map<Right, Bitboard>,
                  mask: seq<set<Right>>)
    requires NodeFresh(z, p, parent, rookSquare, path, mask) && PseudoLegal(p, m)
    ensures MoveScene(p.board, p.side, m) && Recordable(z, p, m, parent, mask)
  {
    hide *;
    NodeWellFormedFresh(z, p, parent, rookSquare, path, mask);
    MakeReady(z, p, m, parent, mask);
  }

  lemma LegalIs(p: Pos, m: Move)
    requires Legal(p, m)
    ensures PseudoLegal(p, m)
  {
  }

  /** The child's checkers come from the gives-check argument: nothing, or one attackers scan. */
  lemma CheckersArrive(p: Pos, m: Move, v: View)
    requires WellFormed(p) && Legal(p, m) && v.board == Next(p, m).board && HasKing(v.board, Flip(p.side))
    requires TypesSynced(v.board, v.byType) && ColorsSynced(v.board, v.byColor)
    ensures var k := KingOf(v.board, Flip(p.side));
            AttackersBB(v.board, p.side, k, Occupied(v.board)) ==
            if ChecksAfter(p, m) then AttackersTo(v, k, Occupied(v.board)) * PiecesC(v, p.side) else {}
  {
    FlipTwice(p.side);
    NextShape(p, m);
    var k := KingOf(v.board, Flip(p.side));
    hide WellFormed, Legal, Next, After, AttackersTo, KingOf, HasKing, TypesSynced, ColorsSynced, Occupied, InCheck,
         AttackersBB, PiecesC;
    CheckersScan(v.board, v, p.side, k, Occupied(v.board));
    if !ChecksAfter(p, m) {
      NoCheckers(v.board, Flip(p.side));
    }
  }

  lemma NextKings(p: Pos, m: Move)
    requires WellFormed(p) && Legal(p, m)
    ensures WellFormed(Next(p, m)) && HasKing(Next(p, m).board, White) && HasKing(Next(p, m).board, Black)
  {
    hide *;
    NextWellFormed(p, m);
    WellFormedSides(Next(p, m));
  }

  lemma RecordKept(z: Zobrist, p: Pos, m: Move, parent: StateInfo, st: StateInfo, st': StateInfo, key: Key)
    requires ChildRecord(z, p, m, parent, st, key)
    requires st' ==
             st.(capturedPiece := st'.capturedPiece, key := key, checkers := st'.checkers, blockers := st'.blockers,
                        pinners := st'.pinners, checkSquares := st'.checkSquares, threats := st'.threats,
                          repetition := st'.repetition)
    ensures ChildRecord(z, p, m, parent, st', st'.key)
  {
    hide Sum, MoveExtra, MoveKeys, MaterialStep, NonPawnStep, Next, Whole;
  }

  lemma LinkedBy(p: Pos, m: Move, st: StateInfo)
    requires WellFormed(p) && Legal(p, m) && st.capturedPiece == Captured(p, m)
    ensures Linked(p, Some(m), Next(p, m), st)
  {
    hide WellFormed, Legal, Next, Captured;
  }

  /** The caches of a record with only its repetition field changed. */
  lemma FreshRepeated(z: Zobrist, p: Pos, st: StateInfo, rep: int)
    requires HasKing(p.board, White) && HasKing(p.board, Black) && Fresh(z, p, st)
    ensures Fresh(z, p, st.(repetition := rep))
  {
    hide KingOf, HasKing, AttackersBB, BlockersBB, PinnersBB, CheckSquaresBB, AllThreatsBB, ThreatsBB, Fold,
         MaterialKey, NonPawnMaterial, PositionKey;
  }

  lemma TablesAre(v: View)
    requires TypesSynced(v.board, v.byType) && ColorsSynced(v.board, v.byColor)
    ensures |v.byType| == 7 && |v.byColor| == 2 && Pieces(v) == Occupied(v.board)
  {
  }

  lemma CountersPush(states: seq<StateInfo>, st: StateInfo)
    requires |states| > 0 && ChainCounters(states)
    requires st.rule50 == 0 || st.rule50 == states[|states| - 1].rule50 + 1
    requires st.pliesFromNull == states[|states| - 1].pliesFromNull + 1
    ensures ChainCounters(states + [st])
  {
    CountersExtend(states, st);
  }

  lemma RepetitionPushed(states: seq<StateInfo>, st: StateInfo, st': StateInfo)
    requires st' == st.(repetition := st'.repetition) && ChainCounters(states + [st])
    requires var more := states + [st];
             forall x :: x == more[|more| - 1].(repetition := st'.repetition) ==>
               RepetitionFresh(more[..|more| - 1] + [x], |more| - 1)
    ensures ChainCounters(states + [st']) && RepetitionFresh(states + [st'], |states|)
  {
    var more := states + [st];
    assert more[..|more| - 1] == states;
    assert st' == more[|more| - 1].(repetition := st'.repetition);
    assert RepetitionFresh(more[..|more| - 1] + [st'], |more| - 1);
    hide RepetitionFresh;
  }

  lemma CountersAre(z: Zobrist, p: Pos, st: StateInfo)
    requires HasKing(p.board, White) && HasKing(p.board, Black) && Fresh(z, p, st)
    ensures CountersFresh(p, st)
  {
    hide AuxKeysFresh, MaterialFresh, PinsFresh, CheckSquaresFresh, ThreatsFresh, KingOf, HasKing, CountersFresh;
  }

  /** The staged board is what Land expects, and what it leaves is the board after m. */
  lemma LandScene(b: Board, us: Color, m: Move)
    requires MoveScene(b, us, m)
    ensures var b0 := Staged(b, us, m);
            if m.kind == Castling then b0 == After(b, us, m)
            else
              && m.from != m.to && IsColor(b0, us, m.from)
              && b0[m.to] == (if m.kind == EnPassant then NoPiece else b[CaptureSquare(m)])
              && (m.kind == Promotion || m.kind == EnPassant ==> b0[m.from].kind == Pawn)
              && (m.kind == EnPassant ==> b[CaptureSquare(m)] != NoPiece)
              && (m.kind != Promotion && b0[m.to] == NoPiece ==> Clear(m.from, m.to, Occupied(b0)))
              && b0[m.from := NoPiece][m.to := Arrives(b0, us, m)] == After(b, us, m)
  {
    hide Clear, Occupied, CastlingLifts, Castled;
  }

  lemma ThreatsHave(z: Zobrist, p: Pos, st: StateInfo, rookSquare: map<Right, Square>, path: map<Right, Bitboard>,
                    mask: seq<set<Right>>)
    requires NodeFresh(z, p, st, rookSquare, path, mask)
    ensures |st.threats| == 7
  {
    hide AuxKeysFresh, MaterialFresh, PinsFresh, CheckSquaresFresh, CountersFresh, PathsFresh, MaskFresh, KingOf,
         HasKing, InCheck,
         EpSound, RightsHome, PawnsInside;
  }

  // ----- taking a move back -----

  /** The squares a move touched can be emptied and filled again in reverse. */
  lemma UndoScene(b: Board, us: Color, m: Move)
    requires MoveScene(b, us, m)
    ensures var b' := After(b, us, m);
            var r := CastlingRight(us, m);
            if m.kind == Castling then
              && Rank(m.from) == BackRank(us) && CastlingLifts(b', us, KingTarget(r), m.from, RookTarget(r), m.to)
              && Castled(b', us, KingTarget(r), m.from, RookTarget(r), m.to) == b
            else
              var c := CaptureSquare(m);
              var b1: Board := if m.kind == Promotion then b'[m.to := Piece(us, Pawn)] else b';
              var b2: Board := b1[m.to := NoPiece][m.from := b1[m.to]];
              && b'[m.to].Piece? && b1[m.from] == NoPiece && m.from != m.to
              && b2[c] == NoPiece && b2[c := b[c]] == b
              && c == (if m.kind == EnPassant then m.to - Up(us) else m.to)
  {
    if m.kind == Castling {
      CastlingUndone(b, us, m);
      hide KingTarget, RookTarget, CastlingRight, CastlingLifts, Castled;
    } else {
      hide Clear, Occupied, CastlingLifts, Castled, VictimSquare;
    }
  }

  lemma CastlingRightOf(us: Color, m: Move)
    ensures CastlingRight(us, Move(Castling, m.from, m.to, Knight)) == CastlingRight(us, m)
  {
  }

  lemma CastlingUndone(b: Board, us: Color, m: Move)
    requires m.kind == Castling && MoveScene(b, us, m)
    ensures var b' := After(b, us, m);
            var r := CastlingRight(us, m);
            && Rank(m.from) == BackRank(us) && CastlingLifts(b', us, KingTarget(r), m.from, RookTarget(r), m.to)
            && Castled(b', us, KingTarget(r), m.from, RookTarget(r), m.to) == b
  {
    hide KingTarget, RookTarget, CastlingRight, Clear, Occupied, Arrives, CaptureSquare;
  }

  lemma ChainLast(z: Zobrist, trail: seq<Pos>, words: seq<Option<Move>>, states: seq<StateInfo>,
                  rookSquare: map<Right, Square>,
                  path: map<Right, Bitboard>, mask: seq<set<Right>>)
    requires |trail| == |states| == |words| + 1 && |words| > 0 && Chain(z, trail, words, states, rookSquare, path, mask)
    ensures Linked(trail[|trail| - 2], words[|words| - 1], trail[|trail| - 1], states[|states| - 1])
    ensures trail[|trail| - 2].rooks == rookSquare && CountersFresh(trail[|trail| - 2], states[|states| - 2])
  {
    var i := |trail| - 2;
    assert Linked(trail[i], words[i], trail[i + 1], states[i + 1]);
    assert NodeFresh(z, trail[i], states[i], rookSquare, path, mask);
    hide ChainCounters, RepetitionsFresh, Linked, WellFormed, AuxKeysFresh, MaterialFresh, PinsFresh,
         CheckSquaresFresh, ThreatsFresh,
         MaskFresh, CountersFresh;
  }

  lemma LinkedMove(p: Pos, m: Move, p': Pos, st': StateInfo)
    requires Linked(p, Some(m), p', st')
    ensures WellFormed(p) && PseudoLegal(p, m) && MoveScene(p.board, p.side, m) && p' == Next(p, m) &&
            st'.capturedPiece == Captured(p, m)
    ensures p'.board == After(p.board, p.side, m) && p'.side == Flip(p.side) && p'.rooks == p.rooks &&
            p'.gamePly == p.gamePly + 1
  {
    assert WellFormed(p) && PseudoLegal(p, m);
    SceneHolds(p, m);
    hide WellFormed, PseudoLegal, MoveScene, Captured;
  }

  lemma LinkedNull(p: Pos, p': Pos, st': StateInfo)
    requires Linked(p, None, p', st')
    ensures p' == NextNull(p)
  {
    hide WellFormed;
  }

  // ----- the null move -----

  /** The record of a null move before its caches are filled. */
  ghost predicate NullRecord(z: Zobrist, parent: StateInfo, st: StateInfo) {
    && KeysOnly(parent.(pliesFromNull := 0, epSquare := None, key := st.key, checkers := st.checkers,
                        blockers := st.blockers,
                        pinners := st.pinners, checkSquares := st.checkSquares, threats := st.threats,
                          capturedPiece := NoPiece,
                        repetition := 0), st)
    && st.pawnKey == parent.pawnKey && st.minorPieceKey == parent.minorPieceKey && st.nonPawnKey == parent.nonPawnKey
    && st.key == Xor(Xor(parent.key, z.side), EpKey(z, parent.epSquare))
    && st.checkers == parent.checkers
  }

  lemma NullKeys(z: Zobrist, p: Pos, parent: StateInfo, st: StateInfo)
    requires HasKing(p.board, White) && HasKing(p.board, Black)
    requires Fresh(z, p, parent) && NullRecord(z, parent, st)
    ensures KeysFresh(z, NextNull(p), st) && MaterialFresh(z, p.board, st) && CountersFresh(NextNull(p), st)
  {
    FreshParts(z, p, parent);
    TwoNonPawnKeys(z, p, parent);
    assert parent.epSquare == p.ep;
    hide Fresh, EpKey, MaterialKey, NonPawnMaterial, PositionKey, Fold, HasKing;
    var w := Xor(z.side, EpKey(z, p.ep));
    var base := Held(parent, parent.key);
    assert Carried(parent, st, st.key, w, ZERO) by {
      NullCarried(z, parent, st, p.ep);
    }
    NullExtra(z, p);
    SumZero(BoardKeys(z, p.board));
    hide KeysFresh, Carried, Extra, BoardKeys;
    KeysArrive(z, p, NextNull(p), parent, st, w, ZERO);
  }

  lemma NullCarried(z: Zobrist, parent: StateInfo, st: StateInfo, ep: Option<Square>)
    requires |parent.nonPawnKey| == 2 && NullRecord(z, parent, st) && parent.epSquare == ep
    ensures Carried(parent, st, st.key, Xor(z.side, EpKey(z, ep)), ZERO)
  {
    var st0 := parent.(rule50 := parent.rule50, pliesFromNull := parent.pliesFromNull);
    CarriedStart(z, parent, st0);
    ToggleWhole(parent, st0, Xor(parent.key, z.side), z.side, ZERO, EpKey(z, ep));
    CarriedSame(parent, st0, st, st.key, Xor(z.side, EpKey(z, ep)), ZERO);
    hide Sum, Xor, EpKey;
  }

  lemma NullExtra(z: Zobrist, p: Pos)
    ensures Extra(z, NextNull(p)) == Xor(Extra(z, p), Xor(z.side, EpKey(z, p.ep)))
  {
    var e, s0, s1, s, c := EpKey(z, p.ep), SideKey(z, p.side), SideKey(z, Flip(p.side)), z.side, z.castling(p.rights);
    assert s1 == Xor(s0, s);
    assert EpKey(z, None) == {};
    hide EpKey, SideKey;
    NullXors(e, s0, s1, s, c);
  }

  lemma NullXors(e: Key, s0: Key, s1: Key, s: Key, c: Key)
    requires s1 == Xor(s0, s)
    ensures Xor(Xor({}, s1), c) == Xor(Xor(Xor(e, s0), c), Xor(s, e))
  {
  }

  /** Neither side is in check, so the carried checkers are the new mover's too. */
  lemma NullCheckers(p: Pos, parent: StateInfo)
    requires WellFormed(p) && HasKing(p.board, p.side) && !InCheck(p.board, p.side)
    requires parent.checkers == AttackersBB(p.board, Flip(p.side), KingOf(p.board, p.side), Occupied(p.board))
    ensures HasKing(p.board, Flip(p.side))
    ensures parent.checkers == AttackersBB(p.board, p.side, KingOf(p.board, Flip(p.side)), Occupied(p.board))
  {
    WellFormedSides(p);
    FlipTwice(p.side);
    NoCheckers(p.board, p.side);
    NoCheckers(p.board, Flip(p.side));
    hide WellFormed, AttackersBB, KingOf, HasKing;
  }

  lemma NullNode(z: Zobrist, p: Pos, st: StateInfo, rookSquare: map<Right, Square>, path: map<Right, Bitboard>,
                 mask: seq<set<Right>>)
    requires WellFormed(p) && HasKing(p.board, p.side) && !InCheck(p.board, p.side)
    requires PathsFresh(p, rookSquare, path) && MaskFresh(p, mask)
    requires HasKing(p.board, White) && HasKing(p.board, Black) && Fresh(z, NextNull(p), st)
    ensures NodeFresh(z, NextNull(p), st, rookSquare, path, mask)
  {
    hide *;
    NextNullWellFormed(p);
    NullHomes(p, rookSquare, path, mask);
    NullSides(p);
    NodeOf(z, NextNull(p), st, rookSquare, path, mask);
  }

  lemma NullSides(p: Pos)
    ensures NextNull(p).board == p.board && NextNull(p).side == Flip(p.side) && NextNull(p).rooks == p.rooks &&
            NextNull(p).gamePly == p.gamePly
  {
  }

  lemma NullHomes(p: Pos, rookSquare: map<Right, Square>, path: map<Right, Bitboard>, mask: seq<set<Right>>)
    requires PathsFresh(p, rookSquare, path) && MaskFresh(p, mask)
    ensures PathsFresh(NextNull(p), rookSquare, path) && MaskFresh(NextNull(p), mask)
  {
    hide IsKing, CastlingPath;
  }

  lemma NullCounters(states: seq<StateInfo>, st: StateInfo)
    requires |states| > 0 && ChainCounters(states) && st.pliesFromNull == 0 && st.repetition == 0
    ensures ChainCounters(states + [st]) && RepetitionFresh(states + [st], |states|)
  {
    CountersExtend(states, st);
  }

  /** What the accumulator is told of a null move. */
  const NO_DIRTY := DirtyPiece(NoPiece, None, None, None, NoPiece, None, NoPiece)

  lemma LinkedByNull(p: Pos, st: StateInfo)
    requires WellFormed(p) && !InCheck(p.board, p.side)
    ensures Linked(p, None, NextNull(p), st)
  {
    hide WellFormed;
  }

  lemma NullKeyOf(z: Zobrist, parent: StateInfo)
    ensures Xor(Xor(parent.key, z.side), EpKey(z, parent.epSquare)) ==
            if parent.epSquare.Some? then Xor(Xor(parent.key, z.side), z.enpassant(File(parent.epSquare.value)))
            else Xor(parent.key, z.side)
  {
    XorNothing(Xor(parent.key, z.side));
    hide Xor;
  }

  lemma NullRecordOf(z: Zobrist, parent: StateInfo, st: StateInfo)
    requires st ==
             parent.(key := st.key, epSquare := None, pliesFromNull := 0, capturedPiece := NoPiece,
                     blockers := st.blockers,
                           pinners := st.pinners, checkSquares := st.checkSquares, threats := st.threats,
                             repetition := 0)
    requires st.key == Xor(Xor(parent.key, z.side), EpKey(z, parent.epSquare))
    ensures NullRecord(z, parent, st)
  {
    hide Xor, EpKey;
  }

  lemma CachesRepeated(b: Board, us: Color, st: StateInfo, rep: int)
    requires HasKing(b, White) && HasKing(b, Black)
    requires PinsFresh(b, st) && CheckSquaresFresh(b, us, st) && ThreatsFresh(b, us, st)
    ensures PinsFresh(b, st.(repetition := rep)) && CheckSquaresFresh(b, us, st.(repetition := rep))
    ensures ThreatsFresh(b, us, st.(repetition := rep))
  {
    hide KingOf, HasKing, BlockersBB, PinnersBB, CheckSquaresBB, AllThreatsBB, ThreatsBB;
  }

  // ----- reading through the chain -----

  lemma RepresentsOf(z: Zobrist, p: Pos, v: View)
    requires HasKing(p.board, White) && HasKing(p.board, Black) && Fresh(z, p, v.st)
    requires v.board == p.board && v.side == p.side && TypesSynced(p.board, v.byType) &&
             ColorsSynced(p.board, v.byColor)
    requires PathsFresh(p, v.castlingRookSquare, v.castlingPath)
    ensures Represents(z, p, v)
  {
    hide Fresh, PathsFresh, TypesSynced, ColorsSynced, HasKing;
  }

  lemma ReadableOf(b: Board, v: View)
    requires HasKing(b, White) && HasKing(b, Black) && PinsFresh(b, v.st) && |v.st.threats| == 7 && v.board == b
    requires TypesSynced(b, v.byType) && ColorsSynced(b, v.byColor)
    ensures MoveGen.Readable(v)
  {
    KingSquareExact(b, v, White);
    KingSquareExact(b, v, Black);
    hide KingOf, HasKing, BlockersBB, PinnersBB, PiecesCP, KingSquare;
  }

  lemma KingOfIsKing(b: Board, c: Color)
    requires HasKing(b, c)
    ensures IsKing(b, c, KingOf(b, c))
  {
  }

  /** The record with its threat sets filled in. */
  lemma FreshFilled(z: Zobrist, p: Pos, st: StateInfo, threats: seq<Bitboard>)
    requires HasKing(p.board, White) && HasKing(p.board, Black) && HasKing(p.board, p.side)
    requires |threats| == 7 && threats[0] == AllThreatsBB(p.board, Flip(p.side), KingOf(p.board, p.side))
    requires forall kind: PieceType ::
             threats[TypeIndex(kind)] == ThreatsBB(p.board, Flip(p.side), KingOf(p.board, p.side), kind)
    requires Fresh(z, p, st)
    ensures Fresh(z, p, st.(threats := threats)) && ThreatsFresh(p.board, p.side, st.(threats := threats))
  {
    hide KingOf, HasKing, AttackersBB, BlockersBB, PinnersBB, CheckSquaresBB, AllThreatsBB, ThreatsBB, Fold,
         MaterialKey, NonPawnMaterial,
         PositionKey;
  }

  lemma ThreatsAre(b: Board, us: Color, st: StateInfo)
    requires HasKing(b, us) && ThreatsFresh(b, us, st) && |st.threats| == 7 && st.threats[0] != {}
    ensures st.threats[0] == AllThreatsBB(b, Flip(us), KingOf(b, us))
    ensures forall kind: PieceType ::
              0 <= TypeIndex(kind) < 7 && st.threats[TypeIndex(kind)] == ThreatsBB(b, Flip(us), KingOf(b, us), kind)
    ensures forall kind: PieceType :: TypeIndex(kind) != 0
  {
    hide KingOf, HasKing, AllThreatsBB, ThreatsBB;
  }

  /** Rewriting the top record's caches leaves the chain a chain. */
  lemma ChainRefill(z: Zobrist, trail: seq<Pos>, words: seq<Option<Move>>, states: seq<StateInfo>,
                    rookSquare: map<Right, Square>,
                    path: map<Right, Bitboard>, mask: seq<set<Right>>, st: StateInfo)
    requires |trail| == |states| == |words| + 1
    requires Chain(z, trail, words, states, rookSquare, path, mask)
    requires NodeFresh(z, trail[|trail| - 1], st, rookSquare, path, mask)
    requires st == states[|states| - 1].(threats := st.threats)
    ensures Chain(z, trail, words, states[..|states| - 1] + [st], rookSquare, path, mask)
  {
    hide *;
    ChainHas(z, trail, words, states, rookSquare, path, mask);
    RepetitionsRefill(states, st);
    LinksRefill(trail, words, states, st);
    NodesRefill(z, trail, states, rookSquare, path, mask, st);
    ChainOf(z, trail, words, states[..|states| - 1] + [st], rookSquare, path, mask);
  }

  lemma ChainHas(z: Zobrist, trail: seq<Pos>, words: seq<Option<Move>>, states: seq<StateInfo>,
                 rookSquare: map<Right, Square>,
                 path: map<Right, Bitboard>, mask: seq<set<Right>>)
    requires |trail| == |states| == |words| + 1
    ensures Chain(z, trail, words, states, rookSquare, path, mask) <==>
              && NodesFresh(z, trail, states, rookSquare, path, mask) && LinksHold(trail, words, states)
              && ChainCounters(states) && RepetitionsFresh(states)
  {
    hide NodesFresh, LinksHold, ChainCounters, RepetitionsFresh;
  }

  lemma ChainOf(z: Zobrist, trail: seq<Pos>, words: seq<Option<Move>>, states: seq<StateInfo>,
                rookSquare: map<Right, Square>,
                path: map<Right, Bitboard>, mask: seq<set<Right>>)
    requires |trail| == |states| == |words| + 1
    requires NodesFresh(z, trail, states, rookSquare, path, mask) && LinksHold(trail, words, states)
    requires ChainCounters(states) && RepetitionsFresh(states)
    ensures Chain(z, trail, words, states, rookSquare, path, mask)
  {
    hide NodesFresh, LinksHold, ChainCounters, RepetitionsFresh;
  }

  lemma RepetitionsRefill(states: seq<StateInfo>, st: StateInfo)
    requires |states| > 0 && ChainCounters(states) && RepetitionsFresh(states) &&
             st == states[|states| - 1].(threats := st.threats)
    ensures ChainCounters(states[..|states| - 1] + [st]) && RepetitionsFresh(states[..|states| - 1] + [st])
  {
    var more := states[..|states| - 1] + [st];
    forall i | 0 <= i < |more|
      ensures RepetitionFresh(more, i)
    {
      assert RepetitionFresh(states, i);
      forall d
        ensures RecursAt(more, i, d) <==> RecursAt(states, i, d)
      {
      }
    }
    hide RepetitionFresh;
  }

  lemma LinksRefill(trail: seq<Pos>, words: seq<Option<Move>>, states: seq<StateInfo>, st: StateInfo)
    requires |trail| == |states| == |words| + 1 && LinksHold(trail, words, states) &&
             st == states[|states| - 1].(threats := st.threats)
    ensures LinksHold(trail, words, states[..|states| - 1] + [st])
  {
    var more := states[..|states| - 1] + [st];
    forall i | 0 <= i < |words|
      ensures Linked(trail[i], words[i], trail[i + 1], more[i + 1])
    {
      assert Linked(trail[i], words[i], trail[i + 1], states[i + 1]);
      hide WellFormed, Legal, Next, Captured, NextNull;
    }
    hide Linked;
  }

  lemma NodesRefill(z: Zobrist, trail: seq<Pos>, states: seq<StateInfo>, rookSquare: map<Right, Square>,
                    path: map<Right, Bitboard>, mask: seq<set<Right>>, st: StateInfo)
    requires |trail| == |states| > 0 && NodesFresh(z, trail, states, rookSquare, path, mask)
    requires NodeFresh(z, trail[|trail| - 1], st, rookSquare, path, mask)
    ensures NodesFresh(z, trail, states[..|states| - 1] + [st], rookSquare, path, mask)
  {
    hide NodeFresh;
  }
}
