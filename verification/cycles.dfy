/** The upcoming-repetition probe is exact: it answers for a legal move back to an earlier position,
    and for nothing else as long as keys tell what they are drawn to tell. */
module Cycles {
  import opened Squares
  import opened Types
  import opened Board
  import opened Rules
  import opened Attacks
  import opened Derived
  import opened State
  import opened Play
  import opened Chains
  import opened Cuckoo
  import opened Homes
  import opened Upcoming
  import opened Draws
  import Position

  // ----- what the keys are asked to tell -----

  /** b' is b with pc gone from one square to another, empty one. */
  predicate MovedBy(b: Board, b': Board, pc: Piece, from: Square, to: Square) {
    from != to && b[from] == pc && b[to] == NoPiece && b' == b[from := NoPiece][to := pc]
  }

  /** q is p with pc moved between the two squares and the other side to move. */
  predicate StepApart(p: Pos, q: Pos, pc: Piece, s1: Square, s2: Square) {
    && q.side == Flip(p.side) && p.rights == q.rights && p.ep == q.ep
    && (MovedBy(p.board, q.board, pc, s1, s2) || MovedBy(p.board, q.board, pc, s2, s1))
  }

  /** The keys of p and q are different, and differ by a reversible move's key only if the positions
      differ by that move. */
  ghost predicate StepsTell(z: Zobrist, p: Pos, q: Pos) {
    && PositionKey(z, p) != PositionKey(z, q)
    && forall pc: Piece, s1: Square, s2: Square ::
         Reversible(pc, s1, s2) && StepKey(z, pc, s1, s2) == Xor(PositionKey(z, p), PositionKey(z, q)) ==>
           StepApart(p, q, pc, s1, s2)
  }

  /** A piece has a key of its own on every square. Pawns are left out: the key of a pawn on its last
      rank is zero by design, and no pawn's move is reversible. */
  ghost predicate SquaresTell(z: Zobrist) {
    forall pc: Piece, s: Square, t: Square :: pc.Piece? && pc.kind != Pawn && s != t ==> z.psq(pc, s) != z.psq(pc, t)
  }

  /** The zero keys the tables do have. */
  predicate PawnsZeroed(z: Zobrist) {
    forall s: Square :: && (Rank(s) == 7 ==> z.psq(Piece(White, Pawn), s) == {})
                        && (Rank(s) == 0 ==> z.psq(Piece(Black, Pawn), s) == {})
  }

  function PlainKey(pc: Piece, s: int): Key {
    if 0 <= s < 64 && !(pc.Piece? && pc.kind == Pawn && (Rank(s) == 0 || Rank(s) == 7)) then {s} else {}
  }

  /** Tables with those zero keys can tell squares and reversible moves apart. */
  lemma ZeroedCanTell()
    ensures exists z: Zobrist :: PawnsZeroed(z) && SquaresTell(z) && DistinctSteps(z)
  {
    var z := Zobrist(PlainKey, _ => {}, _ => {}, {}, {});
    forall pc: Piece, s1: Square, s2: Square | Reversible(pc, s1, s2)
      ensures StepKey(z, pc, s1, s2) == {s1, s2} && s1 < s2
    {
      hide AttacksBB;
      assert z.psq(pc, s1) == {s1} && z.psq(pc, s2) == {s2};
    }
    hide Reversible, StepKey;
    assert PawnsZeroed(z) && SquaresTell(z);
    hide PlainKey;
    forall pc: Piece, s1: Square, s2: Square, qc: Piece, t1: Square, t2: Square
      | Reversible(pc, s1, s2) && Reversible(qc, t1, t2) && StepKey(z, pc, s1, s2) == StepKey(z, qc, t1, t2)
      ensures s1 == t1 && s2 == t2
    {
      assert s1 in {t1, t2} && s2 in {t1, t2};
    }
    assert DistinctSteps(z) by {
      assert forall pc: Piece, s1: Square, s2: Square :: Reversible(pc, s1, s2) ==> s1 in StepKey(z, pc, s1, s2);
    }
  }

  lemma StepTold(z: Zobrist, p: Pos, q: Pos, pc: Piece, s1: Square, s2: Square)
    requires StepsTell(z, p, q) && Reversible(pc, s1, s2) &&
             StepKey(z, pc, s1, s2) == Xor(PositionKey(z, p), PositionKey(z, q))
    ensures StepApart(p, q, pc, s1, s2)
  {
    hide StepApart, PositionKey, Reversible, StepKey, Xor;
  }

  lemma KeysDiffer(z: Zobrist, p: Pos, q: Pos)
    requires StepsTell(z, p, q)
    ensures Xor(PositionKey(z, p), PositionKey(z, q)) != {}
  {
    XorEmpty(PositionKey(z, p), PositionKey(z, q));
    hide StepApart, PositionKey, Reversible, StepKey, Xor;
  }

  lemma XorEmpty(a: Key, b: Key)
    ensures Xor(a, b) == {} <==> a == b
  {
    if Xor(a, b) == {} {
      forall x
        ensures x in a <==> x in b
      {
        assert x !in Xor(a, b);
      }
    }
  }

  // ----- the answer's move -----

  /** The piece that came back is the mover's: the opponent's own key has not changed. */
  lemma MoverCameBack(z: Zobrist, b: Board, b': Board, pc: Piece, from: Square, to: Square, c: Color)
    requires SquaresTell(z) && pc.Piece? && pc.kind != Pawn && MovedBy(b, b', pc, from, to)
    requires SideFold(z, c, b) == SideFold(z, c, b')
    ensures pc.color != c
  {
    QuietFold(z, NonPawnKey(c), b, from, to);
    XorEmpty(SideFold(z, c, b'), SideFold(z, c, b));
    if pc.color == c {
      assert Term(z, NonPawnKey(c), pc, from) == z.psq(pc, from) && Term(z, NonPawnKey(c), pc, to) == z.psq(pc, to);
      XorEmpty(z.psq(pc, from), z.psq(pc, to));
    }
    hide Fold, Xor, Term;
  }

  lemma StepHits(pc: Piece, s: Square, t: Square, occ: Bitboard)
    requires Reversible(pc, s, t) && Clear(s, t, occ)
    ensures Hits(pc, s, t, occ) && Hits(pc, t, s, occ)
  {
    ClearSym(s, t, occ);
    LineTurned(s, t);
    hide Clear, RookLine, BishopLine;
  }

  lemma LineTurned(s: Square, t: Square)
    ensures (RookLine(s, t) <==> RookLine(t, s)) && (BishopLine(s, t) <==> BishopLine(t, s))
    ensures (KnightStep(s, t) <==> KnightStep(t, s)) && (KingStep(s, t) <==> KingStep(t, s))
  {
    Coords(s); Coords(t);
    hide File, Rank;
  }

  lemma ReversibleKind(pc: Piece, s: Square, t: Square)
    requires Reversible(pc, s, t)
    ensures pc.Piece? && pc.kind != Pawn && s != t
  {
    hide AttacksBB;
  }

  /** That piece's move is a legal one, and the board it leaves is q's. */
  lemma CameBackLegal(p: Pos, q: Pos, pc: Piece, from: Square, to: Square)
    requires WellFormed(q) && q.side == Flip(p.side) && pc.Piece? && pc.color == p.side && pc.kind != Pawn
    requires MovedBy(p.board, q.board, pc, from, to) && Hits(pc, from, to, Occupied(p.board))
    ensures var m := NormalMove(from, to); Legal(p, m) && After(p.board, p.side, m) == q.board && Next(p, m).ep == None
  {
    FlipTwice(p.side);
    assert After(p.board, p.side, NormalMove(from, to)) == q.board;
    hide Hits, Occupied, InCheck, PawnsInside, RightsHome, EpSound, EpAvailable, HasKing, KingOf;
  }

  // ----- held rights keep their king and rook at home -----

  ghost predicate HomesAlike(p: Pos, q: Pos, r: Right) {
    && p.rooks == q.rooks && (forall k: Square :: IsKing(p.board, r.color, k) <==> IsKing(q.board, r.color, k))
    && (r in p.rooks ==> p.board[p.rooks[r]] == q.board[q.rooks[r]])
  }

  lemma QuietKeepsHome(p: Pos, m: Move, r: Right)
    requires WellFormed(p) && Quiet(p.board, m) && r in p.rights && r in Next(p, m).rights
    ensures HomesAlike(p, Next(p, m), r)
  {
    HomeHeld(p, r);
    assert !Touches(p, r, m);
    assert Next(p, m).board == p.board[m.from := NoPiece][m.to := p.board[m.from]];
    assert m.from != m.to;
    hide Next, After;
    forall k: Square
      ensures IsKing(p.board, r.color, k) <==> IsKing(Next(p, m).board, r.color, k)
    {
      KingStays(p.board, Next(p, m).board, r.color, m, k);
    }
    hide IsKing;
  }

  lemma HomeHeld(p: Pos, r: Right)
    requires WellFormed(p) && r in p.rights
    ensures r in p.rooks && p.board[p.rooks[r]].Piece? && exists k: Square :: IsKing(p.board, r.color, k)
  {
    hide IsKing, InCheck, PawnsInside, EpSound, Rank;
  }

  lemma KingStays(b: Board, b': Board, c: Color, m: Move, k: Square)
    requires m.from != m.to && b' == b[m.from := NoPiece][m.to := b[m.from]] && b[m.from].Piece? && b[m.to] == NoPiece
    requires !IsKing(b, c, m.from)
    ensures IsKing(b, c, k) ==> IsKing(b', c, k)
    ensures (exists k0: Square :: IsKing(b, c, k0)) ==> (IsKing(b', c, k) ==> IsKing(b, c, k))
  {
    if k0: Square :| IsKing(b, c, k0) {
      assert b'[k0] == Piece(c, King);
    }
  }

  lemma HomesChain(p: Pos, q: Pos, t: Pos, r: Right)
    requires HomesAlike(p, q, r) && HomesAlike(q, t, r)
    ensures HomesAlike(p, t, r)
  {
    hide IsKing;
  }

  lemma {:induction false} StretchHomes(trail: seq<Pos>, words: seq<Option<Move>>, a: nat, b: nat, r: Right)
    requires Stretch(trail, words, a, b) && trail[a].rights == trail[b].rights && r in trail[a].rights
    ensures HomesAlike(trail[a], trail[b], r)
  {
    hide *;
    StretchSize(trail, words, a, b);
    HomesSelf(trail[b], r);
    if a < b {
      StretchQuiet(trail, words, a, b, b - 1);
      StretchPart(trail, words, a, b - 1, b);
      StretchHomes(trail, words, a, b - 1, r);
      QuietKeepsHome(trail[b - 1], words[b - 1].value, r);
      HomesChain(trail[a], trail[b - 1], trail[b], r);
    }
  }

  lemma HomesSelf(p: Pos, r: Right)
    ensures HomesAlike(p, p, r)
  {
  }

  /** So moving back a piece that came away costs no right. */
  lemma NothingTouched(p: Pos, q: Pos, pc: Piece, from: Square, to: Square)
    requires MovedBy(p.board, q.board, pc, from, to) && pc.Piece? && p.rights == q.rights
    requires WellFormed(p) && forall r :: r in p.rights ==> HomesAlike(q, p, r)
    ensures Next(p, NormalMove(from, to)).rights == p.rights
  {
    var m := NormalMove(from, to);
    forall r | r in p.rights
      ensures !Touches(p, r, m)
    {
      HomeHeld(p, r);
      RightUntouched(p, q, pc, from, to, r);
    }
    hide After, NextEp, Touches, Irreversible, WellFormed, HomesAlike;
  }

  lemma RightUntouched(p: Pos, q: Pos, pc: Piece, from: Square, to: Square, r: Right)
    requires MovedBy(p.board, q.board, pc, from, to) && pc.Piece? && HomesAlike(q, p, r)
    requires r in p.rooks && p.board[p.rooks[r]].Piece?
    ensures !Touches(p, r, NormalMove(from, to))
  {
    KingStands(q.board, r.color, from);
    KingStands(p.board, r.color, to);
    assert q.board[from] == NoPiece && p.board[to] == NoPiece;
    hide IsKing;
  }

  lemma KingStands(b: Board, c: Color, k: Square)
    ensures IsKing(b, c, k) ==> b[k] == Piece(c, King)
  {
  }

  // ----- the theorem -----

  /** A legal move leads from p back to q. */
  ghost predicate LeadsBack(p: Pos, q: Pos) {
    exists m :: Legal(p, m) && SamePlace(Next(p, m), q)
  }

  /** An answer stands for a move back: the converse of ReturnFound. */
  lemma AnswerReal(z: Zobrist, trail: seq<Pos>, words: seq<Option<Move>>, states: seq<StateInfo>,
                   rookSquare: map<Right, Square>,
                   path: map<Right, Bitboard>, mask: seq<set<Right>>, slots: seq<Pair>, i: nat)
    requires |slots| == SLOTS && |states| == |trail| > 0 && 3 <= i <= Window(states[|states| - 1]) && i < |states| &&
             i % 2 == 1
    requires Built(z, slots) && Chain(z, trail, words, states, rookSquare, path, mask)
    requires SquaresTell(z) && StepsTell(z, trail[|trail| - 1], trail[|trail| - 1 - i])
    requires var top := |states| - 1;
             && Undone(z, states, i) == {}
             && Answers(slots, Xor(states[top].key, states[top - i].key), Occupied(trail[top].board))
    ensures LeadsBack(trail[|trail| - 1], trail[|trail| - 1 - i])
  {
    hide *;
    var top := |states| - 1;
    var p, q := trail[top], trail[top - i];
    StretchOf(z, trail, words, states, rookSquare, path, mask, i);
    KeysAre(z, trail, states, top - i);
    KeysDiffer(z, p, q);
    AnswersMeans(z, slots, Xor(states[top].key, states[top - i].key), Occupied(p.board));
    var pc: Piece, s1: Square, s2: Square :|
      Reversible(pc, s1, s2) && StepKey(z, pc, s1, s2) == Xor(states[top].key, states[top - i].key) &&
        Clear(s1, s2, Occupied(p.board));
    StepTold(z, p, q, pc, s1, s2);
    StepApartIs(p, q, pc, s1, s2);
    StretchQuiet(trail, words, top - i, top, top - 1);
    UndoneIs(z, trail, words, states, i);
    XorEmpty(SideFold(z, q.side, p.board), SideFold(z, q.side, q.board));
    ReversibleKind(pc, s1, s2);
    StepHits(pc, s1, s2, Occupied(p.board));
    StretchEnd(trail, words, top - i, top);
    forall r | r in p.rights
      ensures HomesAlike(q, p, r)
    {
      StretchHomes(trail, words, top - i, top, r);
    }
    if MovedBy(p.board, q.board, pc, s1, s2) {
      CameBack(z, p, q, pc, s1, s2);
    } else {
      CameBack(z, p, q, pc, s2, s1);
    }
  }

  lemma StepApartIs(p: Pos, q: Pos, pc: Piece, s1: Square, s2: Square)
    requires StepApart(p, q, pc, s1, s2)
    ensures q.side == Flip(p.side) && p.rights == q.rights && p.ep == q.ep
    ensures MovedBy(p.board, q.board, pc, s1, s2) || MovedBy(p.board, q.board, pc, s2, s1)
  {
    hide MovedBy;
  }

  lemma CameBack(z: Zobrist, p: Pos, q: Pos, pc: Piece, from: Square, to: Square)
    requires SquaresTell(z) && WellFormed(p) && WellFormed(q) && q.side == Flip(p.side) && p.rights == q.rights &&
             q.ep == None
    requires pc.Piece? && pc.kind != Pawn && MovedBy(p.board, q.board, pc, from, to) &&
             Hits(pc, from, to, Occupied(p.board))
    requires SideFold(z, q.side, p.board) == SideFold(z, q.side, q.board)
    requires forall r :: r in p.rights ==> HomesAlike(q, p, r)
    ensures LeadsBack(p, q)
  {
    hide *;
    var m := NormalMove(from, to);
    MoverCameBack(z, p.board, q.board, pc, from, to, q.side);
    OtherSide(pc.color, p.side);
    CameBackLegal(p, q, pc, from, to);
    NothingTouched(p, q, pc, from, to);
    NextShape(p, m);
    SamePlaceIs(Next(p, m), q);
    LeadsBackBy(p, q, m);
  }

  lemma OtherSide(c: Color, d: Color)
    ensures c != Flip(d) ==> c == d
  {
  }

  lemma LeadsBackBy(p: Pos, q: Pos, m: Move)
    requires Legal(p, m) && SamePlace(Next(p, m), q)
    ensures LeadsBack(p, q)
  {
  }

  // ----- how far back such a position can lie -----

  /** A move back to a position since the last null move comes after an odd number of plies, at least
      three, and inside the window: nothing irreversible lies between. */
  lemma LeadsInWindow(pos: Position.Position, m: Move, i: nat)
    requires |pos.states| == |pos.trail| == |pos.words| + 1 && 1 <= i < |pos.trail| &&
             i <= pos.trail[|pos.trail| - 1].sinceNull
    requires Legal(pos.trail[|pos.trail| - 1], m) &&
             SamePlace(Next(pos.trail[|pos.trail| - 1], m), pos.trail[|pos.trail| - 1 - i])
    requires pos.Valid()
    ensures 3 <= i <= Window(pos.states[|pos.states| - 1]) && i % 2 == 1
  {
    hide *;
    pos.Top();
    HistoryKept(pos);
    var h := HistoryOf(pos);
    var top := |pos.trail| - 1;
    var p, q := pos.trail[top], pos.trail[top - i];
    SinceNullPlayed(h, i);
    PlayedBackIs(pos.trail, pos.words, i);
    PlayedFalls(pos.trail, pos.words, top - i, top);
    NullDistance(h, top);
    NullDistance(h, top - i);
    LegalIs(p, m);
    TopWellFormed(pos);
    TotalFalls(p, m);
    SamePlaceIs(Next(p, m), q);
    WindowIs(pos.states[top]);
    StretchOf(pos.z, pos.trail, pos.words, pos.states, pos.castlingRookSquare, pos.castlingPath,
              pos.castlingRightsMask, i);
    var trail', words' := pos.trail + [Next(p, m)], pos.words + [Some(m)];
    StretchGrown(pos.trail, pos.words, top - i, m);
    SamePlaceTurned(Next(p, m), q);
    QuietReturn(trail', words', top - i, top + 1);
  }

  lemma TopWellFormed(pos: Position.Position)
    requires pos.Valid()
    ensures |pos.trail| > 0 && WellFormed(pos.trail[|pos.trail| - 1])
  {
    hide *;
    pos.Top();
    pos.Seen();
  }

  lemma SamePlaceTurned(p: Pos, q: Pos)
    ensures SamePlace(p, q) <==> SamePlace(q, p)
  {
  }

  lemma StretchGrown(trail: seq<Pos>, words: seq<Option<Move>>, a: nat, m: Move)
    requires |trail| > 0 && Stretch(trail, words, a, |trail| - 1)
    requires var p := trail[|trail| - 1]; Legal(p, m) && !Irreversible(p.board, m)
    ensures Stretch(trail + [Next(trail[|trail| - 1], m)], words + [Some(m)], a, |trail|)
  {
    var p := trail[|trail| - 1];
    StretchEnd(trail, words, a, |trail| - 1);
    NextWellFormed(p, m);
    var trail', words' := trail + [Next(p, m)], words + [Some(m)];
    assert Stepped(p, Some(m), Next(p, m));
    forall j | a <= j < |trail|
      ensures Stepped(trail'[j], words'[j], trail'[j + 1])
    {
      if j < |trail| - 1 {
        assert Stepped(trail[j], words[j], trail[j + 1]);
      }
    }
    hide WellFormed, Stepped, Next, Legal;
  }

  // ----- the whole answer -----

  /** A legal move leads back to the position i plies ago, since the last null move, and that one
      lies below the root or had itself occurred before. */
  ghost predicate CycleComes(trail: seq<Pos>, ply: int, i: int)
    requires |trail| > 0
  {
    var top := |trail| - 1;
    && 1 <= i <= trail[top].sinceNull && i <= top && LeadsBack(trail[top], trail[top - i])
    && (ply > i || Recurred(trail[..top - i + 1]))
  }

  /** What the keys must tell: pieces on different squares, the reversible moves, and at every place
      the walk looks, the position there from the last one and from the rest of its own window. */
  ghost predicate CyclesTell(z: Zobrist, trail: seq<Pos>)
    requires |trail| > 0
  {
    var p := trail[|trail| - 1];
    && SquaresTell(z) && DistinctSteps(z)
    && forall i :: 3 <= i < |trail| && i <= p.rule50 && i <= p.sinceNull && i % 2 == 1 ==> CycleTells(z, trail, i)
  }

  ghost predicate CycleTells(z: Zobrist, trail: seq<Pos>, i: int)
    requires 0 <= i < |trail|
  {
    StepsTell(z, trail[|trail| - 1], trail[|trail| - 1 - i]) && KeysTell(z, trail[..|trail| - i])
  }

  lemma CyclesTellAt(z: Zobrist, trail: seq<Pos>, i: int)
    requires |trail| > 0 && CyclesTell(z, trail)
    ensures SquaresTell(z) && DistinctSteps(z)
    ensures var p := trail[|trail| - 1];
            3 <= i < |trail| && i <= p.rule50 && i <= p.sinceNull && i % 2 == 1 ==>
              StepsTell(z, p, trail[|trail| - 1 - i]) && KeysTell(z, trail[..|trail| - i])
  {
    var p := trail[|trail| - 1];
    if 3 <= i < |trail| && i <= p.rule50 && i <= p.sinceNull && i % 2 == 1 {
      assert CycleTells(z, trail, i);
    }
    hide SquaresTell, DistinctSteps, StepsTell, KeysTell;
  }

  lemma CycleExact(pos: Position.Position, table: CuckooTable, ply: int, i: int)
    requires table.Valid() && |table.Slots()| == SLOTS && Built(pos.z, table.Slots())
    requires |pos.states| == |pos.trail| == |pos.words| + 1 && CyclesTell(pos.z, pos.trail)
    requires pos.Valid()
    ensures CycleAt(pos.z, table.Slots(), pos.states, Occupied(pos.board), ply, i) <==> CycleComes(pos.trail, ply, i)
  {
    hide *;
    pos.Top();
    HistoryKept(pos);
    WalkReads(pos);
    SlotsSize(table);
    var top := |pos.trail| - 1;
    CycleIs(pos.z, table.Slots(), pos.states, Occupied(pos.board), ply, i);
    CycleComesIs(pos.trail, ply, i);
    NullDistance(HistoryOf(pos), top);
    WindowIs(pos.states[top]);
    CyclesTellAt(pos.z, pos.trail, i);
    if 3 <= i <= Window(pos.states[top]) && i % 2 == 1 {
      RecurredAt(HistoryOf(pos), top - i);
      if CycleAt(pos.z, table.Slots(), pos.states, Occupied(pos.board), ply, i) {
        AnswerReal(pos.z, pos.trail, pos.words, pos.states, pos.castlingRookSquare, pos.castlingPath,
                   pos.castlingRightsMask,
                   table.Slots(), i);
      }
    }
    if CycleComes(pos.trail, ply, i) {
      LeadsBackHas(pos.trail[top], pos.trail[top - i]);
      var m :| Legal(pos.trail[top], m) && SamePlace(Next(pos.trail[top], m), pos.trail[top - i]);
      LeadsInWindow(pos, m, i);
      ReturnAnswered(pos, table, ply, m, i);
    }
  }

  /** The recorded value of an earlier position, in positions. */
  lemma RecurredAt(h: History, j: nat)
    requires j < |h.trail| == |h.states| == |h.words| + 1 && KeysTell(h.z, h.trail[..j + 1])
    requires Kept(h)
    ensures h.states[j].repetition != 0 <==> Recurred(h.trail[..j + 1])
  {
    hide *;
    BeforeKept(h, j + 1);
    BeforeIs(h, j + 1);
    RecurredMeans(Before(h, j + 1));
  }

  lemma BeforeIs(h: History, n: nat)
    requires 1 <= n <= |h.trail| == |h.states| == |h.words| + 1
    ensures Before(h, n).z == h.z && Before(h, n).trail == h.trail[..n] && Before(h, n).states == h.states[..n]
  {
  }

  lemma LeadsBackHas(p: Pos, q: Pos)
    requires LeadsBack(p, q)
    ensures exists m :: Legal(p, m) && SamePlace(Next(p, m), q)
  {
  }

  lemma CycleComesIs(trail: seq<Pos>, ply: int, i: int)
    requires |trail| > 0
    ensures var top := |trail| - 1;
            CycleComes(trail, ply, i) <==>
              && 1 <= i <= trail[top].sinceNull && i <= top && LeadsBack(trail[top], trail[top - i])
              && (ply > i || Recurred(trail[..top - i + 1]))
  {
    hide LeadsBack, Recurred;
  }

  /** pos_upcoming_repetition, over a table that was built: with keys that tell what they should, the
      answer is yes exactly when some legal move leads back to such a position. */
  lemma UpcomingRule(pos: Position.Position, table: CuckooTable, ply: int)
    requires table.Valid() && |table.Slots()| == SLOTS && Built(pos.z, table.Slots())
    requires |pos.states| == |pos.trail| == |pos.words| + 1 && CyclesTell(pos.z, pos.trail)
    requires pos.Valid()
    ensures (exists i :: CycleAt(pos.z, table.Slots(), pos.states, Occupied(pos.board), ply, i))
            <==> exists i :: CycleComes(pos.trail, ply, i)
  {
    hide *;
    SlotsSize(table);
    if i :| CycleAt(pos.z, table.Slots(), pos.states, Occupied(pos.board), ply, i) {
      CycleExact(pos, table, ply, i);
    }
    if i :| CycleComes(pos.trail, ply, i) {
      CycleExact(pos, table, ply, i);
    }
  }
}
