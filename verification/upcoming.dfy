/** The upcoming-repetition probe: what it answers, and that it misses no one-move return to an
    earlier position. */
module Upcoming {
  import opened Squares
  import opened Types
  import opened Board
  import opened Rules
  import opened Attacks
  import opened Derived
  import opened State
  import opened Play
  import opened Keys
  import opened Chains
  import opened Cuckoo
  import opened Homes
  import Position

  // ----- the probe -----

  /** `other` when the walk is i plies back: the key changes of every second ply, the last one
      first, with the side key cancelled. */
  function Undone(z: Zobrist, states: seq<StateInfo>, i: int): Key
    requires 1 <= i < |states| && i % 2 == 1
  {
    var top := |states| - 1;
    var step := Xor(Xor(states[top - i + 1].key, states[top - i].key), z.side);
    if i == 1 then step else Xor(Undone(z, states, i - 2), step)
  }

  /** The table has this key, and the squares between the two ends of its move are empty. An
      empty slot reads as a move from a1 to a1. */
  predicate Answers(slots: seq<Pair>, key: Key, occ: Bitboard)
    requires |slots| == SLOTS
  {
    && Probe(slots, key).Some?
    && var move := Probe(slots, key).value.move;
       var s1, s2 := if move.Some? then move.value.s1 else 0, if move.Some? then move.value.s2 else 0;
       Xor(BetweenBB(s1, s2), {s2}) * occ == {}
  }

  predicate CycleAt(z: Zobrist, slots: seq<Pair>, states: seq<StateInfo>, occ: Bitboard, ply: int, i: int)
    requires |slots| == SLOTS && |states| > 0
  {
    var top := |states| - 1;
    && 3 <= i <= Window(states[top]) && i <= top && i % 2 == 1
    && Undone(z, states, i) == {}
    && Answers(slots, Xor(states[top].key, states[top - i].key), occ)
    && (ply > i || states[top - i].repetition != 0)
  }

  lemma UndoneMore(z: Zobrist, states: seq<StateInfo>, i: int)
    requires 3 <= i < |states| && i % 2 == 1
    ensures var top := |states| - 1;
            Undone(z, states, i) ==
              Xor(Undone(z, states, i - 2), Xor(Xor(states[top - i + 1].key, states[top - i].key), z.side))
  {
    hide Xor;
  }

  /** The two probes and the test of the path. */
  method Asked(table: CuckooTable, key: Key, occ: Bitboard) returns (r: bool)
    requires table.Valid()
    ensures r == Answers(table.Slots(), key, occ)
  {
    hide Placed, H1, H2, Xor, BetweenBB;
    var j := H1(key);
    if table.keys[j] != key {
      j := H2(key);
      if table.keys[j] != key {
        return false;
      }
    }
    var s1, s2: Square := 0, 0;
    if table.moves[j].Some? {
      s1, s2 := table.moves[j].value.s1, table.moves[j].value.s2;
    }
    r := Xor(BetweenBB(s1, s2), {s2}) * occ == {};
  }

  /** What the walk reads of a valid position. */
  lemma WalkReads(pos: Position.Position)
    requires pos.Valid()
    ensures |pos.states| > 0 && |pos.byType| == 7 && pos.byType[0] == Occupied(pos.board)
    ensures var st := pos.states[|pos.states| - 1]; Window(st) == Min(st.rule50, st.pliesFromNull) < |pos.states|
  {
    hide *;
    pos.Top();
    pos.BoardsAre();
    CountersOf(pos.z, pos.trail, pos.words, pos.states, pos.castlingRookSquare, pos.castlingPath,
               pos.castlingRightsMask);
    WindowShort(pos.states);
    SyncedOccupied(pos.board, pos.byType, pos.byColor, pos.pieceCount);
  }

  lemma WindowShort(states: seq<StateInfo>)
    requires |states| > 0 && ChainCounters(states)
    ensures var st := states[|states| - 1]; Window(st) == Min(st.rule50, st.pliesFromNull) < |states|
  {
  }

  lemma SyncedOccupied(b: Board, byType: seq<Bitboard>, byColor: seq<Bitboard>, pieceCount: seq<int>)
    requires Synced(b, byType, byColor, pieceCount)
    ensures |byType| == 7 && byType[0] == Occupied(b)
  {
  }

  lemma CycleIs(z: Zobrist, slots: seq<Pair>, states: seq<StateInfo>, occ: Bitboard, ply: int, i: int)
    requires |slots| == SLOTS && |states| > 0 && Window(states[|states| - 1]) < |states|
    ensures 3 <= i <= Window(states[|states| - 1]) && i % 2 == 1 ==>
              var top := |states| - 1;
              (CycleAt(z, slots, states, occ, ply, i) <==>
               && Undone(z, states, i) == {}
               && Answers(slots, Xor(states[top].key, states[top - i].key), occ)
               && (ply > i || states[top - i].repetition != 0))
    ensures !(3 <= i <= Window(states[|states| - 1]) && i % 2 == 1) ==> !CycleAt(z, slots, states, occ, ply, i)
  {
    hide Answers, Undone, Xor;
  }

  lemma SlotsSize(table: CuckooTable)
    requires table.Valid()
    ensures table.keys.Length == table.moves.Length == SLOTS
    ensures |table.Slots()| == SLOTS && Placed(table.Slots())
  {
  }

  /** pos_upcoming_repetition. */
  method UpcomingRepetition(pos: Position.Position, table: CuckooTable, ply: int) returns (r: bool)
    requires table.Valid() && pos.Valid()
    ensures |pos.states| > 0
    ensures r <==> exists i :: CycleAt(pos.z, table.Slots(), pos.states, Occupied(pos.board), ply, i)
  {
    hide *;
    WalkReads(pos);
    SlotsSize(table);
    ghost var slots, occ := table.Slots(), Occupied(pos.board);
    var z, states := pos.z, pos.states;
    var top := |states| - 1;
    MinIs(states[top].rule50, states[top].pliesFromNull);
    forall i: int | i < 3 || i > Window(states[top])
      ensures !CycleAt(z, slots, states, occ, ply, i)
    {
      CycleIs(z, slots, states, occ, ply, i);
    }
    var end := if states[top].rule50 < states[top].pliesFromNull then states[top].rule50 else states[top].pliesFromNull;
    if end < 3 {
      return false;
    }
    var other := Xor(Xor(states[top].key, states[top - 1].key), z.side);
    UndoneOnce(z, states);
    var back := 1;
    var i := 3;
    while i <= end
      invariant 3 <= i && i % 2 == 1 && back == i - 2
      invariant i - 2 <= end && other == Undone(z, states, i - 2)
      invariant forall j :: j < i ==> !CycleAt(z, slots, states, occ, ply, j)
    {
      back := back + 1;
      other := Xor(other, Xor(Xor(states[top - back].key, states[top - back - 1].key), z.side));
      back := back + 1;
      UndoneMore(z, states, i);
      CycleIs(z, slots, states, occ, ply, i);
      CycleIs(z, slots, states, occ, ply, i + 1);
      if other == {} {
        var asked := Asked(table, Xor(states[top].key, states[top - back].key), pos.byType[0]);
        if asked && (ply > i || states[top - back].repetition != 0) {
          return true;
        }
      }
      i := i + 2;
    }
    r := false;
  }

  lemma MinIs(a: int, b: int)
    ensures Min(a, b) == if a < b then a else b
  {
  }

  lemma UndoneOnce(z: Zobrist, states: seq<StateInfo>)
    requires |states| > 1
    ensures Undone(z, states, 1) == Xor(Xor(states[|states| - 1].key, states[|states| - 2].key), z.side)
  {
    hide Xor;
  }

  lemma CountersOf(z: Zobrist, trail: seq<Pos>, words: seq<Option<Move>>, states: seq<StateInfo>,
                   rookSquare: map<Right, Square>, path: map<Right, Bitboard>, mask: seq<set<Right>>)
    requires Chain(z, trail, words, states, rookSquare, path, mask)
    ensures |trail| == |states| == |words| + 1 && ChainCounters(states)
  {
    hide NodesFresh, LinksHold, ChainCounters, RepetitionsFresh;
  }

  // ----- quiet stretches -----

  /** A move by a piece other than a pawn to an empty square. */
  predicate Quiet(b: Board, m: Move) {
    m.kind == Normal && b[m.from].Piece? && b[m.from].kind != Pawn && b[m.to] == NoPiece
  }

  /** A reversible move that costs no right is a quiet one. */
  lemma QuietMove(p: Pos, m: Move)
    requires WellFormed(p) && PseudoLegal(p, m) && !Irreversible(p.board, m) && p.rights <= Next(p, m).rights
    ensures Quiet(p.board, m) && Next(p, m).ep == None && IsColor(p.board, p.side, m.from)
  {
    if m.kind == Castling {
      CastlingCosts(p, m);
    }
    hide WellFormed, Hits, PawnPush, PawnDouble, PawnCapture, Touches, After, EpAvailable, CanCastle;
  }

  /** Castling spends its right. */
  lemma CastlingCosts(p: Pos, m: Move)
    requires PseudoLegal(p, m) && m.kind == Castling
    ensures !(p.rights <= Next(p, m).rights)
  {
    var r := CastlingRight(p.side, m);
    assert r in p.rights && IsKing(p.board, r.color, m.from);
    hide IsKing, After, NextEp, CastlingPath;
    assert Touches(p, r, m);
    assert r !in Next(p, m).rights;
  }

  /** The non-pawn key of one side. */
  function SideFold(z: Zobrist, c: Color, b: Board): Key {
    Fold(z, NonPawnKey(c), b, 64)
  }

  function Lifted(z: Zobrist, b: Board, m: Move): Key {
    Xor(z.psq(b[m.from], m.from), z.psq(b[m.from], m.to))
  }

  /** A quiet move changes the whole key as it changes the mover's own, and the opponent's not
      at all. */
  lemma QuietKeys(z: Zobrist, b: Board, us: Color, m: Move)
    requires Quiet(b, m) && IsColor(b, us, m.from)
    ensures var b' := After(b, us, m);
            && Xor(Fold(z, WholeKey, b', 64), Fold(z, WholeKey, b, 64)) == Lifted(z, b, m)
            && Xor(SideFold(z, us, b'), SideFold(z, us, b)) == Lifted(z, b, m)
            && SideFold(z, Flip(us), b') == SideFold(z, Flip(us), b)
  {
    assert m.from != m.to;
    var pc := b[m.from];
    var b1: Board := b[m.from := NoPiece];
    assert After(b, us, m) == b1[m.to := pc] && b1[m.to] == NoPiece;
    QuietFold(z, WholeKey, b, m.from, m.to);
    QuietFold(z, NonPawnKey(us), b, m.from, m.to);
    QuietFold(z, NonPawnKey(Flip(us)), b, m.from, m.to);
    assert Term(z, WholeKey, pc, m.from) == Term(z, NonPawnKey(us), pc, m.from) == z.psq(pc, m.from);
    assert Term(z, WholeKey, pc, m.to) == Term(z, NonPawnKey(us), pc, m.to) == z.psq(pc, m.to);
    assert Term(z, NonPawnKey(Flip(us)), pc, m.from) == Term(z, NonPawnKey(Flip(us)), pc, m.to) == {};
    hide *;
    XorNone(SideFold(z, Flip(us), After(b, us, m)), SideFold(z, Flip(us), b));
  }

  lemma QuietFold(z: Zobrist, kind: KeyKind, b: Board, from: Square, to: Square)
    requires b[to] == NoPiece && from != to
    ensures Xor(Fold(z, kind, b[from := NoPiece][to := b[from]], 64), Fold(z, kind, b, 64)) ==
            Xor(Term(z, kind, b[from], from), Term(z, kind, b[from], to))
  {
    var b1: Board := b[from := NoPiece];
    BoardFold(z, kind, b, from, NoPiece);
    BoardFold(z, kind, b1, to, b[from]);
    assert Term(z, kind, NoPiece, from) == {} && Term(z, kind, NoPiece, to) == {} && b1[to] == NoPiece;
    hide Term, Fold;
    XorFour(Fold(z, kind, b, 64), Term(z, kind, b[from], from), Term(z, kind, b[from], to));
  }

  lemma XorFour(f: Key, x: Key, y: Key)
    ensures Xor(Xor(Xor(Xor(Xor(f, x), {}), {}), y), f) == Xor(x, y)
  {
  }

  lemma XorNone(a: Key, b: Key)
    ensures Xor(a, b) == Xor({}, {}) <==> a == b
  {
  }

  // ----- a quiet stretch of the run -----

  /** Positions a to b of the run follow from each other by reversible moves. */
  ghost predicate Stretch(trail: seq<Pos>, words: seq<Option<Move>>, a: nat, b: nat) {
    && a <= b < |trail| && |trail| == |words| + 1
    && (forall j :: a <= j <= b ==> WellFormed(trail[j]))
    && (forall j :: a <= j < b ==> Stepped(trail[j], words[j], trail[j + 1]))
  }

  ghost predicate Stepped(p: Pos, word: Option<Move>, p': Pos) {
    word.Some? && Legal(p, word.value) && !Irreversible(p.board, word.value) && p' == Next(p, word.value)
  }

  /** The window of the last record covers a stretch of reversible moves. */
  lemma StretchOf(z: Zobrist, trail: seq<Pos>, words: seq<Option<Move>>, states: seq<StateInfo>,
                  rookSquare: map<Right, Square>, path: map<Right, Bitboard>, mask: seq<set<Right>>, i: nat)
    requires Chain(z, trail, words, states, rookSquare, path, mask)
    requires |states| > 0 && i <= Window(states[|states| - 1])
    ensures i < |states| && Stretch(trail, words, |states| - 1 - i, |states| - 1)
    ensures forall j :: |states| - 1 - i <= j < |states| ==> KeysOf(z, trail[j], states[j])
  {
    hide *;
    CountersOf(z, trail, words, states, rookSquare, path, mask);
    var top := |states| - 1;
    WindowShrinks(states, top, i);
    forall j | 0 <= j < |states|
      ensures WellFormed(trail[j]) && KeysOf(z, trail[j], states[j])
    {
      ChainNode(z, trail, words, states, rookSquare, path, mask, j);
      NodeKeys(z, trail[j], states[j], rookSquare, path, mask);
    }
    forall j | top - i <= j < top
      ensures Stepped(trail[j], words[j], trail[j + 1])
    {
      WindowShrinks(states, top, top - j - 1);
      ChainLink(z, trail, words, states, rookSquare, path, mask, j);
      LinkSteps(z, trail[j], words[j], trail[j + 1], states[j + 1]);
    }
    StretchIs(trail, words, top - i, top);
  }

  lemma StretchIs(trail: seq<Pos>, words: seq<Option<Move>>, a: nat, b: nat)
    requires a <= b < |trail| && |trail| == |words| + 1
    ensures Stretch(trail, words, a, b) <==>
              && (forall j :: a <= j <= b ==> WellFormed(trail[j]))
              && (forall j :: a <= j < b ==> Stepped(trail[j], words[j], trail[j + 1]))
  {
    hide WellFormed, Stepped;
  }

  lemma ChainNode(z: Zobrist, trail: seq<Pos>, words: seq<Option<Move>>, states: seq<StateInfo>,
                  rookSquare: map<Right, Square>, path: map<Right, Bitboard>, mask: seq<set<Right>>, j: nat)
    requires Chain(z, trail, words, states, rookSquare, path, mask) && j < |states|
    ensures |trail| == |states| && NodeFresh(z, trail[j], states[j], rookSquare, path, mask)
  {
    hide NodeFresh, LinksHold, ChainCounters, RepetitionsFresh;
  }

  lemma ChainLink(z: Zobrist, trail: seq<Pos>, words: seq<Option<Move>>, states: seq<StateInfo>,
                  rookSquare: map<Right, Square>, path: map<Right, Bitboard>, mask: seq<set<Right>>, j: nat)
    requires Chain(z, trail, words, states, rookSquare, path, mask) && j + 1 < |states|
    ensures |trail| == |states| == |words| + 1 && Linked(trail[j], words[j], trail[j + 1], states[j + 1])
  {
    hide NodesFresh, Linked, ChainCounters, RepetitionsFresh;
  }

  /** What the walk uses of a fresh record. */
  ghost predicate KeysOf(z: Zobrist, p: Pos, st: StateInfo) {
    st.key == PositionKey(z, p) && st.rule50 == p.rule50 && st.pliesFromNull == p.sinceNull
  }

  lemma NodeKeys(z: Zobrist, p: Pos, st: StateInfo, rookSquare: map<Right, Square>, path: map<Right, Bitboard>,
                 mask: seq<set<Right>>)
    requires NodeFresh(z, p, st, rookSquare, path, mask)
    ensures WellFormed(p) && KeysOf(z, p, st)
  {
    assert WellFormed(p) ==> HasKing(p.board, White) && HasKing(p.board, Black);
    hide HasKing, PositionKey, PinsFresh, CheckSquaresFresh, ThreatsFresh, MaterialFresh, AuxKeysFresh;
  }

  lemma LinkSteps(z: Zobrist, p: Pos, word: Option<Move>, p': Pos, st': StateInfo)
    requires Linked(p, word, p', st') && KeysOf(z, p', st') && Window(st') > 0
    ensures Stepped(p, word, p')
  {
    if word.Some? {
      NextShape(p, word.value);
    }
    hide WellFormed, Legal, Next, Irreversible, PositionKey;
  }

  lemma {:induction false} RightsFall(trail: seq<Pos>, words: seq<Option<Move>>, a: nat, b: nat)
    requires Stretch(trail, words, a, b)
    ensures trail[b].rights <= trail[a].rights
  {
    if a < b {
      RightsFall(trail, words, a, b - 1);
      assert Stepped(trail[b - 1], words[b - 1], trail[b]);
      hide Legal, Irreversible, WellFormed, Touches, After;
    }
  }

  /** Over a stretch that costs no right every move is quiet. */
  lemma StretchQuiet(trail: seq<Pos>, words: seq<Option<Move>>, a: nat, b: nat, j: nat)
    requires Stretch(trail, words, a, b) && trail[a].rights <= trail[b].rights && a <= j < b
    ensures words[j].Some?
    ensures var p, m := trail[j], words[j].value;
            && Quiet(p.board, m) && IsColor(p.board, p.side, m.from) && trail[j + 1] == Next(p, m)
            && trail[j + 1].ep == None && trail[j + 1].rights == trail[j].rights == trail[a].rights
            && trail[j + 1].board == After(p.board, p.side, m) && trail[j + 1].side == Flip(p.side)
  {
    StretchPart(trail, words, a, j, b);
    RightsFall(trail, words, a, j);
    RightsFall(trail, words, j, j + 1);
    RightsFall(trail, words, j + 1, b);
    var p, m := trail[j], words[j].value;
    NextShape(p, m);
    hide *;
    QuietMove(p, m);
  }

  lemma StretchPart(trail: seq<Pos>, words: seq<Option<Move>>, a: nat, j: nat, b: nat)
    requires Stretch(trail, words, a, b) && a <= j < b
    ensures Stretch(trail, words, a, j) && Stretch(trail, words, j, j + 1) && Stretch(trail, words, j + 1, b)
    ensures WellFormed(trail[j]) && words[j].Some? && PseudoLegal(trail[j], words[j].value)
    ensures !Irreversible(trail[j].board, words[j].value) && trail[j + 1] == Next(trail[j], words[j].value)
  {
    assert Stepped(trail[j], words[j], trail[j + 1]);
    hide PseudoLegal, WellFormed, Irreversible, Next, After;
  }

  // ----- what a quiet stretch keeps -----

  lemma QuietCounts(b: Board, us: Color, m: Move)
    requires Quiet(b, m)
    ensures OfType(After(b, us, m), Pawn) == OfType(b, Pawn) && |Occupied(After(b, us, m))| == |Occupied(b)|
  {
    var b' := After(b, us, m);
    assert m.from != m.to && b' == b[m.from := NoPiece][m.to := b[m.from]];
    hide After;
    forall s: Square
      ensures s in OfType(b', Pawn) <==> s in OfType(b, Pawn)
    {
    }
    hide OfType;
    var occ := Occupied(b);
    assert Occupied(b') == occ - {m.from} + {m.to};
    assert m.from in occ && m.to !in occ;
    hide Occupied;
    assert |occ - {m.from} + {m.to}| == |occ|;
  }

  lemma StretchSize(trail: seq<Pos>, words: seq<Option<Move>>, a: nat, b: nat)
    requires Stretch(trail, words, a, b)
    ensures a <= b < |trail| && |trail| == |words| + 1
  {
    hide WellFormed, Stepped;
  }

  lemma StretchFirst(trail: seq<Pos>, words: seq<Option<Move>>, a: nat, b: nat)
    requires Stretch(trail, words, a, b) && trail[a].rights <= trail[b].rights && a < b
    ensures Stretch(trail, words, a + 1, b) && trail[a + 1].rights <= trail[b].rights &&
            trail[a + 1].side == Flip(trail[a].side)
    ensures OfType(trail[a + 1].board, Pawn) == OfType(trail[a].board, Pawn)
    ensures |Occupied(trail[a + 1].board)| == |Occupied(trail[a].board)|
  {
    hide *;
    StretchSize(trail, words, a, b);
    StretchQuiet(trail, words, a, b, a);
    StretchPart(trail, words, a, a, b);
    QuietCounts(trail[a].board, trail[a].side, words[a].value);
  }

  lemma {:induction false} StretchKeeps(trail: seq<Pos>, words: seq<Option<Move>>, a: nat, b: nat)
    requires Stretch(trail, words, a, b) && trail[a].rights <= trail[b].rights
    ensures OfType(trail[b].board, Pawn) == OfType(trail[a].board, Pawn) &&
            |Occupied(trail[b].board)| == |Occupied(trail[a].board)|
    ensures trail[b].side == if (b - a) % 2 == 0 then trail[a].side else Flip(trail[a].side)
    decreases b - a
  {
    hide *;
    StretchSize(trail, words, a, b);
    if a < b {
      StretchFirst(trail, words, a, b);
      StretchKeeps(trail, words, a + 1, b);
      FlipTwice(trail[a].side);
    }
  }

  /** A move that leaves the rights, the pawns and the number of pieces alone is quiet. */
  lemma ReturnQuiet(p: Pos, m: Move)
    requires WellFormed(p) && PseudoLegal(p, m) && p.rights <= Next(p, m).rights
    requires OfType(After(p.board, p.side, m), Pawn) == OfType(p.board, Pawn)
    requires |Occupied(After(p.board, p.side, m))| == |Occupied(p.board)|
    ensures Quiet(p.board, m) && Next(p, m).ep == None && IsColor(p.board, p.side, m.from)
  {
    if m.kind == Castling {
      CastlingCosts(p, m);
    } else {
      AfterSteps(p, m);
      LostPieces(p.board, p.side, m);
      NoPawnNoCaptureQuiet(p, m);
    }
  }

  lemma NoPawnNoCaptureQuiet(p: Pos, m: Move)
    requires PseudoLegal(p, m) && m.kind != Castling
    requires m.from != m.to && !(m.kind == Normal && p.board[m.to] != NoPiece) && p.board[m.from] != Piece(p.side, Pawn)
    ensures Quiet(p.board, m) && Next(p, m).ep == None && IsColor(p.board, p.side, m.from)
  {
    hide Hits, PawnPush, PawnDouble, PawnCapture, Touches, After, EpAvailable;
  }

  lemma LostPieces(b: Board, us: Color, m: Move)
    requires m.kind != Castling && m.from != m.to && b[m.from] != NoPiece
    requires OfType(After(b, us, m), Pawn) == OfType(b, Pawn) && |Occupied(After(b, us, m))| == |Occupied(b)|
    ensures !(m.kind == Normal && b[m.to] != NoPiece) && b[m.from] != Piece(us, Pawn)
  {
    hide OfType, Occupied, After;
    if m.kind == Normal && b[m.to] != NoPiece {
      CaptureCounts(b, us, m);
    }
    if b[m.from] == Piece(us, Pawn) {
      PawnCounts(b, us, m);
    }
  }

  lemma CaptureCounts(b: Board, us: Color, m: Move)
    requires m.kind == Normal && b[m.to] != NoPiece && m.from != m.to && b[m.from] != NoPiece
    ensures |Occupied(After(b, us, m))| == |Occupied(b)| - 1
  {
    assert Occupied(After(b, us, m)) == Occupied(b) - {m.from};
    assert m.from in Occupied(b);
  }

  lemma PawnCounts(b: Board, us: Color, m: Move)
    requires m.kind != Castling && m.from != m.to && b[m.from] == Piece(us, Pawn)
    ensures OfType(After(b, us, m), Pawn) != OfType(b, Pawn)
  {
    assert m.from in OfType(b, Pawn);
    assert After(b, us, m)[m.from] == NoPiece;
  }

  // ----- the keys along a quiet stretch -----

  /** A quiet step changes the position key by the mover's two terms and the side key. */
  lemma KeyStep(z: Zobrist, p: Pos, p': Pos, m: Move)
    requires Quiet(p.board, m) && IsColor(p.board, p.side, m.from) && p.ep == None && p'.ep == None
    requires p'.rights == p.rights && p'.board == After(p.board, p.side, m) && p'.side == Flip(p.side)
    ensures Xor(Xor(PositionKey(z, p'), PositionKey(z, p)), z.side) == Lifted(z, p.board, m)
    ensures Lifted(z, p.board, m) == Xor(SideFold(z, p.side, p'.board), SideFold(z, p.side, p.board))
    ensures SideFold(z, Flip(p.side), p'.board) == SideFold(z, Flip(p.side), p.board)
  {
    QuietKeys(z, p.board, p.side, m);
    var f, f', c := Fold(z, WholeKey, p.board, 64), Fold(z, WholeKey, p'.board, 64), z.castling(p.rights);
    assert PositionKey(z, p) == Xor(Xor(Xor(f, {}), SideKey(z, p.side)), c);
    assert PositionKey(z, p') == Xor(Xor(Xor(f', {}), SideKey(z, Flip(p.side))), c);
    KeySides(f', f, SideKey(z, p.side), SideKey(z, Flip(p.side)), c, z.side);
    hide *;
  }

  lemma KeySides(f': Key, f: Key, s: Key, s': Key, c: Key, side: Key)
    requires (s == {} && s' == side) || (s == side && s' == {})
    ensures Xor(Xor(Xor(Xor(Xor(f', {}), s'), c), Xor(Xor(Xor(f, {}), s), c)), side) == Xor(f', f)
  {
  }

  lemma Telescopes(a: Key, b: Key, c: Key)
    ensures Xor(Xor(a, b), Xor(b, c)) == Xor(a, c)
  {
  }

  /** After an odd number of quiet plies, what the last mover's moves undo is the difference of
      that side's own key. */
  lemma {:induction false} UndoneIs(z: Zobrist, trail: seq<Pos>, words: seq<Option<Move>>, states: seq<StateInfo>,
                                    i: nat)
    requires |states| == |trail| && 1 <= i < |trail| && i % 2 == 1
    requires Stretch(trail, words, |trail| - 1 - i, |trail| - 1)
    requires trail[|trail| - 1 - i].rights <= trail[|trail| - 1].rights && trail[|trail| - 1 - i].ep == None
    requires forall j :: |trail| - 1 - i <= j < |trail| ==> states[j].key == PositionKey(z, trail[j])
    ensures var top := |trail| - 1;
            Undone(z, states, i) ==
            Xor(SideFold(z, trail[top - i].side, trail[top].board),
                SideFold(z, trail[top - i].side, trail[top - i].board))
  {
    hide *;
    var top := |trail| - 1;
    var a := top - i;
    var c := trail[a].side;
    StepKeys(z, trail, words, states, a, top);
    if i == 1 {
      UndoneOnce(z, states);
    } else {
      UndoneMore(z, states, i);
      NextStepKeys(z, trail, words, a, top);
      StretchLater(trail, words, a, top);
      UndoneIs(z, trail, words, states, i - 2);
      Telescopes(SideFold(z, c, trail[top].board), SideFold(z, c, trail[a + 1].board), SideFold(z, c, trail[a].board));
    }
  }

  lemma StepKeys(z: Zobrist, trail: seq<Pos>, words: seq<Option<Move>>, states: seq<StateInfo>, a: nat, top: nat)
    requires Stretch(trail, words, a, top) && trail[a].rights <= trail[top].rights && a < top < |states| &&
             trail[a].ep == None
    requires states[a].key == PositionKey(z, trail[a]) && states[a + 1].key == PositionKey(z, trail[a + 1])
    ensures Xor(Xor(states[a + 1].key, states[a].key), z.side) ==
            Xor(SideFold(z, trail[a].side, trail[a + 1].board), SideFold(z, trail[a].side, trail[a].board))
  {
    StretchQuiet(trail, words, a, top, a);
    hide *;
    KeyStep(z, trail[a], trail[a + 1], words[a].value);
  }

  /** The reply leaves the first mover's own key alone. */
  lemma NextStepKeys(z: Zobrist, trail: seq<Pos>, words: seq<Option<Move>>, a: nat, top: nat)
    requires Stretch(trail, words, a, top) && trail[a].rights <= trail[top].rights && a + 2 <= top
    ensures SideFold(z, trail[a].side, trail[a + 2].board) == SideFold(z, trail[a].side, trail[a + 1].board)
    ensures trail[a + 2].side == trail[a].side && trail[a + 2].ep == None
  {
    StretchQuiet(trail, words, a, top, a);
    StretchQuiet(trail, words, a, top, a + 1);
    FlipTwice(trail[a].side);
    hide *;
    KeyStep(z, trail[a + 1], trail[a + 2], words[a + 1].value);
  }

  lemma StretchLater(trail: seq<Pos>, words: seq<Option<Move>>, a: nat, b: nat)
    requires Stretch(trail, words, a, b) && trail[a].rights <= trail[b].rights && a + 2 <= b
    ensures Stretch(trail, words, a + 2, b) && trail[a + 2].rights <= trail[b].rights
  {
    StretchQuiet(trail, words, a, b, a);
    StretchQuiet(trail, words, a, b, a + 1);
    StretchPart(trail, words, a, a, b);
    StretchPart(trail, words, a + 1, a + 1, b);
    hide *;
  }

  // ----- the theorem -----

  /** The same position for the purposes of repetition. */
  predicate SamePlace(p: Pos, q: Pos) {
    p.board == q.board && p.side == q.side && p.rights == q.rights && p.ep == q.ep
  }

  lemma SameKey(z: Zobrist, p: Pos, q: Pos)
    requires SamePlace(p, q)
    ensures PositionKey(z, p) == PositionKey(z, q)
  {
    hide Fold, Xor;
  }

  /** No two reversible moves share a key unless they share their squares, and no key is zero. */
  ghost predicate DistinctSteps(z: Zobrist) {
    && (forall pc: Piece, s1: Square, s2: Square :: Reversible(pc, s1, s2) ==> StepKey(z, pc, s1, s2) != {})
    && (forall pc: Piece, s1: Square, s2: Square, qc: Piece, t1: Square, t2: Square ::
          Reversible(pc, s1, s2) && Reversible(qc, t1, t2) && StepKey(z, pc, s1, s2) == StepKey(z, qc, t1, t2) ==>
            s1 == t1 && s2 == t2)
  }

  /** A quiet move's key is that of a reversible move, and nothing stands on its way. */
  lemma QuietIsStep(z: Zobrist, b: Board, us: Color, m: Move)
    requires Quiet(b, m) && Moves(b, us, m.from, m.to)
    ensures var pc, lo, hi := b[m.from], if m.from < m.to then m.from else m.to, if m.from < m.to then m.to else m.from;
            && Reversible(pc, lo, hi) && StepKey(z, pc, lo, hi) == Xor(Lifted(z, b, m), z.side)
            && Clear(lo, hi, Occupied(b))
  {
    var pc := b[m.from];
    MoveDistinct(b, us, m.from, m.to);
    StepReverses(pc, m.from, m.to, Occupied(b));
    XorEnds(z.psq(pc, m.from), z.psq(pc, m.to));
    hide Hits, Xor, Clear, Occupied;
  }

  lemma XorEnds(x: Key, y: Key)
    ensures Xor(x, y) == Xor(y, x)
  {
  }

  lemma StepReverses(pc: Piece, s: Square, t: Square, occ: Bitboard)
    requires pc.Piece? && pc.kind != Pawn && s != t && Hits(pc, s, t, occ)
    ensures Hits(Piece(White, pc.kind), s, t, {}) && Hits(Piece(White, pc.kind), t, s, {})
    ensures Clear(s, t, occ) && Clear(t, s, occ)
  {
    ClearSym(s, t, occ);
    assert Clear(s, t, {}) && Clear(t, s, {});
    if pc.kind == Knight {
      KnightOffLine(s, t);
    } else if pc.kind == King {
      KingStepClear(s, t);
    }
    hide Inside;
  }

  lemma PathIs(s1: Square, s2: Square, occ: Bitboard)
    requires s1 != s2
    ensures Xor(BetweenBB(s1, s2), {s2}) * occ == {} <==> Clear(s1, s2, occ)
  {
    assert !Inside(s1, s2, s2);
    hide Inside;
    forall x: Square
      ensures x in Xor(BetweenBB(s1, s2), {s2}) <==> Inside(s1, x, s2)
    {
    }
    hide BetweenBB;
  }

  /** An answer to a nonzero key is a reversible move with that key and a clear path. */
  lemma AnswersMeans(z: Zobrist, slots: seq<Pair>, key: Key, occ: Bitboard)
    requires Built(z, slots) && key != {}
    ensures |slots| == SLOTS
    ensures Answers(slots, key, occ) ==>
              exists pc: Piece, s1: Square, s2: Square ::
                Reversible(pc, s1, s2) && StepKey(z, pc, s1, s2) == key && Clear(s1, s2, occ)
    ensures DistinctSteps(z) ==>
              forall pc: Piece, s1: Square, s2: Square ::
                Reversible(pc, s1, s2) && StepKey(z, pc, s1, s2) == key && Clear(s1, s2, occ) ==>
                  Answers(slots, key, occ)
  {
    LookupExact(z, slots, key);
    if Probe(slots, key).Some? {
      var q := Probe(slots, key).value;
      var pc :| EntryOf(z, q, pc, q.move.value.s1, q.move.value.s2);
      PathIs(q.move.value.s1, q.move.value.s2, occ);
    }
    hide Probe, Entries, Xor, AttacksBB, Clear, BetweenBB, H1, H2;
  }

  lemma KeyDifference(a: Key, b: Key, l: Key, side: Key)
    requires Xor(Xor(a, b), side) == l
    ensures Xor(b, a) == Xor(l, side)
  {
  }

  lemma XorSelf(a: Key)
    ensures Xor(a, a) == {}
  {
  }

  lemma NextRights(p: Pos, m: Move)
    ensures Next(p, m).rights <= p.rights
  {
    hide Touches, After, NextEp;
  }

  /** A legal move back to the position i plies ago, all of them reversible, is quiet; both
      positions hold the same rights and no en-passant square. */
  lemma ReturnIsQuiet(trail: seq<Pos>, words: seq<Option<Move>>, i: nat, m: Move)
    requires 1 <= i < |trail| && i % 2 == 1 && Stretch(trail, words, |trail| - 1 - i, |trail| - 1)
    requires PseudoLegal(trail[|trail| - 1], m) && SamePlace(Next(trail[|trail| - 1], m), trail[|trail| - 1 - i])
    ensures var p, q := trail[|trail| - 1], trail[|trail| - 1 - i];
            && Quiet(p.board, m) && IsColor(p.board, p.side, m.from) && Moves(p.board, p.side, m.from, m.to)
            && p.rights == q.rights && p.ep == None && q.ep == None
            && q.board == After(p.board, p.side, m) && q.side == Flip(p.side)
  {
    hide *;
    var top := |trail| - 1;
    var p, q := trail[top], trail[top - i];
    SamePlaceIs(Next(p, m), q);
    NextRights(p, m);
    NextShape(p, m);
    StretchEnd(trail, words, top - i, top);
    RightsFall(trail, words, top - i, top);
    StretchKeeps(trail, words, top - i, top);
    StretchQuiet(trail, words, top - i, top, top - 1);
    ReturnQuiet(p, m);
    QuietMoves(p, m);
  }

  lemma SamePlaceIs(p: Pos, q: Pos)
    ensures SamePlace(p, q) <==> p.board == q.board && p.side == q.side && p.rights == q.rights && p.ep == q.ep
  {
  }

  lemma StretchEnd(trail: seq<Pos>, words: seq<Option<Move>>, a: nat, b: nat)
    requires Stretch(trail, words, a, b)
    ensures WellFormed(trail[a]) && WellFormed(trail[b])
  {
    hide WellFormed;
  }

  lemma QuietMoves(p: Pos, m: Move)
    requires PseudoLegal(p, m) && Quiet(p.board, m)
    ensures Moves(p.board, p.side, m.from, m.to)
  {
    hide Moves;
  }

  /** The probe misses no one-move return: if a legal move leads back to the position i plies ago,
      i odd and inside the window, then at i the opponent's moves have cancelled out and the table
      answers with a move whose path is clear. */
  lemma ReturnFound(z: Zobrist, trail: seq<Pos>, words: seq<Option<Move>>, states: seq<StateInfo>,
                    rookSquare: map<Right, Square>,
                    path: map<Right, Bitboard>, mask: seq<set<Right>>, slots: seq<Pair>, m: Move, i: nat)
    requires Built(z, slots) && |slots| == SLOTS && DistinctSteps(z)
    requires Chain(z, trail, words, states, rookSquare, path, mask)
    requires |states| == |trail| > 0 && 3 <= i <= Window(states[|states| - 1]) && i < |states| && i % 2 == 1
    requires PseudoLegal(trail[|states| - 1], m) && SamePlace(Next(trail[|states| - 1], m), trail[|states| - 1 - i])
    ensures var top := |states| - 1;
            && Undone(z, states, i) == {}
            && Answers(slots, Xor(states[top].key, states[top - i].key), Occupied(trail[top].board))
  {
    hide *;
    var top := |states| - 1;
    var p, q := trail[top], trail[top - i];
    StretchOf(z, trail, words, states, rookSquare, path, mask, i);
    ReturnIsQuiet(trail, words, i, m);
    KeysAre(z, trail, states, top - i);
    UndoneIs(z, trail, words, states, i);
    KeyStep(z, p, q, m);
    XorSelf(SideFold(z, q.side, q.board));
    KeyDifference(PositionKey(z, q), PositionKey(z, p), Lifted(z, p.board, m), z.side);
    QuietIsStep(z, p.board, p.side, m);
    StepFound(z, slots, Xor(states[top].key, states[top - i].key), Occupied(p.board), p.board[m.from],
              if m.from < m.to then m.from else m.to, if m.from < m.to then m.to else m.from);
  }

  lemma KeysAre(z: Zobrist, trail: seq<Pos>, states: seq<StateInfo>, a: nat)
    requires a < |trail| == |states| && forall j :: a <= j < |states| ==> KeysOf(z, trail[j], states[j])
    ensures forall j :: a <= j < |states| ==> states[j].key == PositionKey(z, trail[j])
  {
    hide PositionKey;
  }

  lemma StepFound(z: Zobrist, slots: seq<Pair>, key: Key, occ: Bitboard, pc: Piece, s1: Square, s2: Square)
    requires Built(z, slots) && |slots| == SLOTS && DistinctSteps(z)
    requires Reversible(pc, s1, s2) && StepKey(z, pc, s1, s2) == key && Clear(s1, s2, occ)
    ensures Answers(slots, key, occ)
  {
    AnswersMeans(z, slots, key, occ);
    hide Built, Answers, Reversible, StepKey, Clear;
  }

  /** For a valid position, then, the answer is yes whenever such a move exists and the earlier
      position lies below the root or has itself occurred before. */
  lemma ReturnAnswered(pos: Position.Position, table: CuckooTable, ply: int, m: Move, i: nat)
    requires pos.Valid() && table.Valid() && Built(pos.z, table.Slots()) && DistinctSteps(pos.z)
    requires |pos.states| > 0 && i < |pos.states| == |pos.trail| && 3 <= i <= Window(pos.states[|pos.states| - 1]) &&
             i % 2 == 1
    requires Legal(pos.Abs(), m) && SamePlace(Next(pos.Abs(), m), pos.trail[|pos.trail| - 1 - i])
    ensures CycleAt(pos.z, table.Slots(), pos.states, Occupied(pos.board), ply, i)
            <==> ply > i || pos.states[|pos.states| - 1 - i].repetition != 0
  {
    hide *;
    pos.Top();
    WalkReads(pos);
    SlotsSize(table);
    LegalIs(pos.Abs(), m);
    ReturnFound(pos.z, pos.trail, pos.words, pos.states, pos.castlingRookSquare, pos.castlingPath,
                pos.castlingRightsMask,
                table.Slots(), m, i);
    CycleIs(pos.z, table.Slots(), pos.states, Occupied(pos.board), ply, i);
  }
}
