/** The draw tests, in the rules' own terms: the fifty-move rule and the return of a position. */
module Draws {
  import opened Squares
  import opened Types
  import opened Board
  import opened Rules
  import opened Derived
  import opened State
  import opened Play
  import opened Keys
  import opened Views
  import opened MoveGen
  import opened Exactness
  import opened Chains
  import opened Upcoming
  import opened Perft
  import Position

  // ----- an irreversible move is never taken back -----

  /** A piece counts one; a pawn counts one more for every step it still has to go. */
  function Weight(pc: Piece, s: Square): nat {
    if pc == NoPiece then 0 else if pc.kind == Pawn then 8 - RelativeRank(pc.color, s) else 1
  }

  /** The weight of the board up to square n. */
  function Total(b: Board, n: nat): nat
    requires n <= 64
  {
    if n == 0 then 0 else Total(b, n - 1) + Weight(b[n - 1], n - 1)
  }

  lemma {:induction false} TotalPut(b: Board, s: Square, pc: Piece, n: nat)
    requires n <= 64
    ensures Total(b[s := pc], n) == Total(b, n) + if s < n then Weight(pc, s) - Weight(b[s], s) else 0
  {
    if n > 0 {
      TotalPut(b, s, pc, n - 1);
    }
    hide Weight;
  }

  lemma WeightNone(s: Square)
    ensures Weight(NoPiece, s) == 0
  {
  }

  lemma TotalPlain(p: Pos, m: Move)
    requires WellFormed(p) && PseudoLegal(p, m) && m.kind != Castling
    ensures var c := CaptureSquare(m);
            Total(After(p.board, p.side, m), 64) ==
            Total(p.board, 64) - Weight(p.board[c], c) - Weight(p.board[m.from], m.from) +
              Weight(Arrives(p.board, p.side, m), m.to)
  {
    hide *;
    AfterSteps(p, m);
    var c := CaptureSquare(m);
    var b1: Board := p.board[c := NoPiece];
    var b2: Board := b1[m.from := NoPiece];
    WeightNone(c);
    WeightNone(m.from);
    WeightNone(m.to);
    TotalPut(p.board, c, NoPiece, 64);
    TotalPut(b1, m.from, NoPiece, 64);
    TotalPut(b2, m.to, Arrives(p.board, p.side, m), 64);
  }

  lemma TotalCastled(p: Pos, m: Move)
    requires WellFormed(p) && PseudoLegal(p, m) && m.kind == Castling
    ensures Total(After(p.board, p.side, m), 64) == Total(p.board, 64)
  {
    var b, us := p.board, p.side;
    var r := CastlingRight(us, m);
    CastlingSquares(p, m);
    TargetsOnBackRank(r);
    var b1: Board := b[m.from := NoPiece];
    var b2: Board := b1[m.to := NoPiece];
    var b3: Board := b2[KingTarget(r) := Piece(us, King)];
    assert b[m.from] == Piece(us, King) && b1[m.to] == Piece(us, Rook);
    assert b2[KingTarget(r)] == NoPiece && b3[RookTarget(r)] == NoPiece;
    assert b3[RookTarget(r) := Piece(us, Rook)] == After(b, us, m);
    OfficerWeights(us, m.from, m.to, KingTarget(r), RookTarget(r));
    hide *;
    TotalPut(b, m.from, NoPiece, 64);
    TotalPut(b1, m.to, NoPiece, 64);
    TotalPut(b2, KingTarget(r), Piece(us, King), 64);
    TotalPut(b3, RookTarget(r), Piece(us, Rook), 64);
  }

  lemma OfficerWeights(us: Color, a: Square, b: Square, c: Square, d: Square)
    ensures Weight(Piece(us, King), a) == Weight(Piece(us, King), c) == 1 &&
            Weight(Piece(us, Rook), b) == Weight(Piece(us, Rook), d) == 1
    ensures Weight(NoPiece, a) == Weight(NoPiece, b) == Weight(NoPiece, c) == Weight(NoPiece, d) == 0
  {
  }

  /** Pawns only go forward. */
  lemma PawnAdvances(b: Board, us: Color, from: Square, to: Square)
    requires PawnPush(b, us, from, to) || PawnDouble(b, us, from, to) || PawnStep(us, from, to)
    ensures RelativeRank(us, from) < RelativeRank(us, to)
  {
  }

  lemma MoverWeight(p: Pos, m: Move)
    requires WellFormed(p) && PseudoLegal(p, m) && m.kind != Castling
    ensures p.board[m.from].Piece?
    ensures Weight(Arrives(p.board, p.side, m), m.to) +
            (if p.board[m.from].kind == Pawn then 1 else 0) <= Weight(p.board[m.from], m.from)
  {
    MoverStands(p, m);
    if p.board[m.from].kind == Pawn {
      PawnAdvances(p.board, p.side, m.from, m.to);
    }
    hide WellFormed, PseudoLegal, Moves, PawnPush, PawnDouble, PawnStep, Rank;
  }

  lemma MoverStands(p: Pos, m: Move)
    requires PseudoLegal(p, m) && m.kind != Castling
    ensures p.board[m.from].Piece? && p.board[m.from].color == p.side
    ensures p.board[m.from].kind == Pawn ==>
              PawnPush(p.board, p.side, m.from, m.to) || PawnDouble(p.board, p.side, m.from, m.to) ||
                PawnStep(p.side, m.from, m.to)
    ensures m.kind == Promotion ==> p.board[m.from].kind == Pawn
  {
    hide Hits, PawnPush, PawnDouble, PawnStep, Occupied;
  }

  lemma CaptureWeighs(p: Pos, m: Move)
    requires m.kind != Castling && m.kind != EnPassant
    ensures IsCapture(p.board, m) ==> Weight(p.board[CaptureSquare(m)], CaptureSquare(m)) >= 1
  {
  }

  /** No move adds weight, and an irreversible one takes some away. */
  lemma TotalFalls(p: Pos, m: Move)
    requires WellFormed(p) && PseudoLegal(p, m)
    ensures Total(Next(p, m).board, 64) + (if Irreversible(p.board, m) then 1 else 0) <= Total(p.board, 64)
  {
    hide *;
    NextShape(p, m);
    IrreversibleIs(p, m);
    if m.kind == Castling {
      TotalCastled(p, m);
    } else {
      TotalPlain(p, m);
      MoverWeight(p, m);
      if m.kind != EnPassant {
        CaptureWeighs(p, m);
      }
    }
  }

  lemma IrreversibleIs(p: Pos, m: Move)
    requires WellFormed(p) && PseudoLegal(p, m)
    ensures m.kind == Castling ==> !Irreversible(p.board, m)
    ensures m.kind == EnPassant ==> p.board[m.from] == Piece(p.side, Pawn)
    ensures m.kind != Castling && m.kind != EnPassant && p.board[m.from].Piece? ==>
              (Irreversible(p.board, m) <==> IsCapture(p.board, m) || p.board[m.from].kind == Pawn)
  {
    if m.kind == Castling {
      CastlingSquares(p, m);
    }
    hide WellFormed, Moves, PawnStep, CastlingPath;
  }

  // ----- a stretch of real moves -----

  /** Positions a to b of the run follow from each other by moves, none of them null. */
  ghost predicate Played(trail: seq<Pos>, words: seq<Option<Move>>, a: nat, b: nat) {
    && a <= b < |trail| && |trail| == |words| + 1
    && forall j :: a <= j < b ==> PlayedAt(trail[j], words[j], trail[j + 1])
  }

  ghost predicate PlayedAt(p: Pos, word: Option<Move>, p': Pos) {
    WellFormed(p) && word.Some? && PseudoLegal(p, word.value) && p' == Next(p, word.value)
  }

  /** While the weight stays, the rule-50 counter runs. */
  lemma {:induction false} PlayedFalls(trail: seq<Pos>, words: seq<Option<Move>>, a: nat, b: nat)
    requires Played(trail, words, a, b)
    ensures Total(trail[b].board, 64) <= Total(trail[a].board, 64)
    ensures Total(trail[b].board, 64) == Total(trail[a].board, 64) ==> trail[b].rule50 == trail[a].rule50 + (b - a)
  {
    if a < b {
      PlayedFalls(trail, words, a, b - 1);
      assert PlayedAt(trail[b - 1], words[b - 1], trail[b]);
      TotalFalls(trail[b - 1], words[b - 1].value);
      NextShape(trail[b - 1], words[b - 1].value);
    }
    hide *;
  }

  lemma LinkPlays(p: Pos, word: Option<Move>, p': Pos, st': StateInfo)
    requires Linked(p, word, p', st')
    ensures p'.sinceNull > 0 ==> PlayedAt(p, word, p') && p'.sinceNull == p.sinceNull + 1
  {
    if word.Some? {
      NextShape(p, word.value);
    }
    hide WellFormed, Next, After, HasKing, InCheck, PseudoLegal;
  }

  // ----- a history -----

  /** The positions of a run, the words between them and the records they left behind. */
  datatype History = History(z: Zobrist, trail: seq<Pos>, words: seq<Option<Move>>, states: seq<StateInfo>,
                             rookSquare: map<Right, Square>, path: map<Right, Bitboard>, mask: seq<set<Right>>)

  ghost predicate Kept(h: History) {
    Chain(h.z, h.trail, h.words, h.states, h.rookSquare, h.path, h.mask)
  }

  lemma KeptSizes(h: History)
    requires Kept(h)
    ensures Chain(h.z, h.trail, h.words, h.states, h.rookSquare, h.path, h.mask)
    ensures |h.trail| == |h.states| == |h.words| + 1
  {
    hide NodesFresh, LinksHold, ChainCounters, RepetitionsFresh;
  }

  ghost function HistoryOf(pos: Position.Position): History
    reads pos
  {
    History(pos.z, pos.trail, pos.words, pos.states, pos.castlingRookSquare, pos.castlingPath, pos.castlingRightsMask)
  }

  lemma HistoryKept(pos: Position.Position)
    requires pos.Valid()
    ensures var h := HistoryOf(pos);
            Kept(h) && h.z == pos.z && h.trail == pos.trail && h.words == pos.words && h.states == pos.states
  {
    pos.Top();
    hide Chain;
  }

  /** The first n positions of a history. */
  function Before(h: History, n: nat): History
    requires 1 <= n <= |h.trail| == |h.states| == |h.words| + 1
  {
    h.(trail := h.trail[..n], words := h.words[..n - 1], states := h.states[..n])
  }

  lemma {:induction false} BeforeKept(h: History, n: nat)
    requires 1 <= n <= |h.trail| == |h.states| == |h.words| + 1
    requires Kept(h)
    ensures Kept(Before(h, n))
    decreases |h.trail|
  {
    hide Chain;
    if n == |h.trail| {
      assert Before(h, n) == h;
    } else {
      ChainPop(h.z, h.trail, h.words, h.states, h.rookSquare, h.path, h.mask);
      var shorter := Before(h, |h.trail| - 1);
      assert shorter.words == h.words[..|h.words| - 1];
      BeforeKept(shorter, n);
      assert Before(shorter, n) == Before(h, n);
    }
  }

  /** Back to the last null move every step was a real one. */
  lemma {:induction false} SinceNullPlayed(h: History, d: nat)
    requires |h.trail| == |h.words| + 1 && d <= h.trail[|h.trail| - 1].sinceNull
    requires Kept(h)
    ensures PlayedBack(h.trail, h.words, d)
  {
    hide *;
    KeptSizes(h);
    var top := |h.trail| - 1;
    NullDistance(h, top);
    if d == 0 {
      PlayedNone(h.trail, h.words);
    } else {
      SinceNullPlayed(h, d - 1);
      PlayedBackIs(h.trail, h.words, d - 1);
      var j := top - d;
      ChainLink(h.z, h.trail, h.words, h.states, h.rookSquare, h.path, h.mask, j);
      LinkPlays(h.trail[j], h.words[j], h.trail[j + 1], h.states[j + 1]);
      PlayedMore(h.trail, h.words, d);
    }
  }

  /** The null-move counter never reaches behind the stack. */
  lemma NullDistance(h: History, j: nat)
    requires j < |h.trail| == |h.states|
    requires Kept(h)
    ensures h.trail[j].sinceNull <= j
    ensures h.states[j].key == PositionKey(h.z, h.trail[j])
    ensures h.states[j].rule50 == h.trail[j].rule50 && h.states[j].pliesFromNull == h.trail[j].sinceNull
  {
    hide *;
    KeptSizes(h);
    CountersOf(h.z, h.trail, h.words, h.states, h.rookSquare, h.path, h.mask);
    ChainNode(h.z, h.trail, h.words, h.states, h.rookSquare, h.path, h.mask, j);
    NodeKeys(h.z, h.trail[j], h.states[j], h.rookSquare, h.path, h.mask);
    KeysOfIs(h.z, h.trail[j], h.states[j]);
    CountersReach(h.states, j);
  }

  lemma KeysOfIs(z: Zobrist, p: Pos, st: StateInfo)
    ensures KeysOf(z, p, st) ==> st.key == PositionKey(z, p) && st.rule50 == p.rule50 && st.pliesFromNull == p.sinceNull
  {
    hide PositionKey;
  }

  lemma CountersReach(states: seq<StateInfo>, j: nat)
    requires ChainCounters(states) && j < |states|
    ensures states[j].pliesFromNull <= j
  {
  }

  /** The last d plies were moves, none of them null. */
  ghost predicate PlayedBack(trail: seq<Pos>, words: seq<Option<Move>>, d: nat) {
    && d < |trail| == |words| + 1
    && var top := |trail| - 1;
       Played(trail, words, top - d, top) && trail[top - d].sinceNull == trail[top].sinceNull - d
  }

  lemma PlayedBackIs(trail: seq<Pos>, words: seq<Option<Move>>, d: nat)
    requires PlayedBack(trail, words, d)
    ensures d < |trail| == |words| + 1
    ensures var top := |trail| - 1;
            Played(trail, words, top - d, top) && trail[top - d].sinceNull == trail[top].sinceNull - d
  {
    hide Played;
  }

  lemma PlayedNone(trail: seq<Pos>, words: seq<Option<Move>>)
    requires |trail| == |words| + 1
    ensures PlayedBack(trail, words, 0)
  {
  }

  lemma PlayedMore(trail: seq<Pos>, words: seq<Option<Move>>, d: nat)
    requires 0 < d < |trail| == |words| + 1 && PlayedBack(trail, words, d - 1)
    requires var j := |trail| - 1 - d;
             PlayedAt(trail[j], words[j], trail[j + 1]) && trail[j + 1].sinceNull == trail[j].sinceNull + 1
    ensures PlayedBack(trail, words, d)
  {
    hide PlayedAt;
  }

  // ----- the return of a position -----

  /** The position d plies ago, no null move since, has returned. */
  ghost predicate Returned(trail: seq<Pos>, d: int)
    requires |trail| > 0
  {
    var top := |trail| - 1;
    1 <= d <= trail[top].sinceNull && d <= top && SamePlace(trail[top - d], trail[top])
  }

  /** Two quiet plies by different sides leave another board behind. */
  lemma TwoPliesDiffer(b: Board, us: Color, m: Move, n: Move)
    requires Quiet(b, m) && IsColor(b, us, m.from)
    requires Quiet(After(b, us, m), n) && IsColor(After(b, us, m), Flip(us), n.from)
    ensures After(After(b, us, m), Flip(us), n) != b
  {
    var b1 := After(b, us, m);
    var b2 := After(b1, Flip(us), n);
    assert b1[m.from] == NoPiece || m.from == m.to;
    FlipTwice(us);
    if m.from != m.to {
      assert b2[m.from] == if n.to == m.from then b1[n.from] else if n.from == m.from then NoPiece else b1[m.from];
    }
  }

  /** Along reversible moves a position takes an even number of plies, at least four, to return. */
  lemma QuietReturn(trail: seq<Pos>, words: seq<Option<Move>>, a: nat, b: nat)
    requires Stretch(trail, words, a, b) && SamePlace(trail[a], trail[b]) && a < b
    ensures (b - a) % 2 == 0 && b - a >= 4
  {
    hide *;
    StretchSize(trail, words, a, b);
    SamePlaceIs(trail[a], trail[b]);
    StretchKeeps(trail, words, a, b);
    FlipTwice(trail[a].side);
    if b == a + 2 {
      StretchQuiet(trail, words, a, b, a);
      StretchQuiet(trail, words, a, b, a + 1);
      TwoPliesDiffer(trail[a].board, trail[a].side, words[a].value, words[a + 1].value);
    }
  }

  ghost predicate TopRecurs(states: seq<StateInfo>, d: int)
    requires |states| > 0
  {
    RecursAt(states, |states| - 1, d)
  }

  lemma TopRecursIs(states: seq<StateInfo>)
    requires |states| > 0
    ensures forall d :: TopRecurs(states, d) <==> RecursAt(states, |states| - 1, d)
  {
    hide RecursAt;
  }

  /** So a return lies inside the window the code walks, whatever was captured or pushed before. */
  lemma ReturnInWindow(h: History, d: int)
    requires |h.states| == |h.trail| > 0 && Returned(h.trail, d)
    requires Kept(h)
    ensures TopRecurs(h.states, d)
  {
    hide *;
    KeptSizes(h);
    var top := |h.trail| - 1;
    ReturnedIs(h.trail, d);
    SinceNullPlayed(h, d);
    PlayedBackIs(h.trail, h.words, d);
    PlayedFalls(h.trail, h.words, top - d, top);
    SamePlaceIs(h.trail[top - d], h.trail[top]);
    NullDistance(h, top);
    NullDistance(h, top - d);
    WindowIs(h.states[top]);
    StretchOf(h.z, h.trail, h.words, h.states, h.rookSquare, h.path, h.mask, d);
    QuietReturn(h.trail, h.words, top - d, top);
    SameKey(h.z, h.trail[top - d], h.trail[top]);
    RecursIs(h.states, top, d);
    TopRecursIs(h.states);
  }

  lemma ReturnedIs(trail: seq<Pos>, d: int)
    requires |trail| > 0
    ensures var top := |trail| - 1;
            Returned(trail, d) <==> 1 <= d <= trail[top].sinceNull && d <= top && SamePlace(trail[top - d], trail[top])
  {
    hide SamePlace;
  }

  lemma WindowIs(st: StateInfo)
    ensures Window(st) == if st.rule50 < st.pliesFromNull then st.rule50 else st.pliesFromNull
  {
  }

  lemma RecursIs(states: seq<StateInfo>, i: nat, d: int)
    requires i < |states|
    ensures RecursAt(states, i, d) <==>
              4 <= d <= Window(states[i]) && d <= i && d % 2 == 0 && states[i - d].key == states[i].key
  {
    hide Window;
  }

  /** No other position of the last one's window has its key. */
  ghost predicate KeysTell(z: Zobrist, trail: seq<Pos>)
    requires |trail| > 0
  {
    var p := trail[|trail| - 1];
    forall d :: 4 <= d < |trail| && d <= p.rule50 && d <= p.sinceNull ==> KeyTells(z, trail, d)
  }

  ghost predicate KeyTells(z: Zobrist, trail: seq<Pos>, d: int)
    requires 0 <= d < |trail|
  {
    var p, q := trail[|trail| - 1], trail[|trail| - 1 - d];
    PositionKey(z, q) == PositionKey(z, p) ==> SamePlace(q, p)
  }

  lemma KeysTellAt(z: Zobrist, trail: seq<Pos>, d: nat)
    requires d < |trail|
    requires var top := |trail| - 1;
             && 4 <= d <= trail[top].rule50 && d <= trail[top].sinceNull
             && PositionKey(z, trail[top - d]) == PositionKey(z, trail[top])
    requires KeysTell(z, trail)
    ensures SamePlace(trail[|trail| - 1 - d], trail[|trail| - 1])
  {
    assert KeyTells(z, trail, d);
    hide SamePlace, PositionKey;
  }

  lemma RecurrenceReturned(h: History, d: int)
    requires |h.states| == |h.trail| > 0 && TopRecurs(h.states, d) && KeysTell(h.z, h.trail)
    requires Kept(h)
    ensures Returned(h.trail, d)
  {
    hide *;
    var top := |h.trail| - 1;
    TopRecursIs(h.states);
    RecursIs(h.states, top, d);
    NullDistance(h, top);
    NullDistance(h, top - d);
    WindowIs(h.states[top]);
    KeysTellAt(h.z, h.trail, d);
    ReturnedIs(h.trail, d);
  }

  /** Two returns are four plies apart or more. */
  lemma ReturnsApart(h: History, d: int, e: int)
    requires |h.states| == |h.trail| > 0 && Returned(h.trail, d) && Returned(h.trail, e) && d < e
    requires Kept(h)
    ensures (e - d) % 2 == 0 && e - d >= 4
  {
    hide *;
    KeptSizes(h);
    var top := |h.trail| - 1;
    ReturnedIs(h.trail, d);
    ReturnedIs(h.trail, e);
    ReturnInWindow(h, e);
    TopRecursIs(h.states);
    RecursIs(h.states, top, e);
    StretchOf(h.z, h.trail, h.words, h.states, h.rookSquare, h.path, h.mask, e);
    StretchPart(h.trail, h.words, top - e, top - d, top);
    SamePlaceIs(h.trail[top - d], h.trail[top]);
    SamePlaceIs(h.trail[top - e], h.trail[top]);
    SamePlaceIs(h.trail[top - e], h.trail[top - d]);
    QuietReturn(h.trail, h.words, top - e, top - d);
  }

  /** The recorded value, in positions: nonzero for every return, and for nothing else as long as
      keys tell the last position of the run apart from those it is compared with. */
  lemma RecurredMeans(h: History)
    requires |h.states| == |h.trail| > 0
    requires Kept(h)
    ensures Recurred(h.trail) ==> h.states[|h.states| - 1].repetition != 0
    ensures KeysTell(h.z, h.trail) && h.states[|h.states| - 1].repetition != 0 ==> Recurred(h.trail)
  {
    hide *;
    var top := |h.states| - 1;
    KeptRecurrences(h);
    RepetitionMeans(h.states, top);
    TopRecursIs(h.states);
    RecurredIs(h.trail);
    if d :| Returned(h.trail, d) {
      ReturnInWindow(h, d);
    }
    if KeysTell(h.z, h.trail) && h.states[top].repetition != 0 {
      var d :| RecursAt(h.states, top, d);
      RecurrenceReturned(h, d);
    }
  }

  /** The last position has occurred before, with no null move since. */
  ghost predicate Recurred(trail: seq<Pos>)
    requires |trail| > 0
  {
    exists d :: Returned(trail, d)
  }

  lemma RecurredIs(trail: seq<Pos>)
    requires |trail| > 0
    ensures Recurred(trail) <==> exists d :: Returned(trail, d)
  {
    hide Returned;
  }

  /** The test over a history. */
  lemma RepetitionKept(h: History, ply: nat)
    requires |h.states| == |h.trail| > 0
    requires Kept(h)
    ensures Repeats(h.trail, ply) ==> IsRepetition(h.states, ply)
    ensures KeysTell(h.z, h.trail) && IsRepetition(h.states, ply) ==> Repeats(h.trail, ply)
  {
    hide *;
    var states, top := h.states, |h.states| - 1;
    KeptRecurrences(h);
    IsRepetitionMeans(states, ply);
    RepeatsIs(h.trail, ply);
    TopRecursIs(states);
    if d :| Returned(h.trail, d) && d < ply {
      ReturnInWindow(h, d);
    }
    if d, e :| Returned(h.trail, d) && Returned(h.trail, e) && d < e {
      ReturnInWindow(h, d);
      ReturnInWindow(h, e);
      ReturnsApart(h, d, e);
      TwiceRecurs(states, d, e);
    }
    if KeysTell(h.z, h.trail) && IsRepetition(states, ply) {
      if d :| RecursAt(states, top, d) && d < ply {
        RecurrenceReturned(h, d);
      } else {
        var d, e :| NearestThenEarlier(states, top, d, e);
        NearestIs(states, top, d, e);
        RecurrenceReturned(h, d);
        RecurrenceReturned(h, d + e);
      }
    }
  }

  /** pos_is_repetition never misses a position that has returned since the last null move, nearer
      than the root or for the second time; and as long as keys tell the last position apart from
      those of its window it answers for nothing else. */
  lemma RepetitionRule(pos: Position.Position, ply: nat)
    requires |pos.states| == |pos.trail| > 0
    requires pos.Valid()
    ensures Repeats(pos.trail, ply) ==> IsRepetition(pos.states, ply)
    ensures KeysTell(pos.z, pos.trail) && IsRepetition(pos.states, ply) ==> Repeats(pos.trail, ply)
  {
    hide *;
    HistoryKept(pos);
    RepetitionKept(HistoryOf(pos), ply);
  }

  /** The last position has come back: nearer than the root, or for the second time. */
  ghost predicate Repeats(trail: seq<Pos>, ply: nat)
    requires |trail| > 0
  {
    (exists d :: Returned(trail, d) && d < ply) || exists d, e :: Returned(trail, d) && Returned(trail, e) && d < e
  }

  lemma RepeatsIs(trail: seq<Pos>, ply: nat)
    requires |trail| > 0
    ensures Repeats(trail, ply) <==>
              (exists d :: Returned(trail, d) && d < ply) ||
              exists d, e :: Returned(trail, d) && Returned(trail, e) && d < e
  {
    hide Returned;
  }

  lemma KeptRecurrences(h: History)
    requires Kept(h)
    ensures ChainCounters(h.states) && RepetitionsFresh(h.states)
  {
    hide *;
    KeptSizes(h);
    CountersOf(h.z, h.trail, h.words, h.states, h.rookSquare, h.path, h.mask);
    ChainRepetitions(h.z, h.trail, h.words, h.states, h.rookSquare, h.path, h.mask);
  }

  lemma ChainRepetitions(z: Zobrist, trail: seq<Pos>, words: seq<Option<Move>>, states: seq<StateInfo>,
                         rookSquare: map<Right, Square>, path: map<Right, Bitboard>, mask: seq<set<Right>>)
    requires Chain(z, trail, words, states, rookSquare, path, mask)
    ensures RepetitionsFresh(states)
  {
    hide NodesFresh, LinksHold, ChainCounters, RepetitionsFresh;
  }

  lemma NearestIs(states: seq<StateInfo>, i: nat, d: int, e: int)
    requires i < |states| && NearestThenEarlier(states, i, d, e)
    ensures RecursAt(states, i, d) && RecursAt(states, i, d + e) && e >= 4
  {
    hide RecursAt;
  }

  /** Two recurrences: the nearest has one behind it. */
  lemma TwiceRecurs(states: seq<StateInfo>, d: int, e: int)
    requires |states| > 0 && ChainCounters(states) && RepetitionsFresh(states)
    requires RecursAt(states, |states| - 1, d) && RecursAt(states, |states| - 1, e) && (e - d) % 2 == 0 && e - d >= 4
    ensures var top := |states| - 1; exists d', e' :: NearestThenEarlier(states, top, d', e')
  {
    var top := |states| - 1;
    RepetitionMeans(states, top);
    hide RepetitionFresh, ChainCounters, RepetitionsFresh;
    var n := Abs(states[top].repetition);
    assert RecursAt(states, top, n) && n <= d;
    assert NearestThenEarlier(states, top, n, e - n);
  }

  // ----- pos_is_draw -----

  /** Check, and no legal move. */
  ghost predicate Mated(p: Pos)
    requires HasKing(p.board, p.side)
  {
    InCheck(p.board, p.side) && forall m :: !Legal(p, m)
  }

  /** A hundred plies without a capture or a pawn move draw, unless the last of them mates;
      otherwise repetition decides. */
  method IsDraw(pos: Position.Position, ply: nat) returns (r: bool)
    requires |pos.states| == |pos.trail| > 0
    requires pos.Valid()
    ensures HasKing(pos.Abs().board, pos.Abs().side)
    ensures r <==> (pos.Abs().rule50 > 99 && !Mated(pos.Abs())) || IsRepetition(pos.states, ply)
  {
    hide *;
    pos.Top();
    pos.Seen();
    var st := pos.states[|pos.states| - 1];
    ghost var p := pos.Abs();
    HistoryKept(pos);
    NullDistance(HistoryOf(pos), |pos.trail| - 1);
    WellFormedKings(p);
    CheckersTell(pos.z, p, pos.Snap());
    pos.SnapIs();
    if st.rule50 > 99 {
      if st.checkers == {} {
        MatedIs(p, []);
        return true;
      }
      var list := Perft.LegalMoves(pos);
      MatedIs(p, list);
      if list != [] {
        return true;
      }
    }
    r := IsRepetition(pos.states, ply);
  }

  lemma MatedIs(p: Pos, list: seq<Move>)
    requires HasKing(p.board, p.side)
    ensures !InCheck(p.board, p.side) ==> !Mated(p)
    ensures Lists(p, list) && InCheck(p.board, p.side) ==> (Mated(p) <==> list == [])
  {
    hide InCheck, Legal;
    if Lists(p, list) {
      if list != [] {
        CountMember(list, list[0]);
        assert Count(list, list[0]) == Bit(Legal(p, list[0]));
      } else {
        forall m
          ensures !Legal(p, m)
        {
          CountEmpty(m);
          assert Count(list, m) == Bit(Legal(p, m));
        }
      }
    }
  }
}
