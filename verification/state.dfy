/** The state record of a position, and what it means for it to be fresh. */
module State {
  import opened Squares
  import opened Types
  import opened Board
  import opened Rules
  import opened Attacks
  import opened Derived

  /** The source's StateInfo; the chain through `previous` is a stack of these. */
  datatype StateInfo = StateInfo(
    materialKey: Key,
    pawnKey: Key,
    minorPieceKey: Key,
    nonPawnKey: seq<Key>,
    nonPawnMaterial: seq<int>,
    rule50: nat,
    pliesFromNull: nat,
    epSquare: Option<Square>,
    castlingRights: set<Right>,
    key: Key,
    checkers: Bitboard,
    blockers: seq<Bitboard>,
    pinners: seq<Bitboard>,
    checkSquares: seq<Bitboard>,
    threats: seq<Bitboard>,
    capturedPiece: Piece,
    repetition: int)

  // ----- freshness -----

  ghost predicate AuxKeysFresh(z: Zobrist, b: Board, st: StateInfo) {
    && |st.nonPawnKey| == 2
    && st.pawnKey == Xor(z.noPawns, Fold(z, PawnKey, b, 64))
    && st.minorPieceKey == Fold(z, MinorKey, b, 64)
    && forall c: Color :: st.nonPawnKey[ColorIndex(c)] == Fold(z, NonPawnKey(c), b, 64)
  }

  ghost predicate MaterialFresh(z: Zobrist, b: Board, st: StateInfo) {
    && |st.nonPawnMaterial| == 2
    && st.materialKey == MaterialKey(z, b)
    && forall c: Color :: st.nonPawnMaterial[ColorIndex(c)] == NonPawnMaterial(b, c)
  }

  ghost predicate CountersFresh(p: Pos, st: StateInfo) {
    st.rule50 == p.rule50 && st.pliesFromNull == p.sinceNull && st.epSquare == p.ep && st.castlingRights == p.rights
  }

  ghost predicate PinsFresh(b: Board, st: StateInfo)
    requires HasKing(b, White) && HasKing(b, Black)
  {
    && |st.blockers| == 2 && |st.pinners| == 2
    && forall c: Color ::
         && st.blockers[ColorIndex(c)] == BlockersBB(b, Flip(c), KingOf(b, c))
         && st.pinners[ColorIndex(Flip(c))] == PinnersBB(b, Flip(c), KingOf(b, c))
  }

  ghost predicate CheckSquaresFresh(b: Board, us: Color, st: StateInfo)
    requires HasKing(b, Flip(us))
  {
    && |st.checkSquares| == 7
    && forall kind: PieceType :: st.checkSquares[TypeIndex(kind)] == CheckSquaresBB(b, us, KingOf(b, Flip(us)), kind)
  }

  /** Filled threat sets are exact; an empty total means they have not been filled. */
  ghost predicate ThreatsFresh(b: Board, us: Color, st: StateInfo)
    requires HasKing(b, us)
  {
    && |st.threats| == 7
    && (st.threats[0] != {} ==>
          && st.threats[0] == AllThreatsBB(b, Flip(us), KingOf(b, us))
          && forall kind: PieceType :: st.threats[TypeIndex(kind)] == ThreatsBB(b, Flip(us), KingOf(b, us), kind))
  }

  ghost predicate Fresh(z: Zobrist, p: Pos, st: StateInfo)
    requires HasKing(p.board, White) && HasKing(p.board, Black)
  {
    && AuxKeysFresh(z, p.board, st)
    && MaterialFresh(z, p.board, st)
    && CountersFresh(p, st)
    && st.key == PositionKey(z, p)
    && st.checkers == AttackersBB(p.board, Flip(p.side), KingOf(p.board, p.side), Occupied(p.board))
    && PinsFresh(p.board, st)
    && CheckSquaresFresh(p.board, p.side, st)
    && ThreatsFresh(p.board, p.side, st)
  }

  // ----- the repetition field -----

  function Min(a: int, b: int): int {
    if a < b then a else b
  }

  /** How far back a position can recur: no further than the last irreversible or null move. */
  function Window(st: StateInfo): int {
    Min(st.rule50, st.pliesFromNull)
  }

  /** The key of states[i] occurs d plies before it, an even distance of at least four inside
      the window. */
  predicate RecursAt(states: seq<StateInfo>, i: nat, d: int)
    requires i < |states|
  {
    4 <= d <= Window(states[i]) && d <= i && d % 2 == 0 && states[i - d].key == states[i].key
  }

  /** The recorded value: the distance to the nearest recurrence, negated when that earlier
      state recurred itself. */
  ghost predicate RepetitionFresh(states: seq<StateInfo>, i: nat)
    requires i < |states|
  {
    && (states[i].repetition == 0 ==> forall d :: !RecursAt(states, i, d))
    && (states[i].repetition != 0 ==>
          var d := Abs(states[i].repetition);
          && RecursAt(states, i, d)
          && (forall e :: RecursAt(states, i, e) ==> d <= e)
          && (states[i].repetition < 0 <==> states[i - d].repetition != 0))
  }

  /** A made move: one ply on both counters unless it is irreversible; a null move restarts
      the second counter and leaves the first. */
  predicate CountersStep(before: StateInfo, after: StateInfo) {
    || (after.rule50 == before.rule50 + 1 && after.pliesFromNull == before.pliesFromNull + 1)
    || after.rule50 == 0
    || after.pliesFromNull == 0
  }

  ghost predicate ChainCounters(states: seq<StateInfo>) {
    && (forall i :: 0 <= i < |states| ==> 0 <= states[i].rule50 && 0 <= states[i].pliesFromNull <= i)
    && (forall i :: 0 < i < |states| ==> CountersStep(states[i - 1], states[i]))
  }

  ghost predicate RepetitionsFresh(states: seq<StateInfo>) {
    forall i :: 0 <= i < |states| ==> RepetitionFresh(states, i)
  }

  /** d plies back inside the window, the window is d shorter. */
  lemma {:induction false} WindowShrinks(states: seq<StateInfo>, i: nat, d: nat)
    requires i < |states| && ChainCounters(states)
    requires d <= Window(states[i])
    ensures d <= i && Window(states[i - d]) == Window(states[i]) - d
  {
    if d > 0 {
      WindowShrinks(states, i, d - 1);
      assert CountersStep(states[i - d], states[i - d + 1]);
    }
  }

  /** The field is 0 when the key does not recur, else the distance to the nearest recurrence,
      and negative exactly when there is a second one beyond it. */
  lemma RepetitionMeans(states: seq<StateInfo>, i: nat)
    requires i < |states| && ChainCounters(states) && RepetitionsFresh(states)
    ensures states[i].repetition == 0 <==> forall d :: !RecursAt(states, i, d)
    ensures states[i].repetition != 0 ==>
              && RecursAt(states, i, Abs(states[i].repetition))
              && (forall e :: RecursAt(states, i, e) ==> Abs(states[i].repetition) <= e)
    ensures states[i].repetition < 0 <==>
              exists d, e :: NearestThenEarlier(states, i, d, e)
  {
    assert RepetitionFresh(states, i);
    var rep := states[i].repetition;
    if rep != 0 {
      var d := Abs(rep);
      WindowShrinks(states, i, d);
      assert RepetitionFresh(states, i - d);
      if states[i - d].repetition != 0 {
        var e := Abs(states[i - d].repetition);
        assert RecursAt(states, i - d, e);
        assert RecursAt(states, i, d + e);
        assert NearestThenEarlier(states, i, d, e);
      }
      forall d', e | NearestThenEarlier(states, i, d', e)
        ensures states[i - d].repetition != 0
      {
        assert d' == d;
        assert RecursAt(states, i - d, e);
      }
    }
  }

  /** d is the nearest recurrence of state i, and the key occurs once more e plies before it. */
  ghost predicate NearestThenEarlier(states: seq<StateInfo>, i: nat, d: int, e: int)
    requires i < |states|
  {
    && RecursAt(states, i, d) && (forall f :: RecursAt(states, i, f) ==> d <= f)
    && 4 <= e && e % 2 == 0 && RecursAt(states, i, d + e)
  }

  // ----- the queries -----

  /** pos_is_repetition. */
  predicate IsRepetition(states: seq<StateInfo>, ply: int)
    requires |states| > 0
  {
    var rep := states[|states| - 1].repetition;
    rep != 0 && rep < ply
  }

  /** Yes when the key recurs nearer than the root, or when it recurs and then once more. */
  lemma IsRepetitionMeans(states: seq<StateInfo>, ply: nat)
    requires |states| > 0 && ChainCounters(states) && RepetitionsFresh(states)
    ensures var top := |states| - 1;
            IsRepetition(states, ply) <==>
              (exists d :: RecursAt(states, top, d) && d < ply) || exists d, e :: NearestThenEarlier(states, top, d, e)
  {
    var top := |states| - 1;
    RepetitionMeans(states, top);
    hide RepetitionFresh, ChainCounters, RepetitionsFresh;
  }

  /** Two states of the window share a key. */
  ghost predicate SomeRecurrence(states: seq<StateInfo>, top: nat, i: int, d: int)
    requires top < |states|
  {
    0 <= i && 4 <= d && d % 2 == 0 && i + d <= Window(states[top]) && i + d <= top
    && states[top - i].key == states[top - i - d].key
  }

  ghost predicate AnyRecurrence(states: seq<StateInfo>, top: nat)
    requires top < |states|
  {
    exists i, d :: SomeRecurrence(states, top, i, d)
  }

  /** pos_has_repeated: walk the window back and ask each state whether it recurred. */
  method HasRepeated(states: seq<StateInfo>) returns (r: bool)
    requires |states| > 0 && ChainCounters(states) && RepetitionsFresh(states)
    ensures r <==> AnyRecurrence(states, |states| - 1)
  {
    var top := |states| - 1;
    var end := Min(states[top].rule50, states[top].pliesFromNull);
    var walked := 0;
    while end >= 4
      invariant end + walked == Window(states[top])
      invariant 0 <= walked <= top
      invariant forall i, d :: i < walked ==> !SomeRecurrence(states, top, i, d)
    {
      WindowShrinks(states, top, walked);
      RepetitionMeans(states, top - walked);
      if states[top - walked].repetition != 0 {
        assert SomeRecurrence(states, top, walked, Abs(states[top - walked].repetition));
        return true;
      }
      forall d
        ensures !SomeRecurrence(states, top, walked, d)
      {
        assert !RecursAt(states, top - walked, d);
      }
      WindowShrinks(states, top, walked + 1);
      walked := walked + 1;
      end := end - 1;
    }
    r := false;
  }

  /** The walk pos_do_move performs for the state just pushed: two plies at a time, from four. */
  method RepetitionWalk(states: seq<StateInfo>) returns (rep: int)
    requires |states| > 0 && ChainCounters(states)
    ensures forall st :: st == states[|states| - 1].(repetition := rep) ==>
              RepetitionFresh(states[..|states| - 1] + [st], |states| - 1)
  {
    var top := |states| - 1;
    rep := 0;
    var end := if states[top].rule50 < states[top].pliesFromNull then states[top].rule50 else states[top].pliesFromNull;
    if end >= 4 {
      var back := 2;
      var i := 4;
      while i <= end
        invariant back == i - 2 && i % 2 == 0 && 4 <= i
        invariant rep == 0
        invariant forall d :: d < i ==> !RecursAt(states, top, d)
      {
        back := back + 2;
        if states[top - back].key == states[top].key {
          rep := if states[top - back].repetition != 0 then -i else i;
          break;
        }
        i := i + 2;
      }
      assert rep != 0 ==> RecursAt(states, top, i) && Abs(rep) == i;
    }
    ghost var done := states[..top] + [states[top].(repetition := rep)];
    forall d
      ensures RecursAt(done, top, d) <==> RecursAt(states, top, d)
    {
    }
  }
}
