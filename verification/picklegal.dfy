/** The main picker over the generator's own lists: it plays out the legal moves. */
module PickLegal {
  import opened Types
  import opened Board
  import opened Rules
  import opened Derived
  import opened Views
  import opened MoveGen
  import opened Exactness
  import opened Legality
  import opened MovePick
  import opened PickOrder
  import Perft

  /** The bound MAX_MOVES rests on: no position has more legal moves than the buffer holds. */
  ghost predicate FewMoves(p: Pos) {
    forall list: seq<Move> :: (forall m :: Count(list, m) == Bit(Legal(p, m))) ==> |list| <= MAX_MOVES
  }

  /** The moves of the picker's lists: every legal move in check or at positive depth, else the legal
      moves of the capture stage. */
  ghost predicate Listed(p: Pos, depth: int, m: Move)
    requires HasKing(p.board, p.side)
  {
    Legal(p, m) && (InCheck(p.board, p.side) || depth > 0 || InCaptures(p.board, m))
  }

  /** What the picker owes its caller: the TT move whenever it is usable, whatever promotion bits a
      normal word carries, and of the others those on the lists. */
  ghost predicate Offered(p: Pos, tt: Option<Move>, depth: int, m: Move)
    requires HasKing(p.board, p.side)
  {
    if tt == Some(m) then Legal(p, Plain(m)) else Listed(p, depth, m)
  }

  /** movepick_init with mp_set_main_stage: evasions in check, the main list at positive depth, the
      captures alone below it. The TT move opens the list when it is legal. */
  method MainPicker(ghost z: Zobrist, ghost p: Pos, v: View, tt: Option<Move>, depth: int,
                    score: (ListKind, Move) -> int, seeGe: (Move, int) -> bool)
    returns (mp: MovePicker)
    requires WellFormed(p) && Represents(z, p, v) && FewMoves(p)
    ensures mp.Valid() && Distinct(mp.setup) && fresh(mp) && fresh(mp.moves) && mp.setup.tt == tt
    ensures HasKing(p.board, p.side) && forall m :: Count(mp.Agenda(), m) == Bit(Offered(p, tt, depth, m))
    ensures tt.Some? && Legal(p, Plain(tt.value)) ==> mp.Agenda() != [] && mp.Agenda()[0] == tt.value
    ensures ListsHold(p, mp.setup, depth) && mp.setup.depth == depth && mp.setup.score == score &&
            mp.setup.seeGe == seeGe
  {
    hide *;
    StagesExact(z, p, v);
    CheckersTell(z, p, v);
    var usable := false;
    if tt.Some? {
      usable := PosLegal(z, p, v, tt.value);
    }
    var captures, quiets, evasions := [], [], [];
    var first := EvasionStage;
    if v.st.checkers != {} {
      evasions := GenerateAll(v, [], Evasions);
    } else {
      StagesShare(z, p, v);
      captures := GenerateAll(v, [], Captures);
      first := QSearchStage;
      if depth > 0 {
        quiets := GenerateAll(v, [], Quiets);
        first := GoodCaptureStage;
      }
    }
    var setup := Setup(captures, quiets, evasions, score, seeGe, tt, 0, depth, first);
    ShareOut(p, setup, depth);
    HoldLists(p, setup, depth);
    ListsLegal(p, setup, depth);
    mp := new MovePicker(setup, usable);
    AgendaOffered(p, setup, depth, usable);
    TTFirst(setup, usable);
  }

  /** Which legal moves each list holds, and which kind of picker it is. */
  ghost predicate ListsHold(p: Pos, setup: Setup, depth: int)
    requires HasKing(p.board, p.side)
  {
    && setup.firstStage ==
       (if InCheck(p.board, p.side) then EvasionStage else if depth > 0 then GoodCaptureStage else QSearchStage)
    && forall m ::
       && (m in setup.evasions <==> Legal(p, m) && InCheck(p.board, p.side))
       && (m in setup.captures <==> Legal(p, m) && !InCheck(p.board, p.side) && InCaptures(p.board, m))
       && (m in setup.quiets <==> Legal(p, m) && !InCheck(p.board, p.side) && depth > 0 && !InCaptures(p.board, m))
  }

  lemma HoldLists(p: Pos, setup: Setup, depth: int)
    requires HasKing(p.board, p.side)
    requires setup.firstStage == if InCheck(p.board, p.side) then EvasionStage else if depth > 0 then GoodCaptureStage
      else QSearchStage
    requires InCheck(p.board, p.side) ==>
               setup.captures == [] && setup.quiets == [] && forall m :: Count(setup.evasions, m) == Bit(Legal(p, m))
    requires !InCheck(p.board, p.side) ==>
               && setup.evasions == [] && (depth <= 0 ==> setup.quiets == [])
               && (forall m :: Count(setup.captures, m) == Bit(Legal(p, m) && InCaptures(p.board, m)))
               && (depth > 0 ==> forall m :: Count(setup.quiets, m) == Bit(Legal(p, m) && !InCaptures(p.board, m)))
    ensures ListsHold(p, setup, depth)
  {
    forall m
      ensures m in setup.evasions <==> Legal(p, m) && InCheck(p.board, p.side)
      ensures m in setup.captures <==> Legal(p, m) && !InCheck(p.board, p.side) && InCaptures(p.board, m)
      ensures m in setup.quiets <==> Legal(p, m) && !InCheck(p.board, p.side) && depth > 0 && !InCaptures(p.board, m)
    {
      MemberCounts(setup.evasions, m);
      MemberCounts(setup.captures, m);
      MemberCounts(setup.quiets, m);
      hide Legal, Count, InCheck, InCaptures;
    }
    hide Legal, Count, InCheck, InCaptures;
  }

  /** search_capture_stage, which reads the promotion bits of any word. */
  predicate CaptureStage(b: Board, m: Move) {
    IsCapture(b, m) || m.promo == Queen
  }

  /** What the ProbCut picker owes: the TT move when it is a usable capture, and of the others the
      legal captures see_ge lets past the threshold. */
  ghost predicate ProbOffered(p: Pos, setup: Setup, m: Move) {
    if setup.tt == Some(m) then CaptureStage(p.board, m) && Legal(p, Plain(m))
    else Legal(p, m) && InCaptures(p.board, m) && setup.seeGe(m, setup.threshold)
  }

  /** movepick_init_probcut with mp_set_probcut_stage, out of check. */
  method ProbCutPicker(ghost z: Zobrist, ghost p: Pos, v: View, tt: Option<Move>, threshold: int,
                       score: (ListKind, Move) -> int, seeGe: (Move, int) -> bool)
    returns (mp: MovePicker)
    requires WellFormed(p) && Represents(z, p, v) && FewMoves(p) && v.st.checkers == {}
    ensures mp.Valid() && Distinct(mp.setup) && fresh(mp) && fresh(mp.moves)
    ensures mp.setup.tt == tt && mp.setup.threshold == threshold && mp.setup.seeGe == seeGe
    ensures forall m :: Count(mp.Agenda(), m) == Bit(ProbOffered(p, mp.setup, m))
  {
    hide *;
    StagesExact(z, p, v);
    CheckersTell(z, p, v);
    StagesShare(z, p, v);
    BoardShown(z, p, v);
    var usable := false;
    if tt.Some? {
      usable := PosLegal(z, p, v, tt.value);
      CaptureStageIs(p.board, tt.value);
      usable := usable &&
        ((tt.value.kind == EnPassant || (tt.value.kind != Castling && v.board[tt.value.to] != NoPiece))
                           || tt.value.promo == Queen);
    }
    var captures := GenerateAll(v, [], Captures);
    var setup := Setup(captures, [], [], score, seeGe, tt, threshold, 0, ProbCutStage);
    ghost var plain := setup.(firstStage := QSearchStage);
    CountEmptyAll();
    ShareOut(p, plain, 0);
    ListsLegal(p, plain, 0);
    ProbPickable(setup);
    mp := new MovePicker(setup, usable);
    OpeningIs(setup, usable);
    forall m
      ensures Count(mp.Agenda(), m) == Bit(ProbOffered(p, setup, m))
    {
      BitIs();
      OpeningDue(setup, usable, m);
      MemberCounts(captures, m);
      ProbDue(p, setup, usable, m);
    }
  }

  lemma BoardShown(z: Zobrist, p: Pos, v: View)
    requires WellFormed(p) && Represents(z, p, v)
    ensures v.board == p.board
  {
    hide TypesSynced, ColorsSynced, PathsFresh;
  }

  lemma CaptureStageIs(b: Board, m: Move)
    ensures CaptureStage(b, m) <==>
              (m.kind == EnPassant || (m.kind != Castling && b[m.to] != NoPiece)) || m.promo == Queen
  {
  }

  lemma CountEmptyAll()
    ensures forall m :: Count([], m) == 0
  {
  }

  lemma ProbPickable(setup: Setup)
    requires setup.firstStage == ProbCutStage
    requires Pickable(setup.(firstStage := QSearchStage)) && Distinct(setup.(firstStage := QSearchStage))
    ensures Pickable(setup) && Distinct(setup)
  {
    hide Count;
  }

  lemma ProbDue(p: Pos, setup: Setup, usable: bool, m: Move)
    requires setup.firstStage == ProbCutStage && (m in setup.captures <==> Legal(p, m) && InCaptures(p.board, m))
    requires usable <==> setup.tt.Some? && Legal(p, Plain(setup.tt.value)) && CaptureStage(p.board, setup.tt.value)
    ensures Due(setup, usable, m) <==> ProbOffered(p, setup, m)
  {
    hide Legal, Plain, InCaptures, CaptureStage;
  }

  /** The lists share out those moves. */
  ghost predicate SharedOut(p: Pos, setup: Setup, depth: int)
    requires HasKing(p.board, p.side)
  {
    && setup.firstStage ==
       (if InCheck(p.board, p.side) then EvasionStage else if depth > 0 then GoodCaptureStage else QSearchStage)
    && (InCheck(p.board, p.side) ==> setup.captures == [] && setup.quiets == [])
    && (!InCheck(p.board, p.side) ==> setup.evasions == [] && (depth <= 0 ==> setup.quiets == []))
    && forall m ::
       Count(setup.captures, m) + Count(setup.quiets, m) + Count(setup.evasions, m) == Bit(Listed(p, depth, m))
  }

  lemma ShareOut(p: Pos, setup: Setup, depth: int)
    requires HasKing(p.board, p.side)
    requires setup.firstStage == if InCheck(p.board, p.side) then EvasionStage else if depth > 0 then GoodCaptureStage
      else QSearchStage
    requires InCheck(p.board, p.side) ==>
               setup.captures == [] && setup.quiets == [] && forall m :: Count(setup.evasions, m) == Bit(Legal(p, m))
    requires !InCheck(p.board, p.side) ==>
               && setup.evasions == [] && (depth <= 0 ==> setup.quiets == [])
               && (forall m :: Count(setup.captures, m) == Bit(Legal(p, m) && InCaptures(p.board, m)))
               && (depth > 0 ==> forall m :: Count(setup.quiets, m) == Bit(Legal(p, m) && !InCaptures(p.board, m)))
    ensures SharedOut(p, setup, depth)
  {
    forall m
      ensures Count(setup.captures, m) + Count(setup.quiets, m) + Count(setup.evasions, m) == Bit(Listed(p, depth, m))
    {
      CountEmpty(m);
      hide Legal, Count, InCheck, InCaptures;
    }
    hide Legal, Count, InCheck, InCaptures;
  }

  lemma ListsLegal(p: Pos, setup: Setup, depth: int)
    requires HasKing(p.board, p.side) && FewMoves(p) && SharedOut(p, setup, depth)
    ensures Pickable(setup) && Distinct(setup)
  {
    hide *;
    var list := setup.captures + setup.quiets + setup.evasions;
    SharedIs(p, setup, depth);
    forall m
      ensures Count(list, m) == Bit(Listed(p, depth, m))
      ensures Count(setup.captures, m) + Count(setup.quiets, m) <= 1 && Count(setup.evasions, m) <= 1
    {
      JoinCounts(setup.captures, setup.quiets, m);
      JoinCounts(setup.captures + setup.quiets, setup.evasions, m);
      BitIs();
    }
    FewListed(p, depth, list);
    PickableIs(setup);
  }

  lemma SharedIs(p: Pos, setup: Setup, depth: int)
    requires HasKing(p.board, p.side) && SharedOut(p, setup, depth)
    ensures forall m ::
            Count(setup.captures, m) + Count(setup.quiets, m) + Count(setup.evasions, m) == Bit(Listed(p, depth, m))
    ensures setup.firstStage == GoodCaptureStage || setup.firstStage == QSearchStage || setup.firstStage == EvasionStage
    ensures setup.firstStage == GoodCaptureStage ==> setup.evasions == []
    ensures setup.firstStage == QSearchStage ==> setup.evasions == [] && setup.quiets == []
    ensures setup.firstStage == EvasionStage ==> setup.captures == [] && setup.quiets == []
  {
    hide InCheck, Listed, Count;
  }

  lemma PickableIs(setup: Setup)
    requires |setup.captures + setup.quiets + setup.evasions| <= MAX_MOVES
    requires setup.firstStage == GoodCaptureStage || setup.firstStage == QSearchStage ||
             setup.firstStage == EvasionStage
    requires forall m :: Count(setup.captures, m) + Count(setup.quiets, m) <= 1 && Count(setup.evasions, m) <= 1
    ensures Pickable(setup) && Distinct(setup)
  {
    hide Count;
  }

  /** A list of some of the legal moves is no longer than one of all of them. */
  lemma FewListed(p: Pos, depth: int, list: seq<Move>)
    requires HasKing(p.board, p.side) && FewMoves(p) && forall m :: Count(list, m) == Bit(Listed(p, depth, m))
    ensures |list| <= MAX_MOVES
  {
    hide *;
    var rest := Unlisted(p, depth);
    forall m
      ensures Count(list + rest, m) == Bit(Legal(p, m))
    {
      CountGrown(list, rest, m);
      UnlistedCount(p, depth, m);
      ListedIs(p, depth, m);
      BitIs();
    }
    FewIs(p, list + rest);
  }

  lemma ListedIs(p: Pos, depth: int, m: Move)
    requires HasKing(p.board, p.side)
    ensures Listed(p, depth, m) ==> Legal(p, m)
  {
    hide Legal, InCheck;
  }

  lemma FewIs(p: Pos, list: seq<Move>)
    requires FewMoves(p) && forall m :: Count(list, m) == Bit(Legal(p, m))
    ensures |list| <= MAX_MOVES
  {
    hide Legal, Count;
  }

  /** The legal moves left out of the lists, in some order. */
  ghost function Unlisted(p: Pos, depth: int): seq<Move>
    requires HasKing(p.board, p.side)
  {
    SomeOrder(UnlistedSet(p, depth))
  }

  ghost function UnlistedSet(p: Pos, depth: int): set<Move>
    requires HasKing(p.board, p.side)
  {
    set m | m in Perft.LegalSet(p) && !Listed(p, depth, m)
  }

  ghost function SomeOrder(s: set<Move>): seq<Move> {
    if s == {} then [] else
      var m :| m in s;
      [m] + SomeOrder(s - {m})
  }

  lemma {:induction false} SomeOrderCount(s: set<Move>, m: Move)
    ensures Count(SomeOrder(s), m) == Bit(m in s)
  {
    hide Count;
    if s == {} {
      CountEmpty(m);
    } else {
      var x: Move :| x in s && SomeOrder(s) == [x] + SomeOrder(s - {x});
      SomeOrderCount(s - {x}, m);
      CountOne(x, m);
      CountGrown([x], SomeOrder(s - {x}), m);
    }
  }

  lemma UnlistedCount(p: Pos, depth: int, m: Move)
    requires HasKing(p.board, p.side)
    ensures Count(Unlisted(p, depth), m) == Bit(Legal(p, m) && !Listed(p, depth, m))
  {
    Perft.LegalMember(p, m);
    SomeOrderCount(UnlistedSet(p, depth), m);
    hide Count, Legal, Listed, SomeOrder, Perft.LegalSet;
  }

  lemma AgendaOffered(p: Pos, setup: Setup, depth: int, usable: bool)
    requires HasKing(p.board, p.side) && SharedOut(p, setup, depth)
    requires usable <==> setup.tt.Some? && Legal(p, Plain(setup.tt.value))
    ensures forall m ::
            Count((if usable then [setup.tt.value] else []) + FirstAgenda(setup, false), m) ==
            Bit(Offered(p, setup.tt, depth, m))
  {
    hide *;
    SharedIs(p, setup, depth);
    forall m
      ensures Count((if usable then [setup.tt.value] else []) + FirstAgenda(setup, false), m) ==
              Bit(Offered(p, setup.tt, depth, m))
    {
      var head := if usable then [setup.tt.value] else [];
      JoinCounts(head, FirstAgenda(setup, false), m);
      CountEmpty(m);
      if usable {
        CountOne(setup.tt.value, m);
      }
      BitIs();
      if setup.firstStage == GoodCaptureStage {
        MainCounts(setup, m);
      } else {
        PlainCounts(setup, m);
      }
      OfferedIs(p, setup.tt, depth, m);
    }
  }

  lemma OfferedIs(p: Pos, tt: Option<Move>, depth: int, m: Move)
    requires HasKing(p.board, p.side)
    ensures Offered(p, tt, depth, m) <==> if tt == Some(m) then Legal(p, Plain(m)) else Listed(p, depth, m)
  {
    hide Listed, Legal, Plain;
  }

  lemma TTFirst(setup: Setup, usable: bool)
    ensures usable && setup.tt.Some? ==>
              var agenda := [setup.tt.value] + FirstAgenda(setup, false); agenda != [] && agenda[0] == setup.tt.value
  {
  }

  /** In check or at positive depth the picker offers exactly the legal moves, unless a usable TT word
      carries promotion bits on a normal move: then that word comes besides the move it stands for. */
  lemma OffersLegal(p: Pos, tt: Option<Move>, depth: int)
    requires HasKing(p.board, p.side) && (InCheck(p.board, p.side) || depth > 0)
    ensures (forall m :: Offered(p, tt, depth, m) <==> Legal(p, m))
            <==> (tt.Some? && Legal(p, Plain(tt.value)) ==> tt.value == Plain(tt.value))
  {
    if tt.Some? {
      NormalWordPlain(p, tt.value);
      assert Offered(p, tt, depth, tt.value) <==> Legal(p, Plain(tt.value));
    }
    hide Legal, InCheck, Plain;
  }

  /** Only the plain word of a normal move is legal. */
  lemma NormalWordPlain(p: Pos, m: Move)
    ensures Legal(p, m) ==> m == Plain(m)
  {
    hide Moves, CanCastle, After, HasKing, InCheck;
  }

  /** Whatever the caller does, nothing comes that is not offered and nothing twice; run to the end,
      every capture has come, and without a skip every move offered has. */
  lemma LegalRun(p: Pos, setup: Setup, agenda: seq<Move>, calls: seq<Call>, m: Move)
    requires HasKing(p.board, p.side) && forall x :: Count(agenda, x) == Bit(Offered(p, setup.tt, setup.depth, x))
    ensures Count(Returned(setup, agenda, calls), m) <= Bit(Offered(p, setup.tt, setup.depth, m))
    ensures Left(setup, agenda, calls) == [] && (m in setup.captures || SkipCall !in calls) ==>
              Count(Returned(setup, agenda, calls), m) == Bit(Offered(p, setup.tt, setup.depth, m))
  {
    RunCounts(setup, agenda, calls, m);
    assert Count([], m) == 0;
    hide Offered, Returned, Left, Count;
  }
}
