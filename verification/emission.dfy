/** The order the generator emits in. It is observable: root moves are searched in it, and the
    picker's sort keeps it between equal scores. */
module Emission {
  import opened Squares
  import opened Types
  import opened Board
  import opened Rules
  import opened Attacks
  import opened Pins
  import opened Derived
  import opened Views
  import opened MoveGen
  import opened LegalMoves

  // ----- the order -----

  /** The group a move comes in: pawn pushes, promotions and captures, en passant, then the pieces
      from knight to queen, of each kind the free ones before the pinned, then the king, then
      castling on the king's wing and on the queen's. */
  function Phase(b: Board, us: Color, k: Square, m: Move): nat {
    match m.kind
    case EnPassant => 7
    case Castling => if m.to > m.from then 16 else 17
    case Promotion => if m.to == m.from + UpRight(us) then 2 else if m.to == m.from + UpLeft(us) then 3 else 4
    case Normal =>
      if b[m.from] == NoPiece then 18 else
      match b[m.from].kind
      case Pawn => PawnPhase(us, m)
      case Knight => 8
      case Bishop => 9 + Bit(Blocker(b, Flip(us), k, m.from))
      case Rook => 11 + Bit(Blocker(b, Flip(us), k, m.from))
      case Queen => 13 + Bit(Blocker(b, Flip(us), k, m.from))
      case King => 15
  }

  function PawnPhase(us: Color, m: Move): nat {
    if m.to == m.from + Up(us) then 0
    else if m.to == m.from + 2 * Up(us) then 1
    else if m.to == m.from + UpRight(us) then 5
    else 6
  }

  /** The first of the two captures is the one along the a1-h8 diagonal, for both colours. */
  lemma RightFirst(us: Color, from: Square, to: Square)
    requires PawnStep(us, from, to)
    ensures to == from + UpRight(us) <==> File(to) - Rank(to) == File(from) - Rank(from)
    ensures to == from + UpLeft(us) <==> File(to) + Rank(to) == File(from) + Rank(from)
  {
    Coords(from);
    Coords(to);
    hide File, Rank;
  }

  function PromoPlace(promo: Promo): nat {
    match promo
    case Queen => 0
    case Rook => 1
    case Bishop => 2
    case Knight => 3
  }

  /** Its place in the group: pawns by their destination, promotions from the queen down, en
      passant by the capturer, pieces by origin and then destination. */
  function Place(b: Board, m: Move): (n: nat)
    ensures n < 4096
  {
    match m.kind
    case EnPassant => m.from
    case Castling => 0
    case Promotion => 4 * m.to + PromoPlace(m.promo)
    case Normal => if b[m.from].Piece? && b[m.from].kind == Pawn then m.to else 64 * m.from + m.to
  }

  function Turn(b: Board, us: Color, k: Square, m: Move): nat {
    4096 * Phase(b, us, k, m) + Place(b, m)
  }

  ghost predicate Ascends(b: Board, us: Color, k: Square, s: seq<Move>) {
    forall i, j :: 0 <= i < j < |s| ==> Turn(b, us, k, s[i]) < Turn(b, us, k, s[j])
  }

  /** In order, and in the groups from lo up to hi. */
  ghost predicate Spans(b: Board, us: Color, k: Square, s: seq<Move>, lo: nat, hi: nat) {
    Ascends(b, us, k, s) && forall i :: 0 <= i < |s| ==> lo <= Phase(b, us, k, s[i]) < hi
  }

  lemma SpansNone(b: Board, us: Color, k: Square, lo: nat, hi: nat)
    ensures Spans(b, us, k, [], lo, hi)
  {
  }

  lemma EarlierGroup(b: Board, us: Color, k: Square, m: Move, n: Move)
    requires Phase(b, us, k, m) < Phase(b, us, k, n)
    ensures Turn(b, us, k, m) < Turn(b, us, k, n)
  {
    hide Phase, Place;
    assert Place(b, m) < 4096;
  }

  lemma EarlierPlace(b: Board, us: Color, k: Square, m: Move, n: Move)
    requires Phase(b, us, k, m) == Phase(b, us, k, n) && Place(b, m) < Place(b, n)
    ensures Turn(b, us, k, m) < Turn(b, us, k, n)
  {
    hide Phase, Place;
  }

  /** Groups one after another stay in order. */
  lemma SpansAppend(b: Board, us: Color, k: Square, s: seq<Move>, t: seq<Move>, lo: nat, mid: nat, hi: nat)
    requires lo <= mid <= hi && Spans(b, us, k, s, lo, mid) && Spans(b, us, k, t, mid, hi)
    ensures Spans(b, us, k, s + t, lo, hi)
  {
    var r := s + t;
    hide Phase, Turn;
    forall i, j | 0 <= i < j < |r|
      ensures Turn(b, us, k, r[i]) < Turn(b, us, k, r[j])
    {
      if i < |s| && |s| <= j {
        EarlierGroup(b, us, k, r[i], r[j]);
      }
    }
  }

  /** In order, all of one group, at places from lo up to hi. */
  ghost predicate Run(b: Board, us: Color, k: Square, s: seq<Move>, phase: nat, lo: nat, hi: nat) {
    Ascends(b, us, k, s) && forall i :: 0 <= i < |s| ==> Phase(b, us, k, s[i]) == phase && lo <= Place(b, s[i]) < hi
  }

  lemma RunNone(b: Board, us: Color, k: Square, phase: nat, lo: nat, hi: nat)
    ensures Run(b, us, k, [], phase, lo, hi)
  {
  }

  lemma RunOne(b: Board, us: Color, k: Square, m: Move, phase: nat, lo: nat, hi: nat)
    requires Phase(b, us, k, m) == phase && lo <= Place(b, m) < hi
    ensures Run(b, us, k, [m], phase, lo, hi)
  {
    hide Phase, Place;
  }

  lemma RunAppend(b: Board, us: Color, k: Square, s: seq<Move>, t: seq<Move>, phase: nat, lo: nat, mid: nat, hi: nat)
    requires lo <= mid <= hi && Run(b, us, k, s, phase, lo, mid) && Run(b, us, k, t, phase, mid, hi)
    ensures Run(b, us, k, s + t, phase, lo, hi)
  {
    var r := s + t;
    hide Phase, Turn, Place;
    forall i, j | 0 <= i < j < |r|
      ensures Turn(b, us, k, r[i]) < Turn(b, us, k, r[j])
    {
      if i < |s| && |s| <= j {
        assert r[i] == s[i] && r[j] == t[j - |s|];
        EarlierPlace(b, us, k, r[i], r[j]);
      }
    }
  }

  lemma RunSpans(b: Board, us: Color, k: Square, s: seq<Move>, phase: nat, lo: nat, hi: nat)
    requires Run(b, us, k, s, phase, lo, hi)
    ensures Spans(b, us, k, s, phase, phase + 1)
  {
    hide Phase, Place, Ascends;
  }

  // ----- the loops -----

  /** What is left above the lowest square of b. */
  lemma LsbRest(b: Bitboard, lo: nat)
    requires b != {} && forall t :: t in b ==> lo <= t
    ensures lo <= Lsb(b) < 64 && Lsb(b) in b && forall t :: t in b - {Lsb(b)} ==> Lsb(b) + 1 <= t
  {
  }

  predicate PawnWord(b: Board, us: Color, k: Square, from: Square, to: Square, phase: nat) {
    Phase(b, us, k, NormalMove(from, to)) == phase && Place(b, NormalMove(from, to)) == to
  }

  lemma PawnWordIs(b: Board, us: Color, k: Square, from: Square, to: Square)
    requires b[from] == Piece(us, Pawn)
    ensures to == from + Up(us) ==> PawnWord(b, us, k, from, to, 0)
    ensures to == from + 2 * Up(us) ==> PawnWord(b, us, k, from, to, 1)
    ensures to == from + UpRight(us) ==> PawnWord(b, us, k, from, to, 5)
    ensures to == from + UpLeft(us) ==> PawnWord(b, us, k, from, to, 6)
  {
  }

  lemma PawnWordRun(b: Board, us: Color, k: Square, from: Square, to: Square, phase: nat)
    requires PawnWord(b, us, k, from, to, phase)
    ensures Run(b, us, k, [NormalMove(from, to)], phase, to, to + 1)
  {
    RunOne(b, us, k, NormalMove(from, to), phase, to, to + 1);
    hide Run;
  }

  lemma {:induction false} ToListRun(b: Board, us: Color, k: Square, to: Bitboard, delta: int, phase: nat, lo: nat)
    requires forall t :: t in to ==> 0 <= t - delta < 64
    requires forall t: Square :: t in to ==> PawnWord(b, us, k, t - delta, t, phase)
    requires lo <= 64 && forall t :: t in to ==> lo <= t
    ensures Run(b, us, k, ToList(to, delta), phase, lo, 64)
    decreases |to|
  {
    hide Run, Lsb, PawnWord;
    if to == {} {
      RunNone(b, us, k, phase, lo, 64);
    } else {
      LsbRest(to, lo);
      var t := Lsb(to);
      ToListRun(b, us, k, to - {t}, delta, phase, t + 1);
      PawnWordRun(b, us, k, t - delta, t, phase);
      RunWider(b, us, k, [NormalMove(t - delta, t)], phase, t, t + 1, lo, t + 1);
      RunAppend(b, us, k, [NormalMove(t - delta, t)], ToList(to - {t}, delta), phase, lo, t + 1, 64);
    }
  }

  lemma RunWider(b: Board, us: Color, k: Square, s: seq<Move>, phase: nat, lo: nat, hi: nat, lo': nat, hi': nat)
    requires Run(b, us, k, s, phase, lo, hi) && lo' <= lo && hi <= hi'
    ensures Run(b, us, k, s, phase, lo', hi')
  {
    hide Phase, Place, Ascends;
  }

  lemma ToListSpans(b: Board, us: Color, k: Square, to: Bitboard, delta: int, phase: nat)
    requires forall t :: t in to ==> 0 <= t - delta < 64
    requires forall t: Square :: t in to ==> PawnWord(b, us, k, t - delta, t, phase)
    ensures Spans(b, us, k, ToList(to, delta), phase, phase + 1)
  {
    hide *;
    ToListRun(b, us, k, to, delta, phase, 0);
    RunSpans(b, us, k, ToList(to, delta), phase, 0, 64);
  }

  function PromotionPhase(us: Color, delta: int): nat {
    if delta == UpRight(us) then 2 else if delta == UpLeft(us) then 3 else 4
  }

  lemma PromotionRun(b: Board, us: Color, k: Square, from: Square, to: Square, promo: Promo)
    ensures var phase, at := PromotionPhase(us, to - from), 4 * to + PromoPlace(promo);
            Run(b, us, k, [Move(Promotion, from, to, promo)], phase, at, at + 1)
  {
    var phase, at := PromotionPhase(us, to - from), 4 * to + PromoPlace(promo);
    RunOne(b, us, k, Move(Promotion, from, to, promo), phase, at, at + 1);
    hide Run;
  }

  lemma PromotionsRun(b: Board, us: Color, k: Square, from: Square, to: Square, stage: GenType, enemy: bool)
    ensures Run(b, us, k, Promotions(from, to, stage, enemy), PromotionPhase(us, to - from), 4 * to, 4 * to + 4)
  {
    hide *;
    var phase := PromotionPhase(us, to - from);
    var q, r := [Move(Promotion, from, to, Queen)], [Move(Promotion, from, to, Rook)];
    var i, n := [Move(Promotion, from, to, Bishop)], [Move(Promotion, from, to, Knight)];
    PromotionRun(b, us, k, from, to, Queen);
    PromotionRun(b, us, k, from, to, Rook);
    PromotionRun(b, us, k, from, to, Bishop);
    PromotionRun(b, us, k, from, to, Knight);
    PromoPlaces();
    RunNone(b, us, k, phase, 4 * to, 4 * to + 1);
    RunNone(b, us, k, phase, 4 * to + 1, 4 * to + 4);
    RunAppend(b, us, k, r, i, phase, 4 * to + 1, 4 * to + 2, 4 * to + 3);
    RunAppend(b, us, k, r + i, n, phase, 4 * to + 1, 4 * to + 3, 4 * to + 4);
    var queens := if PromotesIn(stage, enemy, Queen) then q else [];
    var others := if PromotesIn(stage, enemy, Rook) then r + i + n else [];
    RunAppend(b, us, k, queens, others, phase, 4 * to, 4 * to + 1, 4 * to + 4);
    PromotionsSplit(from, to, stage, enemy);
  }

  lemma PromoPlaces()
    ensures PromoPlace(Queen) == 0 && PromoPlace(Rook) == 1 && PromoPlace(Bishop) == 2 && PromoPlace(Knight) == 3
  {
  }

  lemma PromotionsSplit(from: Square, to: Square, stage: GenType, enemy: bool)
    ensures Promotions(from, to, stage, enemy) ==
            (if PromotesIn(stage, enemy, Queen) then [Move(Promotion, from, to, Queen)] else [])
            + if PromotesIn(stage, enemy, Rook)
              then [Move(Promotion, from, to, Rook)] + [Move(Promotion, from, to, Bishop)] +
                [Move(Promotion, from, to, Knight)]
              else []
  {
    hide PromotesIn;
  }

  lemma {:induction false} PromotionListRun(b: Board, us: Color, k: Square, to: Bitboard, delta: int, stage: GenType,
                                            enemy: bool, lo: nat)
    requires forall t :: t in to ==> 0 <= t - delta < 64
    requires lo <= 64 && forall t :: t in to ==> lo <= t
    ensures Run(b, us, k, PromotionList(to, delta, stage, enemy), PromotionPhase(us, delta), 4 * lo, 256)
    decreases |to|
  {
    hide *;
    PromotionListSplit(to, delta, stage, enemy);
    var phase := PromotionPhase(us, delta);
    if to == {} {
      RunNone(b, us, k, phase, 4 * lo, 256);
    } else {
      LsbRest(to, lo);
      var t := Lsb(to);
      PromotionListRun(b, us, k, to - {t}, delta, stage, enemy, t + 1);
      var head := Promotions(t - delta, t, stage, enemy);
      PromotionsRun(b, us, k, t - delta, t, stage, enemy);
      assert t - (t - delta) == delta;
      RunWider(b, us, k, head, phase, 4 * t, 4 * t + 4, 4 * lo, 4 * (t + 1));
      RunAppend(b, us, k, head, PromotionList(to - {t}, delta, stage, enemy), phase, 4 * lo, 4 * (t + 1), 256);
    }
  }

  lemma PromotionListSpans(b: Board, us: Color, k: Square, to: Bitboard, delta: int, stage: GenType, enemy: bool)
    requires forall t :: t in to ==> 0 <= t - delta < 64
    ensures var phase := PromotionPhase(us, delta);
            Spans(b, us, k, PromotionList(to, delta, stage, enemy), phase, phase + 1)
  {
    hide *;
    PromotionListRun(b, us, k, to, delta, stage, enemy, 0);
    RunSpans(b, us, k, PromotionList(to, delta, stage, enemy), PromotionPhase(us, delta), 4 * 0, 256);
  }

  lemma EpWordRun(b: Board, us: Color, k: Square, from: Square, ep: Square)
    ensures Run(b, us, k, [EpMove(from, ep)], 7, from, from + 1)
  {
    RunOne(b, us, k, EpMove(from, ep), 7, from, from + 1);
    hide Run;
  }

  lemma {:induction false} EpListRun(b: Board, us: Color, k: Square, from: Bitboard, ep: Square, lo: nat)
    requires lo <= 64 && forall t :: t in from ==> lo <= t
    ensures Run(b, us, k, EpList(from, ep), 7, lo, 64)
    decreases |from|
  {
    hide Run, Lsb;
    if from == {} {
      RunNone(b, us, k, 7, lo, 64);
    } else {
      LsbRest(from, lo);
      var f: int := Lsb(from);
      EpListRun(b, us, k, from - {f}, ep, f + 1);
      EpWordRun(b, us, k, f, ep);
      RunWider(b, us, k, [EpMove(f, ep)], 7, f, f + 1, lo, f + 1);
      RunAppend(b, us, k, [EpMove(f, ep)], EpList(from - {f}, ep), 7, lo, f + 1, 64);
    }
  }

  lemma EpListSpans(b: Board, us: Color, k: Square, from: Bitboard, ep: Square)
    ensures Spans(b, us, k, EpList(from, ep), 7, 8)
  {
    hide *;
    EpListRun(b, us, k, from, ep, 0);
    RunSpans(b, us, k, EpList(from, ep), 7, 0, 64);
  }

  predicate PieceWord(b: Board, us: Color, k: Square, from: Square, to: Square, phase: nat) {
    Phase(b, us, k, NormalMove(from, to)) == phase && Place(b, NormalMove(from, to)) == 64 * from + to
  }

  /** Every word from s is one of this group. */
  ghost predicate PieceOn(b: Board, us: Color, k: Square, s: Square, phase: nat) {
    forall t: Square :: PieceWord(b, us, k, s, t, phase)
  }

  lemma PieceWordRun(b: Board, us: Color, k: Square, from: Square, to: Square, phase: nat)
    requires PieceOn(b, us, k, from, phase)
    ensures Run(b, us, k, [NormalMove(from, to)], phase, 64 * from + to, 64 * from + to + 1)
  {
    assert PieceWord(b, us, k, from, to, phase);
    RunOne(b, us, k, NormalMove(from, to), phase, 64 * from + to, 64 * from + to + 1);
    hide Run;
  }

  lemma {:induction false} FromListRun(b: Board, us: Color, k: Square, from: Square, to: Bitboard, phase: nat, lo: nat)
    requires PieceOn(b, us, k, from, phase)
    requires lo <= 64 && forall t :: t in to ==> lo <= t
    ensures Run(b, us, k, FromList(from, to), phase, 64 * from + lo, 64 * from + 64)
    decreases |to|
  {
    hide Run, Lsb, PieceOn;
    if to == {} {
      RunNone(b, us, k, phase, 64 * from + lo, 64 * from + 64);
    } else {
      LsbRest(to, lo);
      var t: int := Lsb(to);
      var at := 64 * from + t;
      FromListRun(b, us, k, from, to - {t}, phase, t + 1);
      PieceWordRun(b, us, k, from, t, phase);
      RunWider(b, us, k, [NormalMove(from, t)], phase, at, at + 1, 64 * from + lo, at + 1);
      RunAppend(b, us, k, [NormalMove(from, t)], FromList(from, to - {t}), phase, 64 * from + lo, at + 1,
                64 * from + 64);
    }
  }

  lemma FreeMovesSplit(v: View, kind: PieceType, target: Bitboard, from: Bitboard)
    requires |v.byType| == 7 && kind != Pawn
    ensures from == {} ==> FreeMoves(v, kind, target, from) == []
    ensures from != {} ==>
              var s := Lsb(from);
              FreeMoves(v, kind, target, from) ==
              FromList(s, AttacksBB(kind, s, Pieces(v)) * target) + FreeMoves(v, kind, target, from - {s})
  {
    hide AttacksBB, FromList, Lsb, Pieces;
  }

  lemma {:induction false} FreeMovesRun(b: Board, us: Color, k: Square, v: View, kind: PieceType, target: Bitboard,
                                        from: Bitboard,
                                        phase: nat, lo: nat)
    requires |v.byType| == 7 && kind != Pawn && forall s :: s in from ==> PieceOn(b, us, k, s, phase)
    requires lo <= 64 && forall s :: s in from ==> lo <= s
    ensures Run(b, us, k, FreeMoves(v, kind, target, from), phase, 64 * lo, 4096)
    decreases |from|
  {
    hide *;
    FreeMovesSplit(v, kind, target, from);
    if from == {} {
      RunNone(b, us, k, phase, 64 * lo, 4096);
    } else {
      LsbRest(from, lo);
      var s: int := Lsb(from);
      FreeMovesRun(b, us, k, v, kind, target, from - {s}, phase, s + 1);
      var head := FromList(s, AttacksBB(kind, s, Pieces(v)) * target);
      FromListRun(b, us, k, s, AttacksBB(kind, s, Pieces(v)) * target, phase, 0);
      RunWider(b, us, k, head, phase, 64 * s + 0, 64 * s + 64, 64 * lo, 64 * (s + 1));
      RunAppend(b, us, k, head, FreeMoves(v, kind, target, from - {s}), phase, 64 * lo, 64 * (s + 1), 4096);
    }
  }

  lemma HeldMovesSplit(v: View, k: Square, kind: PieceType, target: Bitboard, from: Bitboard)
    requires |v.byType| == 7 && kind != Pawn
    ensures from == {} ==> HeldMoves(v, k, kind, target, from) == []
    ensures from != {} ==>
              var s := Lsb(from);
              HeldMoves(v, k, kind, target, from) ==
              FromList(s, AttacksBB(kind, s, Pieces(v)) * target * LineBB(k, s)) +
                HeldMoves(v, k, kind, target, from - {s})
  {
    hide AttacksBB, FromList, Lsb, Pieces, LineBB;
  }

  lemma {:induction false} HeldMovesRun(b: Board, us: Color, k: Square, v: View, kind: PieceType, target: Bitboard,
                                        from: Bitboard,
                                        phase: nat, lo: nat)
    requires |v.byType| == 7 && kind != Pawn && forall s :: s in from ==> PieceOn(b, us, k, s, phase)
    requires lo <= 64 && forall s :: s in from ==> lo <= s
    ensures Run(b, us, k, HeldMoves(v, k, kind, target, from), phase, 64 * lo, 4096)
    decreases |from|
  {
    hide *;
    HeldMovesSplit(v, k, kind, target, from);
    if from == {} {
      RunNone(b, us, k, phase, 64 * lo, 4096);
    } else {
      LsbRest(from, lo);
      var s: int := Lsb(from);
      HeldMovesRun(b, us, k, v, kind, target, from - {s}, phase, s + 1);
      var to := AttacksBB(kind, s, Pieces(v)) * target * LineBB(k, s);
      FromListRun(b, us, k, s, to, phase, 0);
      RunWider(b, us, k, FromList(s, to), phase, 64 * s + 0, 64 * s + 64, 64 * lo, 64 * (s + 1));
      RunAppend(b, us, k, FromList(s, to), HeldMoves(v, k, kind, target, from - {s}), phase, 64 * lo, 64 * (s + 1),
                4096);
    }
  }

  // ----- the generators -----

  /** What the shifted sets hold came from a pawn behind them. */
  lemma ShiftedPawns(b: Board, us: Color, k: Square, v: View, on7: bool, t: Square)
    requires Reads(b, us, k, v)
    ensures t in Push1(v, k, PawnsHere(v, on7)) ==> 0 <= t - Up(us) < 64 && b[t - Up(us)] == Piece(us, Pawn)
    ensures t in TakeRight(v, k, PawnsHere(v, on7)) ==>
            0 <= t - UpRight(us) < 64 && b[t - UpRight(us)] == Piece(us, Pawn)
    ensures t in TakeLeft(v, k, PawnsHere(v, on7)) ==> 0 <= t - UpLeft(us) < 64 && b[t - UpLeft(us)] == Piece(us, Pawn)
    ensures t in Push2(v, k) ==> 0 <= t - 2 * Up(us) < 64 && b[t - 2 * Up(us)] == Piece(us, Pawn)
  {
    hide *;
    TakeNeeds(b, us, k, v, on7, t, t);
    PawnShiftsInside(v, k);
    PawnsInside2(v, k);
    FreePawnIs(b, us, k);
    if 0 <= t - Up(us) < 64 {
      Push1Member(b, us, k, v, on7, t - Up(us), t);
    }
    if 0 <= t - UpRight(us) < 64 {
      RightMember(b, us, k, v, on7, t - UpRight(us), t);
    }
    if 0 <= t - UpLeft(us) < 64 {
      LeftMember(b, us, k, v, on7, t - UpLeft(us), t);
    }
    if 0 <= t - 2 * Up(us) < 64 {
      Push2Member(b, us, k, v, t - 2 * Up(us), t);
    }
  }

  lemma FreePawnIs(b: Board, us: Color, k: Square)
    ensures forall s: Square, on7: bool, may: bool :: FreePawn(b, us, k, s, on7, may) ==> b[s] == Piece(us, Pawn)
  {
  }

  lemma PawnTargets(b: Board, us: Color, k: Square, v: View, target: Bitboard, stage: GenType)
    requires Reads(b, us, k, v)
    ensures |v.byType| == 7 && |v.byColor| == 2 && |v.st.blockers| == 2 && v.side == us
    ensures forall t: Square :: t in Masked(stage, target, Push1(v, k, PawnsNot7(v))) ==>
            0 <= t - Up(us) < 64 && PawnWord(b, us, k, t - Up(us), t, 0)
    ensures forall t: Square :: t in Masked(stage, target, Push2(v, k)) ==>
            0 <= t - 2 * Up(us) < 64 && PawnWord(b, us, k, t - 2 * Up(us), t, 1)
    ensures forall t: Square :: t in Masked(stage, target, TakeRight(v, k, PawnsNot7(v))) ==>
            0 <= t - UpRight(us) < 64 && PawnWord(b, us, k, t - UpRight(us), t, 5)
    ensures forall t: Square :: t in Masked(stage, target, TakeLeft(v, k, PawnsNot7(v))) ==>
            0 <= t - UpLeft(us) < 64 && PawnWord(b, us, k, t - UpLeft(us), t, 6)
  {
    hide *;
    TakeNeeds(b, us, k, v, false, k, k);
    MaskedPart(stage, target);
    HereNot7(v);
    forall t: Square
      ensures t in Push1(v, k, PawnsNot7(v)) ==> 0 <= t - Up(us) < 64 && PawnWord(b, us, k, t - Up(us), t, 0)
      ensures t in Push2(v, k) ==> 0 <= t - 2 * Up(us) < 64 && PawnWord(b, us, k, t - 2 * Up(us), t, 1)
      ensures t in TakeRight(v, k, PawnsNot7(v)) ==>
              0 <= t - UpRight(us) < 64 && PawnWord(b, us, k, t - UpRight(us), t, 5)
      ensures t in TakeLeft(v, k, PawnsNot7(v)) ==> 0 <= t - UpLeft(us) < 64 && PawnWord(b, us, k, t - UpLeft(us), t, 6)
    {
      ShiftedPawns(b, us, k, v, false, t);
      PawnWordAt(b, us, k, t, t - Up(us));
      PawnWordAt(b, us, k, t, t - 2 * Up(us));
      PawnWordAt(b, us, k, t, t - UpRight(us));
      PawnWordAt(b, us, k, t, t - UpLeft(us));
    }
  }

  lemma PawnWordAt(b: Board, us: Color, k: Square, t: Square, s: int)
    ensures 0 <= s < 64 && b[s] == Piece(us, Pawn) ==>
              && (t == s + Up(us) ==> PawnWord(b, us, k, s, t, 0))
              && (t == s + 2 * Up(us) ==> PawnWord(b, us, k, s, t, 1))
              && (t == s + UpRight(us) ==> PawnWord(b, us, k, s, t, 5))
              && (t == s + UpLeft(us) ==> PawnWord(b, us, k, s, t, 6))
  {
    if 0 <= s < 64 && b[s] == Piece(us, Pawn) {
      PawnWordIs(b, us, k, s, t);
    }
    hide PawnWord;
  }

  lemma HereNot7(v: View)
    requires |v.byType| == 7 && |v.byColor| == 2
    ensures PawnsHere(v, false) == PawnsNot7(v)
  {
  }

  lemma PawnListSpans(b: Board, us: Color, k: Square, v: View, target: Bitboard, stage: GenType)
    requires Reads(b, us, k, v)
    ensures |v.byType| == 7 && |v.byColor| == 2 && |v.st.blockers| == 2
    ensures Spans(b, us, k, PawnList(v, k, target, stage), 0, 8)
  {
    hide *;
    TakeNeeds(b, us, k, v, false, k, k);
    PawnTargets(b, us, k, v, target, stage);
    PawnListsAre(v, k, target, stage);
    var none: seq<Move> := [];
    forall lo: nat, hi: nat ensures Spans(b, us, k, none, lo, hi) { SpansNone(b, us, k, lo, hi); }
    if stage != Captures {
      var b1, b2 := Masked(stage, target, Push1(v, k, PawnsNot7(v))), Masked(stage, target, Push2(v, k));
      ToListSpans(b, us, k, b1, Up(us), 0);
      ToListSpans(b, us, k, b2, 2 * Up(us), 1);
      SpansAppend(b, us, k, ToList(b1, Up(us)), ToList(b2, 2 * Up(us)), 0, 1, 2);
    }
    PromotionsInOrder(b, us, k, v, target, stage);
    TakesInOrder(b, us, k, v, target, stage);
    SpansAppend(b, us, k, PawnPushes(v, k, target, stage), PawnPromotions(v, k, target, stage), 0, 2, 5);
    SpansAppend(b, us, k, PawnPushes(v, k, target, stage) + PawnPromotions(v, k, target, stage),
                PawnTakes(v, k, target, stage), 0, 5, 8);
  }

  lemma PromotionsInOrder(b: Board, us: Color, k: Square, v: View, target: Bitboard, stage: GenType)
    requires |v.byType| == 7 && |v.byColor| == 2 && |v.st.blockers| == 2 && v.side == us
    ensures Spans(b, us, k, PawnPromotions(v, k, target, stage), 2, 5)
  {
    hide *;
    PawnListsAre(v, k, target, stage);
    var b1, b2 := Masked(stage, target, TakeRight(v, k, PawnsOn7(v))),
      Masked(stage, target, TakeLeft(v, k, PawnsOn7(v)));
    var b3 := Masked(stage, target, Push1(v, k, PawnsOn7(v)));
    PromotionPhases(us);
    PromotionListSpans(b, us, k, b1, UpRight(us), stage, true);
    PromotionListSpans(b, us, k, b2, UpLeft(us), stage, true);
    PromotionListSpans(b, us, k, b3, Up(us), stage, false);
    var l1, l2 := PromotionList(b1, UpRight(us), stage, true), PromotionList(b2, UpLeft(us), stage, true);
    SpansAppend(b, us, k, l1, l2, 2, 3, 4);
    SpansAppend(b, us, k, l1 + l2, PromotionList(b3, Up(us), stage, false), 2, 4, 5);
  }

  lemma PromotionPhases(us: Color)
    ensures PromotionPhase(us, UpRight(us)) == 2 && PromotionPhase(us, UpLeft(us)) == 3 &&
            PromotionPhase(us, Up(us)) == 4
  {
  }

  lemma TakesInOrder(b: Board, us: Color, k: Square, v: View, target: Bitboard, stage: GenType)
    requires Reads(b, us, k, v) && |v.byType| == 7 && |v.byColor| == 2 && |v.st.blockers| == 2
    ensures Spans(b, us, k, PawnTakes(v, k, target, stage), 5, 8)
  {
    hide *;
    PawnTargets(b, us, k, v, target, stage);
    PawnListsAre(v, k, target, stage);
    SpansNone(b, us, k, 5, 8);
    SpansNone(b, us, k, 7, 8);
    if stage != Quiets {
      var b1, b2 := Masked(stage, target, TakeRight(v, k, PawnsNot7(v))),
        Masked(stage, target, TakeLeft(v, k, PawnsNot7(v)));
      ToListSpans(b, us, k, b1, UpRight(us), 5);
      ToListSpans(b, us, k, b2, UpLeft(us), 6);
      var l1, l2 := ToList(b1, UpRight(us)), ToList(b2, UpLeft(us));
      SpansAppend(b, us, k, l1, l2, 5, 6, 7);
      if EpAllowed(v, stage, target) {
        EpAllowedHas(v, stage, target);
        EpListSpans(b, us, k, EpFrom(v, k, v.st.epSquare.value), v.st.epSquare.value);
        SpansAppend(b, us, k, l1 + l2, EpList(EpFrom(v, k, v.st.epSquare.value), v.st.epSquare.value), 5, 7, 8);
      } else {
        SpansAppend(b, us, k, l1 + l2, [], 5, 7, 8);
      }
    }
  }

  /** The two groups of a kind of piece. */
  function PiecePhase(kind: PieceType): nat
    requires kind != Pawn && kind != King
  {
    match kind
    case Knight => 8
    case Bishop => 9
    case Rook => 11
    case Queen => 13
  }

  lemma PieceOnIs(b: Board, us: Color, k: Square, kind: PieceType, from: Square)
    requires kind != Pawn && kind != King && b[from] == Piece(us, kind)
    ensures !Blocker(b, Flip(us), k, from) || kind == Knight ==> PieceOn(b, us, k, from, PiecePhase(kind))
    ensures Blocker(b, Flip(us), k, from) && kind != Knight ==> PieceOn(b, us, k, from, PiecePhase(kind) + 1)
  {
    hide Blocker;
  }

  lemma PieceSources(b: Board, us: Color, k: Square, v: View, kind: PieceType, s: Square)
    requires Reads(b, us, k, v) && kind != Pawn && kind != King
    ensures |v.byType| == 7 && |v.byColor| == 2 && |v.st.blockers| == 2 && v.side == us && 0 <= ColorIndex(us) < 2
    ensures s in PiecesCP(v, us, kind) - v.st.blockers[ColorIndex(us)] ==> PieceOn(b, us, k, s, PiecePhase(kind))
    ensures kind != Knight && s in PiecesCP(v, us, kind) * v.st.blockers[ColorIndex(us)] ==>
            PieceOn(b, us, k, s, PiecePhase(kind) + 1)
  {
    PiecesCPExact(b, v, us, kind);
    hide PieceOn, Blocker, TypesSynced, ColorsSynced, PiecesCP, PiecePhase, IsKing, AttackersBB;
    if s in PiecesCP(v, us, kind) {
      PieceOnIs(b, us, k, kind, s);
    }
  }

  lemma PieceListSpans(b: Board, us: Color, k: Square, v: View, kind: PieceType, target: Bitboard)
    requires Reads(b, us, k, v) && kind != Pawn && kind != King
    ensures |v.byType| == 7 && |v.byColor| == 2 && |v.st.blockers| == 2
    ensures Spans(b, us, k, PieceList(v, k, kind, target), PiecePhase(kind), PiecePhase(kind) + if kind == Knight
              then 1 else 2)
  {
    hide *;
    PieceSources(b, us, k, v, kind, k);
    PieceListIs(v, k, kind, target);
    var pieces, pinned := PiecesCP(v, us, kind), v.st.blockers[ColorIndex(us)];
    var phase := PiecePhase(kind);
    forall s | s in pieces - pinned
      ensures PieceOn(b, us, k, s, phase)
    {
      PieceSources(b, us, k, v, kind, s);
    }
    FreeMovesRun(b, us, k, v, kind, target, pieces - pinned, phase, 0);
    RunSpans(b, us, k, FreeMoves(v, kind, target, pieces - pinned), phase, 64 * 0, 4096);
    if kind != Knight {
      forall s | s in pieces * pinned
        ensures PieceOn(b, us, k, s, phase + 1)
      {
        PieceSources(b, us, k, v, kind, s);
      }
      HeldMovesRun(b, us, k, v, kind, target, pieces * pinned, phase + 1, 0);
      RunSpans(b, us, k, HeldMoves(v, k, kind, target, pieces * pinned), phase + 1, 64 * 0, 4096);
      SpansAppend(b, us, k, FreeMoves(v, kind, target, pieces - pinned), HeldMoves(v, k, kind, target, pieces * pinned),
                  phase, phase + 1, phase + 2);
    }
  }

  lemma PiecePhases()
    ensures PiecePhase(Knight) == 8 && PiecePhase(Bishop) == 9 && PiecePhase(Rook) == 11 && PiecePhase(Queen) == 13
  {
  }

  lemma MoverListSpans(b: Board, us: Color, k: Square, v: View, stage: GenType)
    requires Reads(b, us, k, v) && (stage == Evasions ==> v.st.checkers != {})
    ensures |v.byType| == 7 && |v.byColor| == 2 && |v.st.blockers| == 2
    ensures Spans(b, us, k, MoverList(v, k, stage), 0, 15)
  {
    hide *;
    TakeNeeds(b, us, k, v, false, k, k);
    MoverListIs(v, k, stage);
    SpansNone(b, us, k, 0, 15);
    if !(stage == Evasions && MoreThanOne(v.st.checkers)) {
      var target := StageTarget(v, k, stage);
      PiecePhases();
      PawnListSpans(b, us, k, v, target, stage);
      PieceListSpans(b, us, k, v, Knight, target);
      PieceListSpans(b, us, k, v, Bishop, target);
      PieceListSpans(b, us, k, v, Rook, target);
      PieceListSpans(b, us, k, v, Queen, target);
      var pawns, knights := PawnList(v, k, target, stage), PieceList(v, k, Knight, target);
      var bishops, rooks := PieceList(v, k, Bishop, target), PieceList(v, k, Rook, target);
      SpansAppend(b, us, k, pawns, knights, 0, 8, 9);
      SpansAppend(b, us, k, pawns + knights, bishops, 0, 9, 11);
      SpansAppend(b, us, k, pawns + knights + bishops, rooks, 0, 11, 13);
      SpansAppend(b, us, k, pawns + knights + bishops + rooks, PieceList(v, k, Queen, target), 0, 13, 15);
    }
  }

  lemma KingListSpans(b: Board, us: Color, k: Square, v: View, attacked: Bitboard, stage: GenType)
    requires IsKing(b, us, k) && |v.byType| == 7 && |v.byColor| == 2
    ensures Spans(b, us, k, KingList(v, k, attacked, stage), 15, 16)
  {
    var to := AttacksBB(King, k, {}) * (KingTargets(v, stage) - attacked);
    assert PieceOn(b, us, k, k, 15);
    hide *;
    KingListIs(v, k, attacked, stage);
    FromListRun(b, us, k, k, to, 15, 0);
    RunSpans(b, us, k, FromList(k, to), 15, 64 * k + 0, 64 * k + 64);
  }

  /** Each held right's rook stands on its own side of the king. */
  predicate WingsApart(v: View, k: Square) {
    forall r :: r in v.st.castlingRights && r in v.castlingRookSquare && r.color == v.side ==>
      v.castlingRookSquare[r] != k && (r.wing == KingSide <==> v.castlingRookSquare[r] > k)
  }

  lemma CastlingListSpans(b: Board, us: Color, k: Square, v: View, attacked: Bitboard)
    requires |v.byType| == 7 && |v.st.blockers| == 2 && WingsApart(v, k)
    ensures Spans(b, us, k, CastlingList(v, k, attacked), 16, 18)
  {
    CastleListSpans(b, us, k, v, attacked, Right(v.side, KingSide));
    CastleListSpans(b, us, k, v, attacked, Right(v.side, QueenSide));
    hide Spans, CastleList;
    SpansAppend(b, us, k, CastleList(v, k, attacked, Right(v.side, KingSide)),
                CastleList(v, k, attacked, Right(v.side, QueenSide)), 16, 17, 18);
  }

  lemma CastleListSpans(b: Board, us: Color, k: Square, v: View, attacked: Bitboard, r: Right)
    requires |v.byType| == 7 && |v.st.blockers| == 2 && WingsApart(v, k) && r.color == v.side
    ensures var phase := if r.wing == KingSide then 16 else 17;
            Spans(b, us, k, CastleList(v, k, attacked, r), phase, phase + 1)
  {
    var phase := if r.wing == KingSide then 16 else 17;
    SpansNone(b, us, k, phase, phase + 1);
    if CastleOk(v, k, attacked, r) {
      assert Phase(b, us, k, Move(Castling, k, v.castlingRookSquare[r], Knight)) == phase;
      RunOne(b, us, k, Move(Castling, k, v.castlingRookSquare[r], Knight), phase, 0, 1);
      RunSpans(b, us, k, [Move(Castling, k, v.castlingRookSquare[r], Knight)], phase, 0, 1);
    }
    hide Spans, Run, Phase, MakeSquare, BetweenBB;
  }

  /** One stage comes out in order. */
  lemma StageInOrder(b: Board, us: Color, k: Square, v: View, attacked: Bitboard, stage: GenType)
    requires Reads(b, us, k, v) && WingsApart(v, k) && (stage == Evasions ==> v.st.checkers != {})
    ensures |v.byType| == 7 && |v.byColor| == 2 && |v.st.blockers| == 2
    ensures Ascends(b, us, k, StageList(v, k, attacked, stage))
  {
    hide *;
    TakeNeeds(b, us, k, v, false, k, k);
    ReadsKing(b, us, k, v);
    MoverListSpans(b, us, k, v, stage);
    KingListSpans(b, us, k, v, attacked, stage);
    CastlingListSpans(b, us, k, v, attacked);
    SpansNone(b, us, k, 16, 18);
    var movers, king := MoverList(v, k, stage), KingList(v, k, attacked, stage);
    var castling := if stage != Quiets then [] else CastlingList(v, k, attacked);
    SpansAppend(b, us, k, movers, king, 0, 15, 16);
    SpansAppend(b, us, k, movers + king, castling, 0, 16, 18);
    StageListIs(v, k, attacked, stage, [], [] + movers + king + castling);
    assert [] + movers == movers;
    assert [] + StageList(v, k, attacked, stage) == StageList(v, k, attacked, stage);
    SpansAscends(b, us, k, StageList(v, k, attacked, stage), 0, 18);
  }

  lemma ReadsKing(b: Board, us: Color, k: Square, v: View)
    requires Reads(b, us, k, v)
    ensures IsKing(b, us, k)
  {
    hide IsKing, TypesSynced, ColorsSynced, BlockersBB, AttackersBB;
  }

  lemma SpansAscends(b: Board, us: Color, k: Square, s: seq<Move>, lo: nat, hi: nat)
    requires Spans(b, us, k, s, lo, hi)
    ensures Ascends(b, us, k, s)
  {
    hide Ascends, Phase;
  }
}
