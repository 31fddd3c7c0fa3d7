/** The move generator: bitboard loops that append to the caller's list. Each method says how
    often it appends each move word. */
module MoveGen {
  import opened Squares
  import opened Types
  import opened Board
  import opened Rules
  import opened Attacks
  import opened Derived
  import opened State
  import opened Views

  datatype GenType = Captures | Quiets | Evasions

  function Bit(p: bool): nat {
    if p then 1 else 0
  }

  /** How often m stands in the list. */
  function Count(list: seq<Move>, m: Move): nat {
    multiset(list)[m]
  }

  /** A list grown by another one. */
  lemma CountGrown(list: seq<Move>, more: seq<Move>, m: Move)
    ensures Count(list + more, m) == Count(list, m) + Count(more, m)
  {
  }

  lemma CountOne(x: Move, m: Move)
    ensures Count([x], m) == Bit(m == x)
  {
  }

  lemma Assoc(a: seq<Move>, b: seq<Move>, c: seq<Move>)
    ensures a + b + c == a + (b + c)
  {
  }

  // ----- emission loops: each empties a bitboard from the lowest square up -----

  predicate ToEntry(b: Bitboard, delta: int, m: Move) {
    m.to in b && m.from == m.to - delta && m == NormalMove(m.from, m.to)
  }

  function ToList(b: Bitboard, delta: int): seq<Move>
    requires forall t :: t in b ==> 0 <= t - delta < 64
  {
    if b == {} then [] else
      var t := Lsb(b);
      [NormalMove(t - delta, t)] + ToList(b - {t}, delta)
  }

  lemma {:induction false} ToListCount(b: Bitboard, delta: int, m: Move)
    requires forall t :: t in b ==> 0 <= t - delta < 64
    ensures Count(ToList(b, delta), m) == Bit(ToEntry(b, delta, m))
  {
    if b != {} {
      var t := Lsb(b);
      ToListCount(b - {t}, delta, m);
      CountOne(NormalMove(t - delta, t), m);
      CountGrown([NormalMove(t - delta, t)], ToList(b - {t}, delta), m);
      hide Count;
    }
  }

  /** A normal move onto each square of b, from delta behind it. */
  method EmitShifted(list: seq<Move>, b: Bitboard, delta: int) returns (r: seq<Move>)
    requires forall t :: t in b ==> 0 <= t - delta < 64
    ensures r == list + ToList(b, delta)
  {
    r := list;
    var left := b;
    while left != {}
      invariant left <= b
      invariant r + ToList(left, delta) == list + ToList(b, delta)
    {
      var t := Lsb(left);
      ghost var rest := ToList(left - {t}, delta);
      assert r + ([NormalMove(t - delta, t)] + rest) == r + [NormalMove(t - delta, t)] + rest;
      left := left - {t};
      r := r + [NormalMove(t - delta, t)];
    }
  }

  predicate FromEntry(from: Square, b: Bitboard, m: Move) {
    m.to in b && m == NormalMove(from, m.to)
  }

  function FromList(from: Square, b: Bitboard): seq<Move> {
    if b == {} then [] else
      var t := Lsb(b);
      [NormalMove(from, t)] + FromList(from, b - {t})
  }

  lemma {:induction false} FromListCount(from: Square, b: Bitboard, m: Move)
    ensures Count(FromList(from, b), m) == Bit(FromEntry(from, b, m))
  {
    if b != {} {
      var t := Lsb(b);
      FromListCount(from, b - {t}, m);
      CountOne(NormalMove(from, t), m);
      CountGrown([NormalMove(from, t)], FromList(from, b - {t}), m);
      hide Count;
    }
  }

  /** A normal move from `from` onto each square of b. */
  method EmitFrom(list: seq<Move>, from: Square, b: Bitboard) returns (r: seq<Move>)
    ensures r == list + FromList(from, b)
  {
    r := list;
    var left := b;
    while left != {}
      invariant left <= b
      invariant r + FromList(from, left) == list + FromList(from, b)
    {
      var t := Lsb(left);
      ghost var rest := FromList(from, left - {t});
      assert r + ([NormalMove(from, t)] + rest) == r + [NormalMove(from, t)] + rest;
      left := left - {t};
      r := r + [NormalMove(from, t)];
    }
  }

  /** Which promotions a stage emits: the queen with the captures, an underpromotion with the
      captures only if it captures. */
  predicate PromotesIn(stage: GenType, enemy: bool, promo: Promo) {
    match stage
    case Evasions => true
    case Captures => promo == Queen || enemy
    case Quiets => promo != Queen && !enemy
  }

  predicate PromotionEntry(b: Bitboard, delta: int, stage: GenType, enemy: bool, m: Move) {
    m.kind == Promotion && m.to in b && m.from == m.to - delta && PromotesIn(stage, enemy, m.promo)
  }

  /** Queen, rook, bishop, knight: those of them the stage takes. */
  function Promotions(from: Square, to: Square, stage: GenType, enemy: bool): seq<Move> {
    (if PromotesIn(stage, enemy, Queen) then [Move(Promotion, from, to, Queen)] else [])
    + if PromotesIn(stage, enemy, Rook)
      then [Move(Promotion, from, to, Rook), Move(Promotion, from, to, Bishop), Move(Promotion, from, to, Knight)]
      else []
  }

  lemma PromotionsCount(from: Square, to: Square, stage: GenType, enemy: bool, m: Move)
    ensures Count(Promotions(from, to, stage, enemy), m) ==
            Bit(m.kind == Promotion && m.to == to && m.from == from && PromotesIn(stage, enemy, m.promo))
  {
    var q, r := [Move(Promotion, from, to, Queen)], Move(Promotion, from, to, Rook);
    var b, n := Move(Promotion, from, to, Bishop), Move(Promotion, from, to, Knight);
    assert [r, b, n] == [r] + [b] + [n];
    CountOne(Move(Promotion, from, to, Queen), m);
    CountOne(r, m);
    CountOne(b, m);
    CountOne(n, m);
    CountGrown([r], [b], m);
    CountGrown([r] + [b], [n], m);
    CountGrown(if PromotesIn(stage, enemy, Queen) then q else [], if PromotesIn(stage, enemy, Rook) then [r, b, n]
        else [], m);
    CountEmpty(m);
    hide Count;
  }

  lemma CountEmpty(m: Move)
    ensures Count([], m) == 0
  {
  }

  method MakePromotions(list: seq<Move>, to: Square, from: Square, stage: GenType, enemy: bool) returns (r: seq<Move>)
    ensures r == list + Promotions(from, to, stage, enemy)
    ensures forall m :: Count(r, m) == Count(list, m)
                        + Bit(m.kind == Promotion && m.to == to && m.from == from && PromotesIn(stage, enemy, m.promo))
  {
    hide *;
    var all := stage == Evasions;
    r := list;
    if stage == Captures || all {
      r := r + [Move(Promotion, from, to, Queen)];
    }
    if (stage == Captures && enemy) || (stage == Quiets && !enemy) || all {
      r := r + [Move(Promotion, from, to, Rook)];
      r := r + [Move(Promotion, from, to, Bishop)];
      r := r + [Move(Promotion, from, to, Knight)];
    }
    PromotionsStacked(list, from, to, stage, enemy);
    PromotionsCounts(list, from, to, stage, enemy);
  }

  lemma PromotionsStacked(list: seq<Move>, from: Square, to: Square, stage: GenType, enemy: bool)
    ensures var queened := if stage == Captures || stage == Evasions then list + [Move(Promotion, from, to, Queen)]
      else list;
            list + Promotions(from, to, stage, enemy) ==
            if (stage == Captures && enemy) || (stage == Quiets && !enemy) || stage == Evasions
            then queened + [Move(Promotion, from, to, Rook)] + [Move(Promotion, from, to, Bishop)] +
              [Move(Promotion, from, to, Knight)]
            else queened
  {
  }

  lemma PromotionsCounts(list: seq<Move>, from: Square, to: Square, stage: GenType, enemy: bool)
    ensures forall m :: Count(list + Promotions(from, to, stage, enemy), m) == Count(list, m)
                        + Bit(m.kind == Promotion && m.to == to && m.from == from && PromotesIn(stage, enemy, m.promo))
  {
    hide *;
    forall m
      ensures Count(list + Promotions(from, to, stage, enemy), m) == Count(list, m)
              + Bit(m.kind == Promotion && m.to == to && m.from == from && PromotesIn(stage, enemy, m.promo))
    {
      CountGrown(list, Promotions(from, to, stage, enemy), m);
      PromotionsCount(from, to, stage, enemy, m);
    }
  }

  function PromotionList(b: Bitboard, delta: int, stage: GenType, enemy: bool): seq<Move>
    requires forall t :: t in b ==> 0 <= t - delta < 64
  {
    if b == {} then [] else
      var t := Lsb(b);
      Promotions(t - delta, t, stage, enemy) + PromotionList(b - {t}, delta, stage, enemy)
  }

  lemma PromotionListSplit(b: Bitboard, delta: int, stage: GenType, enemy: bool)
    requires forall t :: t in b ==> 0 <= t - delta < 64
    ensures b == {} ==> PromotionList(b, delta, stage, enemy) == []
    ensures b != {} ==>
              var t := Lsb(b);
              PromotionList(b, delta, stage, enemy) ==
                Promotions(t - delta, t, stage, enemy) + PromotionList(b - {t}, delta, stage, enemy)
  {
  }

  lemma PromotionEntrySplit(b: Bitboard, t: Square, delta: int, stage: GenType, enemy: bool, m: Move)
    requires t in b && 0 <= t - delta < 64
    ensures Bit(PromotionEntry(b, delta, stage, enemy, m)) ==
            Bit(PromotionEntry(b - {t}, delta, stage, enemy, m))
            + Bit(m.kind == Promotion && m.to == t && m.from == t - delta && PromotesIn(stage, enemy, m.promo))
  {
    hide PromotesIn;
  }

  lemma NoPromotionEntry(delta: int, stage: GenType, enemy: bool, m: Move)
    ensures !PromotionEntry({}, delta, stage, enemy, m)
  {
  }

  lemma {:induction false} PromotionListCount(b: Bitboard, delta: int, stage: GenType, enemy: bool, m: Move)
    requires forall t :: t in b ==> 0 <= t - delta < 64
    ensures Count(PromotionList(b, delta, stage, enemy), m) == Bit(PromotionEntry(b, delta, stage, enemy, m))
  {
    hide *;
    PromotionListSplit(b, delta, stage, enemy);
    if b == {} {
      CountEmpty(m);
      NoPromotionEntry(delta, stage, enemy, m);
      BitIs();
    } else {
      var t := Lsb(b);
      PromotionListCount(b - {t}, delta, stage, enemy, m);
      PromotionsCount(t - delta, t, stage, enemy, m);
      CountGrown(Promotions(t - delta, t, stage, enemy), PromotionList(b - {t}, delta, stage, enemy), m);
      PromotionEntrySplit(b, t, delta, stage, enemy, m);
    }
  }

  lemma BitIs()
    ensures Bit(true) == 1 && Bit(false) == 0
  {
  }

  method EmitPromotions(list: seq<Move>, b: Bitboard, delta: int, stage: GenType, enemy: bool) returns (r: seq<Move>)
    requires forall t :: t in b ==> 0 <= t - delta < 64
    ensures r == list + PromotionList(b, delta, stage, enemy)
  {
    hide *;
    r := list;
    var left := b;
    PromotionListSplit({}, delta, stage, enemy);
    while left != {}
      invariant left <= b
      invariant r + PromotionList(left, delta, stage, enemy) == list + PromotionList(b, delta, stage, enemy)
    {
      PromotionListSplit(left, delta, stage, enemy);
      var t := Lsb(left);
      Assoc(r, Promotions(t - delta, t, stage, enemy), PromotionList(left - {t}, delta, stage, enemy));
      left := left - {t};
      r := MakePromotions(r, t, t - delta, stage, enemy);
    }
  }

  predicate EpEntry(b: Bitboard, ep: Square, m: Move) {
    m.from in b && m == EpMove(m.from, ep)
  }

  function EpList(b: Bitboard, ep: Square): seq<Move> {
    if b == {} then [] else
      var f := Lsb(b);
      [EpMove(f, ep)] + EpList(b - {f}, ep)
  }

  lemma {:induction false} EpListCount(b: Bitboard, ep: Square, m: Move)
    ensures Count(EpList(b, ep), m) == Bit(EpEntry(b, ep, m))
  {
    if b != {} {
      var f := Lsb(b);
      EpListCount(b - {f}, ep, m);
      CountOne(EpMove(f, ep), m);
      CountGrown([EpMove(f, ep)], EpList(b - {f}, ep), m);
      hide Count;
    }
  }

  method EmitEnPassant(list: seq<Move>, b: Bitboard, ep: Square) returns (r: seq<Move>)
    ensures r == list + EpList(b, ep)
  {
    r := list;
    var left := b;
    while left != {}
      invariant left <= b
      invariant r + EpList(left, ep) == list + EpList(b, ep)
    {
      var f := Lsb(left);
      ghost var rest := EpList(left - {f}, ep);
      assert r + ([EpMove(f, ep)] + rest) == r + [EpMove(f, ep)] + rest;
      left := left - {f};
      r := r + [EpMove(f, ep)];
    }
  }

  // ----- the pawn sets -----

  ghost predicate Readable(v: View) {
    && |v.byType| == 7 && |v.byColor| == 2 && |v.st.blockers| == 2 && |v.st.threats| == 7
    && PiecesCP(v, White, King) != {} && PiecesCP(v, Black, King) != {}
  }

  function UpRight(us: Color): int {
    if us == White then 9 else -9
  }

  function UpLeft(us: Color): int {
    if us == White then 7 else -7
  }

  function PawnsOn7(v: View): Bitboard
    requires |v.byType| == 7 && |v.byColor| == 2
  {
    PiecesCP(v, v.side, Pawn) * RankBB(if v.side == White then 6 else 1)
  }

  function PawnsNot7(v: View): Bitboard
    requires |v.byType| == 7 && |v.byColor| == 2
  {
    PiecesCP(v, v.side, Pawn) - RankBB(if v.side == White then 6 else 1)
  }

  function Pinned7(v: View): Bitboard
    requires |v.st.blockers| == 2
  {
    v.st.blockers[ColorIndex(v.side)]
  }

  function Pushable(v: View, k: Square): Bitboard
    requires |v.st.blockers| == 2
  {
    (ALL_SQUARES - Pinned7(v)) + FileBB(File(k))
  }

  function CanCaptureRight(v: View, k: Square): Bitboard
    requires |v.st.blockers| == 2
  {
    (ALL_SQUARES - Pinned7(v)) + DiagBB(k)
  }

  function CanCaptureLeft(v: View, k: Square): Bitboard
    requires |v.st.blockers| == 2
  {
    (ALL_SQUARES - Pinned7(v)) + AntiDiagBB(k)
  }

  function Empty(v: View): Bitboard
    requires |v.byType| == 7
  {
    ALL_SQUARES - Pieces(v)
  }

  function Masked(stage: GenType, target: Bitboard, b: Bitboard): Bitboard {
    if stage == Evasions then b * target else b
  }

  function Push1(v: View, k: Square, pawns: Bitboard): Bitboard
    requires |v.byType| == 7 && |v.st.blockers| == 2
  {
    ShiftBB(Up(v.side), pawns * Pushable(v, k)) * Empty(v)
  }

  function Push2(v: View, k: Square): Bitboard
    requires |v.byType| == 7 && |v.byColor| == 2 && |v.st.blockers| == 2
  {
    ShiftBB(Up(v.side), Push1(v, k, PawnsNot7(v)) * RankBB(if v.side == White then 2 else 5)) * Empty(v)
  }

  function TakeRight(v: View, k: Square, pawns: Bitboard): Bitboard
    requires |v.byColor| == 2 && |v.st.blockers| == 2
  {
    ShiftBB(UpRight(v.side), pawns * CanCaptureRight(v, k)) * PiecesC(v, Flip(v.side))
  }

  function TakeLeft(v: View, k: Square, pawns: Bitboard): Bitboard
    requires |v.byColor| == 2 && |v.st.blockers| == 2
  {
    ShiftBB(UpLeft(v.side), pawns * CanCaptureLeft(v, k)) * PiecesC(v, Flip(v.side))
  }

  function EpFrom(v: View, k: Square, ep: Square): Bitboard
    requires |v.byType| == 7 && |v.byColor| == 2 && |v.st.blockers| == 2
  {
    PawnsNot7(v) * ((CanCaptureRight(v, k) * ShiftBB(-UpRight(v.side), {ep}))
                    + (CanCaptureLeft(v, k) * ShiftBB(-UpLeft(v.side), {ep})))
  }

  predicate EpAllowed(v: View, stage: GenType, target: Bitboard) {
    && stage != Quiets && v.st.epSquare.Some?
    && !(stage == Evasions && v.st.epSquare.value + Up(v.side) in target)
  }

  /** Everything generate_pawn_moves appends, term by term. */
  function PawnEntries(v: View, k: Square, target: Bitboard, stage: GenType, m: Move): nat
    requires |v.byType| == 7 && |v.byColor| == 2 && |v.st.blockers| == 2
  {
    var us := v.side;
    (if stage == Captures then 0 else
       Bit(ToEntry(Masked(stage, target, Push1(v, k, PawnsNot7(v))), Up(us), m))
       + Bit(ToEntry(Masked(stage, target, Push2(v, k)), 2 * Up(us), m)))
    + Bit(PromotionEntry(Masked(stage, target, TakeRight(v, k, PawnsOn7(v))), UpRight(us), stage, true, m))
    + Bit(PromotionEntry(Masked(stage, target, TakeLeft(v, k, PawnsOn7(v))), UpLeft(us), stage, true, m))
    + Bit(PromotionEntry(Masked(stage, target, Push1(v, k, PawnsOn7(v))), Up(us), stage, false, m))
    + (if stage == Quiets then 0 else
         Bit(ToEntry(Masked(stage, target, TakeRight(v, k, PawnsNot7(v))), UpRight(us), m))
         + Bit(ToEntry(Masked(stage, target, TakeLeft(v, k, PawnsNot7(v))), UpLeft(us), m)))
    + (if EpAllowed(v, stage, target) then Bit(EpEntry(EpFrom(v, k, v.st.epSquare.value), v.st.epSquare.value, m))
        else 0)
  }

  lemma ShiftSource(d: int, b: Bitboard, t: Square)
    requires d in {8, -8, 9, 7, -7, -9} && t in ShiftBB(d, b)
    ensures 0 <= t - d < 64 && t - d in b
  {
  }

  lemma Push2Source(v: View, k: Square, t: Square)
    requires |v.byType| == 7 && |v.byColor| == 2 && |v.st.blockers| == 2 && t in Push2(v, k)
    ensures 0 <= t - 2 * Up(v.side) < 64
  {
    ShiftSource(Up(v.side), Push1(v, k, PawnsNot7(v)) * RankBB(if v.side == White then 2 else 5), t);
    ShiftSource(Up(v.side), PawnsNot7(v) * Pushable(v, k), t - Up(v.side));
  }

  lemma PawnShiftsInside(v: View, k: Square)
    requires |v.byType| == 7 && |v.byColor| == 2 && |v.st.blockers| == 2
    ensures forall pawns: Bitboard, t :: t in Push1(v, k, pawns) ==> 0 <= t - Up(v.side) < 64
    ensures forall pawns: Bitboard, t :: t in TakeRight(v, k, pawns) ==> 0 <= t - UpRight(v.side) < 64
    ensures forall pawns: Bitboard, t :: t in TakeLeft(v, k, pawns) ==> 0 <= t - UpLeft(v.side) < 64
  {
  }

  lemma PawnsInside2(v: View, k: Square)
    requires |v.byType| == 7 && |v.byColor| == 2 && |v.st.blockers| == 2
    ensures forall t :: t in Push2(v, k) ==> 0 <= t - 2 * Up(v.side) < 64
  {
    forall t | t in Push2(v, k)
      ensures 0 <= t - 2 * Up(v.side) < 64
    {
      Push2Source(v, k, t);
    }
  }

  lemma MaskedPart(stage: GenType, target: Bitboard)
    ensures forall b: Bitboard :: Masked(stage, target, b) <= b
  {
  }

  // ----- the pawn lists -----

  function PawnPushes(v: View, k: Square, target: Bitboard, stage: GenType): seq<Move>
    requires |v.byType| == 7 && |v.byColor| == 2 && |v.st.blockers| == 2
  {
    PawnShiftsInside(v, k);
    PawnsInside2(v, k);
    MaskedPart(stage, target);
    if stage == Captures then [] else
      ToList(Masked(stage, target, Push1(v, k, PawnsNot7(v))), Up(v.side))
      + ToList(Masked(stage, target, Push2(v, k)), 2 * Up(v.side))
  }

  function PawnPromotions(v: View, k: Square, target: Bitboard, stage: GenType): seq<Move>
    requires |v.byType| == 7 && |v.byColor| == 2 && |v.st.blockers| == 2
  {
    PawnShiftsInside(v, k);
    MaskedPart(stage, target);
    PromotionList(Masked(stage, target, TakeRight(v, k, PawnsOn7(v))), UpRight(v.side), stage, true)
    + PromotionList(Masked(stage, target, TakeLeft(v, k, PawnsOn7(v))), UpLeft(v.side), stage, true)
    + PromotionList(Masked(stage, target, Push1(v, k, PawnsOn7(v))), Up(v.side), stage, false)
  }

  function PawnTakes(v: View, k: Square, target: Bitboard, stage: GenType): seq<Move>
    requires |v.byType| == 7 && |v.byColor| == 2 && |v.st.blockers| == 2
  {
    PawnShiftsInside(v, k);
    MaskedPart(stage, target);
    if stage == Quiets then [] else
      ToList(Masked(stage, target, TakeRight(v, k, PawnsNot7(v))), UpRight(v.side))
      + ToList(Masked(stage, target, TakeLeft(v, k, PawnsNot7(v))), UpLeft(v.side))
      + if EpAllowed(v, stage, target) then EpList(EpFrom(v, k, v.st.epSquare.value), v.st.epSquare.value) else []
  }

  function PawnList(v: View, k: Square, target: Bitboard, stage: GenType): seq<Move>
    requires |v.byType| == 7 && |v.byColor| == 2 && |v.st.blockers| == 2
  {
    PawnPushes(v, k, target, stage) + PawnPromotions(v, k, target, stage) + PawnTakes(v, k, target, stage)
  }

  lemma PushesCount(v: View, k: Square, target: Bitboard, stage: GenType, m: Move)
    requires |v.byType| == 7 && |v.byColor| == 2 && |v.st.blockers| == 2
    ensures Count(PawnPushes(v, k, target, stage), m) ==
            if stage == Captures then 0 else
              Bit(ToEntry(Masked(stage, target, Push1(v, k, PawnsNot7(v))), Up(v.side), m))
              + Bit(ToEntry(Masked(stage, target, Push2(v, k)), 2 * Up(v.side), m))
  {
    PawnShiftsInside(v, k);
    PawnsInside2(v, k);
    MaskedPart(stage, target);
    CountEmpty(m);
    var b1, b2 := Masked(stage, target, Push1(v, k, PawnsNot7(v))), Masked(stage, target, Push2(v, k));
    ToListCount(b1, Up(v.side), m);
    ToListCount(b2, 2 * Up(v.side), m);
    CountGrown(ToList(b1, Up(v.side)), ToList(b2, 2 * Up(v.side)), m);
    hide Count, Push1, Push2, PawnsNot7, Masked, ToEntry, ToList;
  }

  lemma PromotionsListed(v: View, k: Square, target: Bitboard, stage: GenType, m: Move)
    requires |v.byType| == 7 && |v.byColor| == 2 && |v.st.blockers| == 2
    ensures Count(PawnPromotions(v, k, target, stage), m) ==
            Bit(PromotionEntry(Masked(stage, target, TakeRight(v, k, PawnsOn7(v))), UpRight(v.side), stage, true, m))
            + Bit(PromotionEntry(Masked(stage, target, TakeLeft(v, k, PawnsOn7(v))), UpLeft(v.side), stage, true, m))
            + Bit(PromotionEntry(Masked(stage, target, Push1(v, k, PawnsOn7(v))), Up(v.side), stage, false, m))
  {
    PawnShiftsInside(v, k);
    MaskedPart(stage, target);
    var b1, b2 := Masked(stage, target, TakeRight(v, k, PawnsOn7(v))),
      Masked(stage, target, TakeLeft(v, k, PawnsOn7(v)));
    var b3 := Masked(stage, target, Push1(v, k, PawnsOn7(v)));
    PromotionListCount(b1, UpRight(v.side), stage, true, m);
    PromotionListCount(b2, UpLeft(v.side), stage, true, m);
    PromotionListCount(b3, Up(v.side), stage, false, m);
    var l1, l2 := PromotionList(b1, UpRight(v.side), stage, true), PromotionList(b2, UpLeft(v.side), stage, true);
    CountGrown(l1, l2, m);
    CountGrown(l1 + l2, PromotionList(b3, Up(v.side), stage, false), m);
    hide Count, Push1, TakeRight, TakeLeft, PawnsOn7, Masked, PromotionEntry, PromotionList;
  }

  lemma TakesCount(v: View, k: Square, target: Bitboard, stage: GenType, m: Move)
    requires |v.byType| == 7 && |v.byColor| == 2 && |v.st.blockers| == 2
    ensures Count(PawnTakes(v, k, target, stage), m) ==
            (if stage == Quiets then 0 else
               Bit(ToEntry(Masked(stage, target, TakeRight(v, k, PawnsNot7(v))), UpRight(v.side), m))
               + Bit(ToEntry(Masked(stage, target, TakeLeft(v, k, PawnsNot7(v))), UpLeft(v.side), m)))
            + (if EpAllowed(v, stage, target)
                then Bit(EpEntry(EpFrom(v, k, v.st.epSquare.value), v.st.epSquare.value, m)) else 0)
  {
    PawnShiftsInside(v, k);
    MaskedPart(stage, target);
    CountEmpty(m);
    var b1, b2 := Masked(stage, target, TakeRight(v, k, PawnsNot7(v))),
      Masked(stage, target, TakeLeft(v, k, PawnsNot7(v)));
    ToListCount(b1, UpRight(v.side), m);
    ToListCount(b2, UpLeft(v.side), m);
    var l1, l2 := ToList(b1, UpRight(v.side)), ToList(b2, UpLeft(v.side));
    CountGrown(l1, l2, m);
    CountGrown(l1 + l2, [], m);
    if EpAllowed(v, stage, target) {
      var ep := v.st.epSquare.value;
      EpListCount(EpFrom(v, k, ep), ep, m);
      CountGrown(l1 + l2, EpList(EpFrom(v, k, ep), ep), m);
    }
    hide Count, TakeRight, TakeLeft, PawnsNot7, Masked, ToEntry, EpEntry, ToList, EpList, EpFrom;
  }

  lemma PawnListCount(v: View, k: Square, target: Bitboard, stage: GenType, m: Move)
    requires |v.byType| == 7 && |v.byColor| == 2 && |v.st.blockers| == 2
    ensures Count(PawnList(v, k, target, stage), m) == PawnEntries(v, k, target, stage, m)
  {
    PushesCount(v, k, target, stage, m);
    PromotionsListed(v, k, target, stage, m);
    TakesCount(v, k, target, stage, m);
    CountGrown(PawnPushes(v, k, target, stage), PawnPromotions(v, k, target, stage), m);
    CountGrown(PawnPushes(v, k, target, stage) + PawnPromotions(v, k, target, stage), PawnTakes(v, k, target, stage),
               m);
    hide Count, PawnPushes, PawnPromotions, PawnTakes, Push1, Push2, TakeRight, TakeLeft, PawnsNot7, PawnsOn7, Masked,
         ToEntry,
         PromotionEntry, EpEntry, EpFrom;
  }

  lemma PawnListCounts(v: View, k: Square, target: Bitboard, stage: GenType, list: seq<Move>)
    requires |v.byType| == 7 && |v.byColor| == 2 && |v.st.blockers| == 2
    ensures forall m ::
            Count(list + PawnList(v, k, target, stage), m) == Count(list, m) + PawnEntries(v, k, target, stage, m)
  {
    hide *;
    forall m
      ensures Count(list + PawnList(v, k, target, stage), m) == Count(list, m) + PawnEntries(v, k, target, stage, m)
    {
      PawnListCount(v, k, target, stage, m);
      CountGrown(list, PawnList(v, k, target, stage), m);
    }
  }

  /** With no pawn on the seventh rank there is nothing to promote. */
  lemma NoPromotions(v: View, k: Square, target: Bitboard, stage: GenType)
    requires |v.byType| == 7 && |v.byColor| == 2 && |v.st.blockers| == 2 && PawnsOn7(v) == {}
    ensures PawnPromotions(v, k, target, stage) == []
  {
    assert TakeRight(v, k, {}) == {} && TakeLeft(v, k, {}) == {} && Push1(v, k, {}) == {};
    hide TakeRight, TakeLeft, Push1, PawnsOn7;
  }

  method GeneratePawnMoves(v: View, list: seq<Move>, target: Bitboard, stage: GenType) returns (r: seq<Move>)
    requires Readable(v)
    ensures r == list + PawnList(v, KingSquare(v, v.side), target, stage)
    ensures var k := KingSquare(v, v.side);
            forall m :: Count(r, m) == Count(list, m) + PawnEntries(v, k, target, stage, m)
  {
    hide *;
    ReadableIs(v);
    var us := v.side;
    var ksq := KingSquare(v, us);
    var pawnsOn7 := PawnsOn7(v);
    var pawnsNot7 := PawnsNot7(v);
    var up, upRight, upLeft := Up(us), UpRight(us), UpLeft(us);
    PawnShiftsInside(v, ksq);
    PawnsInside2(v, ksq);
    MaskedPart(stage, target);
    PawnListsAre(v, ksq, target, stage);
    r := list;
    if stage != Captures {
      var b1 := Push1(v, ksq, pawnsNot7);
      var b2 := Push2(v, ksq);
      r := EmitShifted(r, Masked(stage, target, b1), up);
      r := EmitShifted(r, Masked(stage, target, b2), 2 * up);
      Assoc(list, ToList(Masked(stage, target, b1), up), ToList(Masked(stage, target, b2), 2 * up));
    }
    assert r == list + PawnPushes(v, ksq, target, stage);
    ghost var pushed := r;
    if pawnsOn7 != {} {
      var b1, b2 := Masked(stage, target, TakeRight(v, ksq, pawnsOn7)),
        Masked(stage, target, TakeLeft(v, ksq, pawnsOn7));
      var b3 := Masked(stage, target, Push1(v, ksq, pawnsOn7));
      r := EmitPromotions(r, b1, upRight, stage, true);
      r := EmitPromotions(r, b2, upLeft, stage, true);
      r := EmitPromotions(r, b3, up, stage, false);
      Assoc3(pushed, PromotionList(b1, upRight, stage, true), PromotionList(b2, upLeft, stage, true),
             PromotionList(b3, up, stage, false));
    } else {
      NoPromotions(v, ksq, target, stage);
    }
    assert r == pushed + PawnPromotions(v, ksq, target, stage);
    ghost var promoted := r;
    if stage != Quiets {
      r := EmitTakes(v, r, ksq, target, stage);
    } else {
      assert r == promoted + [];
    }
    Assoc3(list, PawnPushes(v, ksq, target, stage), PawnPromotions(v, ksq, target, stage),
           PawnTakes(v, ksq, target, stage));
    PawnListCounts(v, ksq, target, stage, list);
  }

  /** The captures of pawns off the seventh rank, en passant last. */
  method EmitTakes(v: View, list: seq<Move>, ksq: Square, target: Bitboard, stage: GenType) returns (r: seq<Move>)
    requires |v.byType| == 7 && |v.byColor| == 2 && |v.st.blockers| == 2 && stage != Quiets
    ensures r == list + PawnTakes(v, ksq, target, stage)
  {
    hide *;
    PawnShiftsInside(v, ksq);
    MaskedPart(stage, target);
    PawnListsAre(v, ksq, target, stage);
    var upRight, upLeft := UpRight(v.side), UpLeft(v.side);
    var b1, b2 := Masked(stage, target, TakeRight(v, ksq, PawnsNot7(v))),
      Masked(stage, target, TakeLeft(v, ksq, PawnsNot7(v)));
    r := EmitShifted(list, b1, upRight);
    r := EmitShifted(r, b2, upLeft);
    ghost var takes := r;
    if EpAllowed(v, stage, target) {
      EpAllowedHas(v, stage, target);
      r := EmitEnPassant(r, EpFrom(v, ksq, v.st.epSquare.value), v.st.epSquare.value);
      Assoc3(list, ToList(b1, upRight), ToList(b2, upLeft),
             EpList(EpFrom(v, ksq, v.st.epSquare.value), v.st.epSquare.value));
    } else {
      Assoc3(list, ToList(b1, upRight), ToList(b2, upLeft), []);
      assert takes + [] == takes;
    }
  }

  lemma EpAllowedHas(v: View, stage: GenType, target: Bitboard)
    ensures EpAllowed(v, stage, target) ==> v.st.epSquare.Some?
  {
  }

  lemma ReadableIs(v: View)
    requires Readable(v)
    ensures |v.byType| == 7 && |v.byColor| == 2 && |v.st.blockers| == 2 && |v.st.threats| == 7
    ensures PiecesCP(v, v.side, King) != {} && 0 <= ColorIndex(v.side) < 2
  {
    assert v.side == White || v.side == Black;
    hide PiecesCP;
  }

  lemma Assoc3(a: seq<Move>, b: seq<Move>, c: seq<Move>, d: seq<Move>)
    ensures a + b + c + d == a + (b + c + d)
  {
  }

  lemma PawnListsAre(v: View, k: Square, target: Bitboard, stage: GenType)
    requires |v.byType| == 7 && |v.byColor| == 2 && |v.st.blockers| == 2
    ensures PawnList(v, k, target, stage) ==
            PawnPushes(v, k, target, stage) + PawnPromotions(v, k, target, stage) + PawnTakes(v, k, target, stage)
    ensures var b1, b2 := Masked(stage, target, Push1(v, k, PawnsNot7(v))), Masked(stage, target, Push2(v, k));
            && (forall t :: t in b1 ==> 0 <= t - Up(v.side) < 64)
            && (forall t :: t in b2 ==> 0 <= t - 2 * Up(v.side) < 64)
            && PawnPushes(v, k, target, stage) == if stage == Captures then []
              else ToList(b1, Up(v.side)) + ToList(b2, 2 * Up(v.side))
    ensures var b1, b2 := Masked(stage, target, TakeRight(v, k, PawnsOn7(v))),
            Masked(stage, target, TakeLeft(v, k, PawnsOn7(v)));
            var b3 := Masked(stage, target, Push1(v, k, PawnsOn7(v)));
            && (forall t :: t in b1 ==> 0 <= t - UpRight(v.side) < 64)
            && (forall t :: t in b2 ==> 0 <= t - UpLeft(v.side) < 64)
            && (forall t :: t in b3 ==> 0 <= t - Up(v.side) < 64)
            && PawnPromotions(v, k, target, stage) ==
               PromotionList(b1, UpRight(v.side), stage, true) + PromotionList(b2, UpLeft(v.side), stage, true)
               + PromotionList(b3, Up(v.side), stage, false)
    ensures var b1, b2 := Masked(stage, target, TakeRight(v, k, PawnsNot7(v))),
            Masked(stage, target, TakeLeft(v, k, PawnsNot7(v)));
            && (forall t :: t in b1 ==> 0 <= t - UpRight(v.side) < 64)
            && (forall t :: t in b2 ==> 0 <= t - UpLeft(v.side) < 64)
            && PawnTakes(v, k, target, stage) ==
               if stage == Quiets then [] else
                 ToList(b1, UpRight(v.side)) + ToList(b2, UpLeft(v.side))
                 + if EpAllowed(v, stage, target) then EpList(EpFrom(v, k, v.st.epSquare.value), v.st.epSquare.value)
                   else []
  {
    PawnShiftsInside(v, k);
    PawnsInside2(v, k);
    MaskedPart(stage, target);
    hide Push1, Push2, TakeRight, TakeLeft, PawnsOn7, PawnsNot7, Masked, ToList, PromotionList, EpList, EpFrom;
  }

  // ----- pieces -----

  /** A move of a piece of this kind onto the target; a blocker stays on its line, and a
      blocking knight stays put. */
  predicate PieceEntry(v: View, k: Square, kind: PieceType, target: Bitboard, m: Move)
    requires |v.byType| == 7 && |v.byColor| == 2 && |v.st.blockers| == 2 && kind != Pawn
  {
    && m == NormalMove(m.from, m.to) && m.from in PiecesCP(v, v.side, kind)
    && m.to in AttacksBB(kind, m.from, Pieces(v)) && m.to in target
    && (m.from in v.st.blockers[ColorIndex(v.side)] ==> kind != Knight && m.to in LineBB(k, m.from))
  }

  /** The moves of free pieces on `from`, the lowest first. */
  function FreeMoves(v: View, kind: PieceType, target: Bitboard, from: Bitboard): seq<Move>
    requires |v.byType| == 7 && kind != Pawn
  {
    if from == {} then [] else
      var s := Lsb(from);
      FromList(s, AttacksBB(kind, s, Pieces(v)) * target) + FreeMoves(v, kind, target, from - {s})
  }

  /** The same for pieces held on their line through the king. */
  function HeldMoves(v: View, k: Square, kind: PieceType, target: Bitboard, from: Bitboard): seq<Move>
    requires |v.byType| == 7 && kind != Pawn
  {
    if from == {} then [] else
      var s := Lsb(from);
      FromList(s, AttacksBB(kind, s, Pieces(v)) * target * LineBB(k, s)) + HeldMoves(v, k, kind, target, from - {s})
  }

  function PieceList(v: View, k: Square, kind: PieceType, target: Bitboard): seq<Move>
    requires |v.byType| == 7 && |v.byColor| == 2 && |v.st.blockers| == 2 && kind != Pawn
  {
    var pieces, pinned := PiecesCP(v, v.side, kind), v.st.blockers[ColorIndex(v.side)];
    FreeMoves(v, kind, target, pieces - pinned) + if kind == Knight then []
      else HeldMoves(v, k, kind, target, pieces * pinned)
  }

  lemma {:induction false} FreeMovesCount(v: View, kind: PieceType, target: Bitboard, from: Bitboard, m: Move)
    requires |v.byType| == 7 && kind != Pawn
    ensures Count(FreeMoves(v, kind, target, from), m) ==
            Bit(m.from in from && FromEntry(m.from, AttacksBB(kind, m.from, Pieces(v)) * target, m))
  {
    if from == {} {
      CountEmpty(m);
    } else {
      var s := Lsb(from);
      FreeMovesCount(v, kind, target, from - {s}, m);
      FromListCount(s, AttacksBB(kind, s, Pieces(v)) * target, m);
      CountGrown(FromList(s, AttacksBB(kind, s, Pieces(v)) * target), FreeMoves(v, kind, target, from - {s}), m);
    }
    hide Count, AttacksBB, FromList;
  }

  lemma {:induction false} HeldMovesCount(v: View, k: Square, kind: PieceType, target: Bitboard, from: Bitboard,
                                          m: Move)
    requires |v.byType| == 7 && kind != Pawn
    ensures Count(HeldMoves(v, k, kind, target, from), m) ==
            Bit(m.from in from && FromEntry(m.from, AttacksBB(kind, m.from, Pieces(v)) * target * LineBB(k, m.from), m))
  {
    if from == {} {
      CountEmpty(m);
    } else {
      var s := Lsb(from);
      var b := AttacksBB(kind, s, Pieces(v)) * target * LineBB(k, s);
      HeldMovesCount(v, k, kind, target, from - {s}, m);
      FromListCount(s, b, m);
      CountGrown(FromList(s, b), HeldMoves(v, k, kind, target, from - {s}), m);
    }
    hide Count, AttacksBB, FromList, LineBB;
  }

  lemma PieceListCount(v: View, k: Square, kind: PieceType, target: Bitboard, m: Move)
    requires |v.byType| == 7 && |v.byColor| == 2 && |v.st.blockers| == 2 && kind != Pawn
    ensures Count(PieceList(v, k, kind, target), m) == Bit(PieceEntry(v, k, kind, target, m))
  {
    var pieces, pinned := PiecesCP(v, v.side, kind), v.st.blockers[ColorIndex(v.side)];
    FreeMovesCount(v, kind, target, pieces - pinned, m);
    HeldMovesCount(v, k, kind, target, pieces * pinned, m);
    CountGrown(FreeMoves(v, kind, target, pieces - pinned), HeldMoves(v, k, kind, target, pieces * pinned), m);
    assert FreeMoves(v, kind, target, pieces - pinned) + [] == FreeMoves(v, kind, target, pieces - pinned);
    hide Count, AttacksBB, FreeMoves, HeldMoves, LineBB, PiecesCP;
  }

  lemma PieceListCounts(v: View, k: Square, kind: PieceType, target: Bitboard, list: seq<Move>)
    requires |v.byType| == 7 && |v.byColor| == 2 && |v.st.blockers| == 2 && kind != Pawn
    ensures forall m ::
            Count(list + PieceList(v, k, kind, target), m) == Count(list, m) + Bit(PieceEntry(v, k, kind, target, m))
  {
    hide *;
    forall m
      ensures Count(list + PieceList(v, k, kind, target), m) == Count(list, m) + Bit(PieceEntry(v, k, kind, target, m))
    {
      PieceListCount(v, k, kind, target, m);
      CountGrown(list, PieceList(v, k, kind, target), m);
    }
  }

  method GeneratePieceMoves(v: View, list: seq<Move>, kind: PieceType, target: Bitboard) returns (r: seq<Move>)
    requires Readable(v) && kind != Pawn
    ensures r == list + PieceList(v, KingSquare(v, v.side), kind, target)
    ensures forall m :: Count(r, m) == Count(list, m) + Bit(PieceEntry(v, KingSquare(v, v.side), kind, target, m))
  {
    hide *;
    ReadableIs(v);
    var us := v.side;
    var ksq := KingSquare(v, us);
    var pinned := v.st.blockers[ColorIndex(us)];
    PieceListIs(v, ksq, kind, target);
    r := EmitFree(v, list, kind, target, PiecesCP(v, us, kind) - pinned);
    if kind != Knight {
      r := EmitHeld(v, r, ksq, kind, target, PiecesCP(v, us, kind) * pinned);
      Assoc(list, FreeMoves(v, kind, target, PiecesCP(v, us, kind) - pinned),
            HeldMoves(v, ksq, kind, target, PiecesCP(v, us, kind) * pinned));
    }
    PieceListCounts(v, ksq, kind, target, list);
  }

  lemma PieceListIs(v: View, k: Square, kind: PieceType, target: Bitboard)
    requires |v.byType| == 7 && |v.byColor| == 2 && |v.st.blockers| == 2 && kind != Pawn
    ensures 0 <= ColorIndex(v.side) < 2
    ensures var pieces, pinned := PiecesCP(v, v.side, kind), v.st.blockers[ColorIndex(v.side)];
            PieceList(v, k, kind, target) ==
            if kind == Knight then FreeMoves(v, kind, target, pieces - pinned)
            else FreeMoves(v, kind, target, pieces - pinned) + HeldMoves(v, k, kind, target, pieces * pinned)
  {
    hide PiecesCP, FreeMoves, HeldMoves;
  }

  /** The loop over the free pieces. */
  method EmitFree(v: View, list: seq<Move>, kind: PieceType, target: Bitboard, free: Bitboard) returns (r: seq<Move>)
    requires |v.byType| == 7 && kind != Pawn
    ensures r == list + FreeMoves(v, kind, target, free)
  {
    hide AttacksBB, FromList, Pieces;
    r := list;
    var fromBb := free;
    while fromBb != {}
      invariant r + FreeMoves(v, kind, target, fromBb) == list + FreeMoves(v, kind, target, free)
    {
      var from := Lsb(fromBb);
      var b := AttacksBB(kind, from, Pieces(v)) * target;
      Assoc(r, FromList(from, b), FreeMoves(v, kind, target, fromBb - {from}));
      fromBb := fromBb - {from};
      r := EmitFrom(r, from, b);
    }
  }

  /** The loop over the pinned ones. */
  method EmitHeld(v: View, list: seq<Move>, k: Square, kind: PieceType, target: Bitboard, held: Bitboard)
    returns (r: seq<Move>)
    requires |v.byType| == 7 && kind != Pawn
    ensures r == list + HeldMoves(v, k, kind, target, held)
  {
    hide AttacksBB, FromList, Pieces, LineBB;
    r := list;
    var fromBb := held;
    while fromBb != {}
      invariant r + HeldMoves(v, k, kind, target, fromBb) == list + HeldMoves(v, k, kind, target, held)
    {
      var from := Lsb(fromBb);
      var b := AttacksBB(kind, from, Pieces(v)) * target * LineBB(k, from);
      Assoc(r, FromList(from, b), HeldMoves(v, k, kind, target, fromBb - {from}));
      fromBb := fromBb - {from};
      r := EmitFrom(r, from, b);
    }
  }

  // ----- threats -----

  /** xattacks_by for a non-pawn: the union of the pieces' attacks. */
  method XAttacksBy(v: View, kind: PieceType, c: Color, occ: Bitboard) returns (threats: Bitboard)
    requires |v.byType| == 7 && |v.byColor| == 2 && kind != Pawn
    ensures forall t: Square :: t in threats <==> exists a :: a in PiecesCP(v, c, kind) && t in AttacksBB(kind, a, occ)
  {
    threats := {};
    hide AttacksBB, PiecesCP;
    var all := PiecesCP(v, c, kind);
    var attackers := all;
    while attackers != {}
      invariant attackers <= all
      invariant forall t: Square :: t in threats <==> exists a :: a in all - attackers && t in AttacksBB(kind, a, occ)
    {
      var a := Lsb(attackers);
      ghost var done := all - attackers;
      attackers := attackers - {a};
      assert all - attackers == done + {a};
      threats := threats + AttacksBB(kind, a, occ);
    }
  }

  lemma PawnThreatMember(c: Color, pawns: Bitboard, t: Square)
    ensures t in SetOfPawnAttacks(c, pawns) <==> exists a :: a in pawns && PawnStep(c, a, t)
  {
    if t in SetOfPawnAttacks(c, pawns) {
      var d := if c == White then (if t in ShiftBB(7, pawns) then 7 else 9)
        else (if t in ShiftBB(-9, pawns) then -9 else -7);
      assert ShiftedFrom(d, pawns, t);
      var a: Square := t - d;
      PawnShift(c, a, t);
      hide SetOfPawnAttacks, ShiftBB, PawnStep, File;
      assert a in pawns && PawnStep(c, a, t);
    }
    forall a: Square | a in pawns && PawnStep(c, a, t)
      ensures t in SetOfPawnAttacks(c, pawns)
    {
      PawnShift(c, a, t);
      hide PawnStep, File;
    }
  }

  /** A pawn attack is one of the two shifts that do not wrap. */
  lemma PawnShift(c: Color, a: Square, t: Square)
    ensures PawnStep(c, a, t) <==>
              (if c == White then t - a == 7 || t - a == 9 else t - a == -9 || t - a == -7) &&
                Abs(File(t) - File(a)) <= 1
  {
    Coords(a); Coords(t);
    hide File, Rank;
  }

  /** pos_compute_threats: the six sets and their union, seen through the mover's own king. */
  method ComputeThreats(v: View) returns (threats: seq<Bitboard>)
    requires Readable(v) && TypesSynced(v.board, v.byType) && ColorsSynced(v.board, v.byColor)
    requires IsKing(v.board, v.side, KingSquare(v, v.side))
    ensures var k := KingSquare(v, v.side);
            && |threats| == 7
            && threats[0] == AllThreatsBB(v.board, Flip(v.side), k)
            && forall kind: PieceType :: threats[TypeIndex(kind)] == ThreatsBB(v.board, Flip(v.side), k, kind)
  {
    var them := Flip(v.side);
    ghost var k := KingSquare(v, v.side);
    var xocc := Xor(Pieces(v), PiecesCP(v, v.side, King));
    assert xocc == Occupied(v.board) - {k} by {
      PiecesCPExact(v.board, v, v.side, King);
      assert PiecesOf(v.board, Piece(v.side, King)) == {k};
    }
    var pawn := SetOfPawnAttacks(them, PiecesCP(v, them, Pawn));
    var knight := XAttacksBy(v, Knight, them, xocc);
    var bishop := XAttacksBy(v, Bishop, them, xocc);
    var rook := XAttacksBy(v, Rook, them, xocc);
    var queen := XAttacksBy(v, Queen, them, xocc);
    var king := XAttacksBy(v, King, them, xocc);
    threats := [pawn + knight + bishop + rook + queen + king, pawn, knight, bishop, rook, queen, king];
    forall kind: PieceType
      ensures threats[TypeIndex(kind)] == ThreatsBB(v.board, them, k, kind)
    {
      PiecesCPExact(v.board, v, them, kind);
      hide PiecesCP, Hits, SetOfPawnAttacks, Occupied, KingSquare;
      if kind == Pawn {
        PawnThreats(v.board, them, k, PiecesCP(v, them, Pawn));
      } else {
        KindThreats(v.board, them, k, kind, PiecesCP(v, them, kind), threats[TypeIndex(kind)]);
      }
    }
    hide PiecesCP, ThreatsBB, SetOfPawnAttacks, Occupied, KingSquare, AttacksBB;
    UnionOfThreats(v.board, them, k, threats);
  }

  lemma PawnThreats(b: Board, them: Color, k: Square, pawns: Bitboard)
    requires pawns == PiecesOf(b, Piece(them, Pawn))
    ensures SetOfPawnAttacks(them, pawns) == ThreatsBB(b, them, k, Pawn)
  {
    forall t: Square
      ensures t in SetOfPawnAttacks(them, pawns) <==> t in ThreatsBB(b, them, k, Pawn)
    {
      PawnThreatMember(them, pawns, t);
      hide SetOfPawnAttacks, PawnStep, Occupied;
      forall a: Square
        ensures a in pawns && PawnStep(them, a, t) <==>
                b[a] == Piece(them, Pawn) && Hits(Piece(them, Pawn), a, t, Occupied(b) - {k})
      {
      }
      hide Hits;
    }
  }

  lemma KindThreats(b: Board, them: Color, k: Square, kind: PieceType, pieces: Bitboard, threats: Bitboard)
    requires kind != Pawn && pieces == PiecesOf(b, Piece(them, kind))
    requires forall t: Square :: t in threats <==> exists a :: a in pieces && t in AttacksBB(kind, a, Occupied(b) - {k})
    ensures threats == ThreatsBB(b, them, k, kind)
  {
    forall t: Square
      ensures t in threats <==> t in ThreatsBB(b, them, k, kind)
    {
      forall a: Square
        ensures a in pieces && t in AttacksBB(kind, a, Occupied(b) - {k})
                <==> b[a] == Piece(them, kind) && Hits(Piece(them, kind), a, t, Occupied(b) - {k})
      {
        ColourFree(kind, them, a, t, Occupied(b) - {k});
        hide Hits, Occupied;
      }
      hide Hits, Occupied, AttacksBB;
    }
  }

  lemma ColourFree(kind: PieceType, c: Color, s: Square, t: Square, occ: Bitboard)
    requires kind != Pawn
    ensures Hits(Piece(White, kind), s, t, occ) <==> Hits(Piece(c, kind), s, t, occ)
  {
  }

  lemma UnionOfThreats(b: Board, them: Color, k: Square, threats: seq<Bitboard>)
    requires |threats| == 7 && threats[0] == threats[1] + threats[2] + threats[3] + threats[4] + threats[5] + threats[6]
    requires forall kind: PieceType :: threats[TypeIndex(kind)] == ThreatsBB(b, them, k, kind)
    ensures threats[0] == AllThreatsBB(b, them, k)
  {
    assert threats[TypeIndex(Pawn)] == threats[1] && threats[TypeIndex(Knight)] == threats[2]
           && threats[TypeIndex(Bishop)] == threats[3] && threats[TypeIndex(Rook)] == threats[4]
           && threats[TypeIndex(Queen)] == threats[5] && threats[TypeIndex(King)] == threats[6];
    hide *;
    forall t: Square
      ensures t in AllThreatsBB(b, them, k) <==> t in threats[0]
    {
      ThreatenedBySome(b, them, k, t);
      if kind: PieceType :| t in ThreatsBB(b, them, k, kind) {
        assert t in threats[TypeIndex(kind)];
        TypeIndexSpread(kind);
      }
    }
  }

  lemma TypeIndexSpread(kind: PieceType)
    ensures 1 <= TypeIndex(kind) <= 6
  {
  }

  lemma ThreatenedBySome(b: Board, them: Color, k: Square, t: Square)
    ensures t in AllThreatsBB(b, them, k) <==> exists kind: PieceType :: t in ThreatsBB(b, them, k, kind)
  {
    if t in AllThreatsBB(b, them, k) {
      var a: Square :| Attacker(b, them, a, t, Occupied(b) - {k});
      assert b[a] == Piece(them, b[a].kind);
      assert ThreatenedBy(b, them, k, b[a].kind, t);
      assert t in ThreatsBB(b, them, k, b[a].kind);
    }
    if kind: PieceType :| t in ThreatsBB(b, them, k, kind) {
      var a: Square :| b[a] == Piece(them, kind) && Hits(Piece(them, kind), a, t, Occupied(b) - {k});
      assert Attacker(b, them, a, t, Occupied(b) - {k});
    }
    hide Hits, Occupied;
  }

  /** threats_by(ALL_PIECES): the cached total, computed when it has not been filled. */
  method AllThreats(v: View) returns (attacked: Bitboard)
    requires Readable(v) && TypesSynced(v.board, v.byType) && ColorsSynced(v.board, v.byColor)
    requires IsKing(v.board, v.side, KingSquare(v, v.side))
    requires v.st.threats[0] != {} ==> v.st.threats[0] == AllThreatsBB(v.board, Flip(v.side), KingSquare(v, v.side))
    ensures attacked == AllThreatsBB(v.board, Flip(v.side), KingSquare(v, v.side))
  {
    if v.st.threats[0] == {} {
      hide *;
      var threats := ComputeThreats(v);
      attacked := threats[0];
    } else {
      attacked := v.st.threats[0];
    }
  }

  // ----- castling -----

  /** The code's test of one right. */
  predicate CastleOk(v: View, k: Square, attacked: Bitboard, r: Right)
    requires |v.byType| == 7 && |v.st.blockers| == 2
  {
    && r in v.st.castlingRights && r in v.castlingRookSquare && r in v.castlingPath
    && var rfrom := v.castlingRookSquare[r];
       var kto := MakeSquare(if rfrom > k then 6 else 2, Rank(k));
       && v.castlingPath[r] * Pieces(v) == {}
       && BetweenBB(k, kto) * attacked == {}
       && rfrom !in v.st.blockers[ColorIndex(v.side)]
  }

  predicate CastleEntry(v: View, k: Square, attacked: Bitboard, r: Right, m: Move)
    requires |v.byType| == 7 && |v.st.blockers| == 2
  {
    CastleOk(v, k, attacked, r) && m == Move(Castling, k, v.castlingRookSquare[r], Knight)
  }

  /** One right's word, if the code's test passes. */
  function CastleList(v: View, k: Square, attacked: Bitboard, r: Right): seq<Move>
    requires |v.byType| == 7 && |v.st.blockers| == 2
  {
    if CastleOk(v, k, attacked, r) then [Move(Castling, k, v.castlingRookSquare[r], Knight)] else []
  }

  function CastlingList(v: View, k: Square, attacked: Bitboard): seq<Move>
    requires |v.byType| == 7 && |v.st.blockers| == 2
  {
    CastleList(v, k, attacked, Right(v.side, KingSide)) + CastleList(v, k, attacked, Right(v.side, QueenSide))
  }

  lemma CastleListCount(v: View, k: Square, attacked: Bitboard, r: Right, m: Move)
    requires |v.byType| == 7 && |v.st.blockers| == 2
    ensures Count(CastleList(v, k, attacked, r), m) == Bit(CastleEntry(v, k, attacked, r, m))
  {
    if CastleOk(v, k, attacked, r) {
      CountOne(Move(Castling, k, v.castlingRookSquare[r], Knight), m);
    }
    CountEmpty(m);
    hide Count, CastleOk;
  }

  lemma CastlingListCount(v: View, k: Square, attacked: Bitboard, m: Move)
    requires |v.byType| == 7 && |v.st.blockers| == 2
    ensures Count(CastlingList(v, k, attacked), m) ==
            Bit(CastleEntry(v, k, attacked, Right(v.side, KingSide), m)) +
              Bit(CastleEntry(v, k, attacked, Right(v.side, QueenSide), m))
  {
    var kingSide, queenSide := Right(v.side, KingSide), Right(v.side, QueenSide);
    CastleListCount(v, k, attacked, kingSide, m);
    CastleListCount(v, k, attacked, queenSide, m);
    CountGrown(CastleList(v, k, attacked, kingSide), CastleList(v, k, attacked, queenSide), m);
    hide Count, CastleList, CastleEntry;
  }

  method GenerateCastling(v: View, list: seq<Move>, attacked: Bitboard) returns (r: seq<Move>)
    requires Readable(v)
    requires forall right :: right in v.st.castlingRights ==> right in v.castlingRookSquare && right in v.castlingPath
    ensures r == list + CastlingList(v, KingSquare(v, v.side), attacked)
    ensures var k := KingSquare(v, v.side);
            forall m :: Count(r, m) == Count(list, m)
                        + Bit(CastleEntry(v, k, attacked, Right(v.side, KingSide), m))
                        + Bit(CastleEntry(v, k, attacked, Right(v.side, QueenSide), m))
  {
    var ksq := KingSquare(v, v.side);
    r := list;
    CastlingListCounts(v, ksq, attacked, list);
    hide CastleEntry, KingSquare, Count, CastleList;
    for side := 0 to 2
      invariant r == list + CastlesSoFar(v, ksq, attacked, side)
    {
      r := GenerateCastle(v, r, ksq, attacked, Right(v.side, if side == 0 then KingSide else QueenSide));
    }
  }

  lemma CastlingListCounts(v: View, k: Square, attacked: Bitboard, list: seq<Move>)
    requires |v.byType| == 7 && |v.st.blockers| == 2
    ensures forall m :: Count(list + CastlingList(v, k, attacked), m) == Count(list, m)
                        + Bit(CastleEntry(v, k, attacked, Right(v.side, KingSide), m))
                        + Bit(CastleEntry(v, k, attacked, Right(v.side, QueenSide), m))
  {
    hide *;
    forall m
      ensures Count(list + CastlingList(v, k, attacked), m) == Count(list, m)
              + Bit(CastleEntry(v, k, attacked, Right(v.side, KingSide), m))
              + Bit(CastleEntry(v, k, attacked, Right(v.side, QueenSide), m))
    {
      CastlingListCount(v, k, attacked, m);
      CountGrown(list, CastlingList(v, k, attacked), m);
    }
  }

  function CastlesSoFar(v: View, k: Square, attacked: Bitboard, n: int): seq<Move>
    requires |v.byType| == 7 && |v.st.blockers| == 2
  {
    (if n > 0 then CastleList(v, k, attacked, Right(v.side, KingSide)) else [])
    + if n > 1 then CastleList(v, k, attacked, Right(v.side, QueenSide)) else []
  }

  /** One turn of that loop. */
  method GenerateCastle(v: View, list: seq<Move>, ksq: Square, attacked: Bitboard, cr: Right) returns (r: seq<Move>)
    requires |v.byType| == 7 && |v.st.blockers| == 2 && cr.color == v.side
    requires forall right :: right in v.st.castlingRights ==> right in v.castlingRookSquare && right in v.castlingPath
    ensures r == list + CastleList(v, ksq, attacked, cr)
  {
    r := list;
    if cr !in v.st.castlingRights {
      return;
    }
    var rfrom := v.castlingRookSquare[cr];
    if v.castlingPath[cr] * Pieces(v) != {} {
      return;
    }
    var kto := MakeSquare(if rfrom > ksq then 6 else 2, Rank(ksq));
    hide BetweenBB;
    if BetweenBB(ksq, kto) * attacked != {} || rfrom in v.st.blockers[ColorIndex(v.side)] {
      return;
    }
    r := r + [Move(Castling, ksq, rfrom, Knight)];
  }

  // ----- the stages -----

  /** The squares a stage's pieces may move to. */
  function StageTarget(v: View, k: Square, stage: GenType): Bitboard
    requires |v.byType| == 7 && |v.byColor| == 2
    requires stage == Evasions ==> v.st.checkers != {}
  {
    match stage
    case Evasions => BetweenBB(k, Lsb(v.st.checkers))
    case Captures => PiecesC(v, Flip(v.side))
    case Quiets => ALL_SQUARES - Pieces(v)
  }

  function KingTargets(v: View, stage: GenType): Bitboard
    requires |v.byType| == 7 && |v.byColor| == 2
  {
    match stage
    case Evasions => ALL_SQUARES - PiecesC(v, v.side)
    case Captures => PiecesC(v, Flip(v.side))
    case Quiets => ALL_SQUARES - Pieces(v)
  }

  predicate KingEntry(v: View, k: Square, attacked: Bitboard, stage: GenType, m: Move)
    requires |v.byType| == 7 && |v.byColor| == 2
  {
    FromEntry(k, AttacksBB(King, k, {}) * (KingTargets(v, stage) - attacked), m)
  }

  /** Everything generate_all appends in one stage, term by term. */
  function StageEntries(v: View, k: Square, attacked: Bitboard, stage: GenType, m: Move): nat
    requires |v.byType| == 7 && |v.byColor| == 2 && |v.st.blockers| == 2
    requires stage == Evasions ==> v.st.checkers != {}
  {
    (if stage == Evasions && MoreThanOne(v.st.checkers) then 0 else
       var target := StageTarget(v, k, stage);
       PawnEntries(v, k, target, stage, m)
       + Bit(PieceEntry(v, k, Knight, target, m)) + Bit(PieceEntry(v, k, Bishop, target, m))
       + Bit(PieceEntry(v, k, Rook, target, m)) + Bit(PieceEntry(v, k, Queen, target, m)))
    + Bit(KingEntry(v, k, attacked, stage, m))
    + (if stage != Quiets then 0 else
         Bit(CastleEntry(v, k, attacked, Right(v.side, KingSide), m))
         + Bit(CastleEntry(v, k, attacked, Right(v.side, QueenSide), m)))
  }

  /** What the generators rely on in the view. */
  ghost predicate Generable(v: View) {
    && Readable(v) && TypesSynced(v.board, v.byType) && ColorsSynced(v.board, v.byColor)
    && IsKing(v.board, v.side, KingSquare(v, v.side))
    && (v.st.threats[0] != {} ==> v.st.threats[0] == AllThreatsBB(v.board, Flip(v.side), KingSquare(v, v.side)))
    && forall right :: right in v.st.castlingRights ==> right in v.castlingRookSquare && right in v.castlingPath
  }

  /** What generate_all appends before the king's moves. */
  function MoverList(v: View, k: Square, stage: GenType): seq<Move>
    requires |v.byType| == 7 && |v.byColor| == 2 && |v.st.blockers| == 2
    requires stage == Evasions ==> v.st.checkers != {}
  {
    if stage == Evasions && MoreThanOne(v.st.checkers) then [] else
      var target := StageTarget(v, k, stage);
      PawnList(v, k, target, stage) + PieceList(v, k, Knight, target) + PieceList(v, k, Bishop, target)
      + PieceList(v, k, Rook, target) + PieceList(v, k, Queen, target)
  }

  function KingList(v: View, k: Square, attacked: Bitboard, stage: GenType): seq<Move>
    requires |v.byType| == 7 && |v.byColor| == 2
  {
    FromList(k, AttacksBB(King, k, {}) * (KingTargets(v, stage) - attacked))
  }

  /** The list of one stage, in the order it is emitted. */
  function StageList(v: View, k: Square, attacked: Bitboard, stage: GenType): seq<Move>
    requires |v.byType| == 7 && |v.byColor| == 2 && |v.st.blockers| == 2
    requires stage == Evasions ==> v.st.checkers != {}
  {
    MoverList(v, k, stage) + KingList(v, k, attacked, stage) + if stage != Quiets then []
      else CastlingList(v, k, attacked)
  }

  lemma MoverListCount(v: View, k: Square, stage: GenType, m: Move)
    requires |v.byType| == 7 && |v.byColor| == 2 && |v.st.blockers| == 2
    requires stage == Evasions ==> v.st.checkers != {}
    ensures Count(MoverList(v, k, stage), m) ==
            if stage == Evasions && MoreThanOne(v.st.checkers) then 0 else
              var target := StageTarget(v, k, stage);
              PawnEntries(v, k, target, stage, m)
              + Bit(PieceEntry(v, k, Knight, target, m)) + Bit(PieceEntry(v, k, Bishop, target, m))
              + Bit(PieceEntry(v, k, Rook, target, m)) + Bit(PieceEntry(v, k, Queen, target, m))
  {
    hide *;
    CountEmpty(m);
    MoverListIs(v, k, stage);
    if !(stage == Evasions && MoreThanOne(v.st.checkers)) {
      var target := StageTarget(v, k, stage);
      PawnListCount(v, k, target, stage, m);
      PieceListCount(v, k, Knight, target, m);
      PieceListCount(v, k, Bishop, target, m);
      PieceListCount(v, k, Rook, target, m);
      PieceListCount(v, k, Queen, target, m);
      CountGrown5(PawnList(v, k, target, stage), PieceList(v, k, Knight, target), PieceList(v, k, Bishop, target),
                  PieceList(v, k, Rook, target), PieceList(v, k, Queen, target), m);
    }
  }

  lemma CountGrown5(a: seq<Move>, b: seq<Move>, c: seq<Move>, d: seq<Move>, e: seq<Move>, m: Move)
    ensures Count(a + b + c + d + e, m) == Count(a, m) + Count(b, m) + Count(c, m) + Count(d, m) + Count(e, m)
  {
    hide *;
    CountGrown(a, b, m);
    CountGrown(a + b, c, m);
    CountGrown(a + b + c, d, m);
    CountGrown(a + b + c + d, e, m);
  }

  lemma MoverListIs(v: View, k: Square, stage: GenType)
    requires |v.byType| == 7 && |v.byColor| == 2 && |v.st.blockers| == 2
    requires stage == Evasions ==> v.st.checkers != {}
    ensures MoverList(v, k, stage) ==
            if stage == Evasions && MoreThanOne(v.st.checkers) then [] else
              var target := StageTarget(v, k, stage);
              PawnList(v, k, target, stage) + PieceList(v, k, Knight, target) + PieceList(v, k, Bishop, target)
              + PieceList(v, k, Rook, target) + PieceList(v, k, Queen, target)
  {
    hide PawnList, PieceList, StageTarget, MoreThanOne;
  }

  lemma StageListCount(v: View, k: Square, attacked: Bitboard, stage: GenType, m: Move)
    requires |v.byType| == 7 && |v.byColor| == 2 && |v.st.blockers| == 2
    requires stage == Evasions ==> v.st.checkers != {}
    ensures Count(StageList(v, k, attacked, stage), m) == StageEntries(v, k, attacked, stage, m)
  {
    hide *;
    var castling := if stage != Quiets then [] else CastlingList(v, k, attacked);
    StageListIs(v, k, attacked, stage, [], [] + MoverList(v, k, stage) + KingList(v, k, attacked, stage) + castling);
    CountEmpty(m);
    MoverListCount(v, k, stage, m);
    KingListCount(v, k, attacked, stage, m);
    CastlingListCount(v, k, attacked, m);
    CountGrown5([], [], MoverList(v, k, stage), KingList(v, k, attacked, stage), castling, m);
    assert [] + [] + MoverList(v, k, stage) == [] + MoverList(v, k, stage);
    assert [] + StageList(v, k, attacked, stage) == StageList(v, k, attacked, stage);
    StageEntriesAre(v, k, attacked, stage, m);
  }

  lemma StageEntriesAre(v: View, k: Square, attacked: Bitboard, stage: GenType, m: Move)
    requires |v.byType| == 7 && |v.byColor| == 2 && |v.st.blockers| == 2
    requires stage == Evasions ==> v.st.checkers != {}
    ensures StageEntries(v, k, attacked, stage, m) ==
            (if stage == Evasions && MoreThanOne(v.st.checkers) then 0 else
               var target := StageTarget(v, k, stage);
               PawnEntries(v, k, target, stage, m)
               + Bit(PieceEntry(v, k, Knight, target, m)) + Bit(PieceEntry(v, k, Bishop, target, m))
               + Bit(PieceEntry(v, k, Rook, target, m)) + Bit(PieceEntry(v, k, Queen, target, m)))
            + Bit(KingEntry(v, k, attacked, stage, m))
            + (if stage != Quiets then 0 else
                 Bit(CastleEntry(v, k, attacked, Right(v.side, KingSide), m))
                 + Bit(CastleEntry(v, k, attacked, Right(v.side, QueenSide), m)))
  {
    hide PawnEntries, PieceEntry, KingEntry, CastleEntry, StageTarget, MoreThanOne;
  }

  lemma KingListCount(v: View, k: Square, attacked: Bitboard, stage: GenType, m: Move)
    requires |v.byType| == 7 && |v.byColor| == 2
    ensures Count(KingList(v, k, attacked, stage), m) == Bit(KingEntry(v, k, attacked, stage, m))
  {
    FromListCount(k, AttacksBB(King, k, {}) * (KingTargets(v, stage) - attacked), m);
    hide Count, FromList, FromEntry, AttacksBB, KingTargets;
  }

  lemma StageListCounts(v: View, k: Square, attacked: Bitboard, stage: GenType, list: seq<Move>)
    requires |v.byType| == 7 && |v.byColor| == 2 && |v.st.blockers| == 2
    requires stage == Evasions ==> v.st.checkers != {}
    ensures forall m ::
            Count(list + StageList(v, k, attacked, stage), m) == Count(list, m) + StageEntries(v, k, attacked, stage, m)
  {
    hide *;
    forall m
      ensures Count(list + StageList(v, k, attacked, stage), m) ==
              Count(list, m) + StageEntries(v, k, attacked, stage, m)
    {
      StageListCount(v, k, attacked, stage, m);
      CountGrown(list, StageList(v, k, attacked, stage), m);
    }
  }

  method GenerateAll(v: View, list: seq<Move>, stage: GenType) returns (r: seq<Move>)
    requires Generable(v) && (stage == Evasions ==> v.st.checkers != {})
    ensures var k := KingSquare(v, v.side);
            var attacked := AllThreatsBB(v.board, Flip(v.side), k);
            && r == list + StageList(v, k, attacked, stage)
            && forall m :: Count(r, m) == Count(list, m) + StageEntries(v, k, attacked, stage, m)
  {
    hide *;
    GenerableReadable(v);
    var ksq := KingSquare(v, v.side);
    r := list;
    MoverListIs(v, ksq, stage);
    if stage != Evasions || !MoreThanOne(v.st.checkers) {
      var target := StageTarget(v, ksq, stage);
      r := GeneratePawnMoves(v, r, target, stage);
      r := GeneratePieceMoves(v, r, Knight, target);
      r := GeneratePieceMoves(v, r, Bishop, target);
      r := GeneratePieceMoves(v, r, Rook, target);
      r := GeneratePieceMoves(v, r, Queen, target);
      Assoc5(list, PawnList(v, ksq, target, stage), PieceList(v, ksq, Knight, target),
             PieceList(v, ksq, Bishop, target),
             PieceList(v, ksq, Rook, target), PieceList(v, ksq, Queen, target));
    } else {
      assert r == list + [];
    }
    var attacked := AllThreats(v);
    KingListIs(v, ksq, attacked, stage);
    ghost var movers := r;
    var b := AttacksBB(King, ksq, {}) * (KingTargets(v, stage) - attacked);
    r := EmitFrom(r, ksq, b);
    ghost var steps := r;
    assert steps + [] == steps;
    if stage == Quiets {
      if v.st.castlingRights != {} {
        r := GenerateCastling(v, r, attacked);
      } else {
        NoRightsNoCastling(v, ksq, attacked);
      }
    }
    StageListIs(v, ksq, attacked, stage, list, r);
    StageListCounts(v, ksq, attacked, stage, list);
  }

  lemma Assoc5(a: seq<Move>, b: seq<Move>, c: seq<Move>, d: seq<Move>, e: seq<Move>, f: seq<Move>)
    ensures a + b + c + d + e + f == a + (b + c + d + e + f)
  {
    hide *;
    Assoc3(a, b, c, d);
    Assoc3(a, b + c + d, e, f);
  }

  lemma KingListIs(v: View, k: Square, attacked: Bitboard, stage: GenType)
    requires |v.byType| == 7 && |v.byColor| == 2
    ensures KingList(v, k, attacked, stage) == FromList(k, AttacksBB(King, k, {}) * (KingTargets(v, stage) - attacked))
  {
  }

  lemma GenerableReadable(v: View)
    requires Generable(v)
    ensures Readable(v) && |v.byType| == 7 && |v.byColor| == 2 && |v.st.blockers| == 2 && |v.st.threats| == 7
    ensures PiecesCP(v, v.side, King) != {}
    ensures TypesSynced(v.board, v.byType) && ColorsSynced(v.board, v.byColor) &&
            IsKing(v.board, v.side, KingSquare(v, v.side))
    ensures v.st.threats[0] != {} ==> v.st.threats[0] == AllThreatsBB(v.board, Flip(v.side), KingSquare(v, v.side))
    ensures forall right :: right in v.st.castlingRights ==> right in v.castlingRookSquare && right in v.castlingPath
  {
    assert v.side == White || v.side == Black;
    hide PiecesCP, TypesSynced, ColorsSynced, IsKing, AllThreatsBB, KingSquare;
  }

  lemma StageListIs(v: View, k: Square, attacked: Bitboard, stage: GenType, list: seq<Move>, r: seq<Move>)
    requires |v.byType| == 7 && |v.byColor| == 2 && |v.st.blockers| == 2
    requires stage == Evasions ==> v.st.checkers != {}
    requires r == list + MoverList(v, k, stage) + KingList(v, k, attacked, stage)
                  + if stage != Quiets then [] else CastlingList(v, k, attacked)
    ensures r == list + StageList(v, k, attacked, stage)
  {
    Assoc3(list, MoverList(v, k, stage), KingList(v, k, attacked, stage), if stage != Quiets then []
        else CastlingList(v, k, attacked));
    hide MoverList, KingList, CastlingList;
  }

  lemma NoRightsNoCastling(v: View, k: Square, attacked: Bitboard)
    requires |v.byType| == 7 && |v.st.blockers| == 2 && v.st.castlingRights == {}
    ensures CastlingList(v, k, attacked) == []
  {
  }
}
