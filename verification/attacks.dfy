/** The attack tables as sets: what each lookup of attacks.c and bitboard.h stands for. */
module Attacks {
  import opened Squares
  import opened Types
  import opened Board
  import opened Rules

  const ALL_SQUARES: Bitboard := set s: Square | 0 <= File(s)

  /** attacks_bb: the squares a non-pawn of this kind reaches from s. */
  function AttacksBB(kind: PieceType, s: Square, occ: Bitboard): Bitboard
    requires kind != Pawn
  {
    set t: Square | Hits(Piece(White, kind), s, t, occ)
  }

  function PawnAttacksBB(c: Color, s: Square): Bitboard {
    set t: Square | PawnStep(c, s, t)
  }

  datatype DualAttacks = DualAttacks(bishop: Bitboard, rook: Bitboard)

  function BothAttacksBB(s: Square, occ: Bitboard): DualAttacks {
    DualAttacks(AttacksBB(Bishop, s, occ), AttacksBB(Rook, s, occ))
  }

  /** Exclusive of a, inclusive of b. */
  function BetweenBB(a: Square, b: Square): Bitboard {
    set x: Square | Span(a, b, x)
  }

  function LineBB(a: Square, b: Square): Bitboard {
    set x: Square | OnLine(a, b, x)
  }

  function DiagBB(s: Square): Bitboard {
    set x: Square | File(x) - Rank(x) == File(s) - Rank(s)
  }

  function AntiDiagBB(s: Square): Bitboard {
    set x: Square | File(x) + Rank(x) == File(s) + Rank(s)
  }

  function FileBB(f: int): Bitboard {
    set x: Square | File(x) == f
  }

  function RankBB(r: int): Bitboard {
    set x: Square | Rank(x) == r
  }

  /** shift_bb: every member moved by d, those that would wrap round the board dropped. */
  function ShiftBB(d: int, b: Bitboard): Bitboard
    requires d in {8, -8, 9, 7, -7, -9}
  {
    set t: Square | ShiftedFrom(d, b, t)
  }

  predicate ShiftedFrom(d: int, b: Bitboard, t: Square) {
    0 <= t - d < 64 && t - d in b && Abs(File(t) - File(t - d)) <= 1
  }

  function SetOfPawnAttacks(c: Color, b: Bitboard): Bitboard {
    if c == White then ShiftBB(7, b) + ShiftBB(9, b) else ShiftBB(-9, b) + ShiftBB(-7, b)
  }

  /** The exclusive or of two bitboards. */
  function Xor(a: Bitboard, b: Bitboard): Bitboard {
    (a - b) + (b - a)
  }

  /** The lowest square of a nonempty bitboard. */
  function Lsb(b: Bitboard): (s: Square)
    requires b != {}
    ensures s in b
    ensures forall t :: t in b ==> s <= t
  {
    LsbFrom(b, 0)
  }

  function LsbFrom(b: Bitboard, i: Square): (s: Square)
    requires exists t :: t in b
    requires forall t :: t in b ==> i <= t
    ensures s in b
    ensures forall t :: t in b ==> s <= t
    decreases 64 - i
  {
    if i in b then i else
      assert forall t :: t in b ==> i + 1 <= t && t < 64;
      LsbFrom(b, i + 1)
  }

  predicate MoreThanOne(b: Bitboard) {
    |b| > 1
  }

  lemma MoreThanOneMembers(b: Bitboard)
    ensures MoreThanOne(b) <==> exists x, y :: x in b && y in b && x != y
  {
    if b != {} {
      var x := Lsb(b);
      var rest := b - {x};
      if rest != {} {
        var y := Lsb(rest);
        assert x in b && y in b && x != y;
        assert |rest| > 0;
      } else {
        assert b == {x};
      }
    }
  }
}
