/** The magic tables: subset enumeration by the carry rippler, epoch-stamped trial fills, and the
    lookup they leave behind. */
module Magics {
  import opened Squares
  import opened Types
  import opened Attacks
  import opened WordArithmetic
  import opened Rays

  // ----- subsets of a mask -----

  /** `(subset - mask) & mask`. */
  function NextSubset(mask: Bitboard, sub: Bitboard): Bitboard {
    Minus(sub, mask) * mask
  }

  function CountBelow(mask: Bitboard, n: nat): nat {
    if n == 0 then 0 else CountBelow(mask, n - 1) + if n - 1 in mask then 1 else 0
  }

  /** The bits of sub at the places of the mask, packed together: what pext returns. */
  function Packed(mask: Bitboard, sub: Bitboard, n: nat): nat {
    if n == 0 then 0
    else Packed(mask, sub, n - 1) + if n - 1 in mask && n - 1 in sub then Pow2(CountBelow(mask, n - 1)) else 0
  }

  function Pext(mask: Bitboard, sub: Bitboard): nat {
    Packed(mask, sub, 64)
  }

  function Subsets(mask: Bitboard): nat {
    Pow2(CountBelow(mask, 64))
  }

  lemma {:induction false} PackedBound(mask: Bitboard, sub: Bitboard, n: nat)
    ensures Packed(mask, sub, n) < Pow2(CountBelow(mask, n))
  {
    if n > 0 {
      PackedBound(mask, sub, n - 1);
    }
  }

  lemma {:induction false} PackedEqual(mask: Bitboard, a: Bitboard, b: Bitboard, n: nat)
    requires Packed(mask, a, n) == Packed(mask, b, n)
    ensures forall i :: 0 <= i < n && i in mask ==> (i in a <==> i in b)
  {
    if n > 0 {
      PackedBound(mask, a, n - 1);
      PackedBound(mask, b, n - 1);
      PackedEqual(mask, a, b, n - 1);
    }
  }

  /** Packing tells subsets apart, so pext never collides. */
  lemma PextInjective(mask: Bitboard, a: Bitboard, b: Bitboard)
    requires a <= mask && b <= mask && Pext(mask, a) == Pext(mask, b)
    ensures a == b
  {
    PackedEqual(mask, a, b, 64);
    assert forall i: Square :: i in a ==> i in mask && i in b;
    assert forall i: Square :: i in b ==> i in mask && i in a;
  }

  /** Some place of the mask below i is not in sub. */
  predicate Missing(mask: Bitboard, sub: Bitboard, i: nat) {
    i > 0 && (Missing(mask, sub, i - 1) || (i - 1 in mask && i - 1 !in sub))
  }

  lemma {:induction false} RippleBorrow(mask: Bitboard, sub: Bitboard, i: nat)
    requires sub <= mask
    ensures Borrow(sub, mask, i) <==> Missing(mask, sub, i)
  {
    if i > 0 {
      RippleBorrow(mask, sub, i - 1);
    }
  }

  lemma RippleBit(mask: Bitboard, sub: Bitboard, i: Square)
    requires sub <= mask
    ensures i in NextSubset(mask, sub) <==> i in mask && ((i in sub) == Missing(mask, sub, i))
  {
    RippleBorrow(mask, sub, i);
    hide Borrow, Missing;
  }

  /** The rippler counts: one more, or back to nothing after the full mask. */
  lemma {:induction false} RippleCounts(mask: Bitboard, sub: Bitboard, n: nat)
    requires sub <= mask && n <= 64
    ensures Packed(mask, NextSubset(mask, sub), n) == if Missing(mask, sub, n) then Packed(mask, sub, n) + 1 else 0
    ensures !Missing(mask, sub, n) ==> Packed(mask, sub, n) == Pow2(CountBelow(mask, n)) - 1
  {
    if n > 0 {
      RippleCounts(mask, sub, n - 1);
      RippleBit(mask, sub, n - 1);
      hide NextSubset;
    }
  }

  lemma {:induction false} PackedNothing(mask: Bitboard, n: nat)
    ensures Packed(mask, {}, n) == 0
  {
    if n > 0 {
      PackedNothing(mask, n - 1);
    }
  }

  /** Each subset once, in the order of its packed number. */
  ghost predicate Listed(mask: Bitboard, list: seq<Bitboard>) {
    forall i :: 0 <= i < |list| ==> list[i] <= mask && Pext(mask, list[i]) == i
  }

  /** The do-while loop of init_magics: every subset of the mask, each exactly once. */
  method EnumerateSubsets(mask: Bitboard) returns (list: seq<Bitboard>)
    ensures |list| == Subsets(mask) && Listed(mask, list)
  {
    list := [];
    var subset: Bitboard := {};
    PackedNothing(mask, 64);
    hide Packed, CountBelow, Pow2, Missing, NextSubset;
    while true
      invariant subset <= mask && Pext(mask, subset) == |list| && Listed(mask, list)
      decreases Subsets(mask) - |list|
    {
      PackedBound(mask, subset, 64);
      RippleCounts(mask, subset, 64);
      RippleWithin(mask, subset);
      list := list + [subset];
      subset := NextSubset(mask, subset);
      if subset == {} {
        break;
      }
      if Pext(mask, subset) == 0 {
        PextInjective(mask, subset, {});
      }
    }
  }

  lemma RippleWithin(mask: Bitboard, sub: Bitboard)
    ensures NextSubset(mask, sub) <= mask
  {
    hide Minus;
  }

  // ----- the mask -----

  function Edges(s: Square): Bitboard {
    ((RankBB(0) + RankBB(7)) - RankBB(Rank(s))) + ((FileBB(0) + FileBB(7)) - FileBB(File(s)))
  }

  function Mask(kind: PieceType, s: Square): Bitboard
    requires kind == Rook || kind == Bishop
  {
    AttacksBB(kind, s, {}) - Edges(s)
  }

  /** Whatever lies between s and a square it reaches is no edge square. */
  lemma BetweenInMask(kind: PieceType, s: Square, t: Square, x: Square)
    requires kind == Rook || kind == Bishop
    requires (if kind == Rook then RookLine(s, t) else BishopLine(s, t)) && Inside(s, x, t)
    ensures x in Mask(kind, s)
  {
    assert x in AttacksBB(kind, s, {}) <==> if kind == Rook then RookLine(s, x) else BishopLine(s, x);
    assert x in Edges(s) <==>
           (((Rank(x) == 0 || Rank(x) == 7) && Rank(x) != Rank(s)) ||
             ((File(x) == 0 || File(x) == 7) && File(x) != File(s)));
    hide AttacksBB, Edges;
    Coords(s); Coords(t); Coords(x);
    hide File, Rank;
  }

  /** A blocker on the far edge cannot change what is attacked. */
  lemma MaskEnough(kind: PieceType, s: Square, occ: Bitboard)
    requires kind == Rook || kind == Bishop
    ensures AttacksBB(kind, s, occ * Mask(kind, s)) == AttacksBB(kind, s, occ)
  {
    forall t: Square
      ensures (if kind == Rook then RookLine(s, t) else BishopLine(s, t)) ==>
              (Clear(s, t, occ * Mask(kind, s)) <==> Clear(s, t, occ))
    {
      if if kind == Rook then RookLine(s, t) else BishopLine(s, t) {
        forall x: Square | Inside(s, x, t)
          ensures x in Mask(kind, s)
        {
          BetweenInMask(kind, s, t, x);
        }
        hide Inside, Mask;
      }
    }
    hide Clear, RookLine, BishopLine, Mask;
  }

  // ----- the index -----

  datatype Magic = Magic(mask: Bitboard, magic: nat, shift: nat, base: nat)

  /** magic_index: pext where the processor has it, else multiply and shift, in 64 bits. */
  function MagicIndex(pext: bool, m: Magic, occ: Bitboard): nat {
    if pext then Pext(m.mask, occ * m.mask)
    else Value(occ * m.mask, 64) * m.magic % Pow2(64) / Pow2(m.shift)
  }

  lemma {:induction false} Pow2Split(a: nat, b: nat)
    ensures Pow2(a + b) == Pow2(a) * Pow2(b) && Pow2(a) >= 1
  {
    if a > 0 {
      Pow2Split(a - 1, b);
    }
  }

  lemma {:induction false} CountBound(mask: Bitboard, n: nat)
    ensures CountBelow(mask, n) <= n
  {
    if n > 0 {
      CountBound(mask, n - 1);
    }
  }

  /** The index stays inside the square's block and sees nothing outside the mask. */
  lemma IndexInBlock(pext: bool, m: Magic, occ: Bitboard)
    requires m.shift == 64 - CountBelow(m.mask, 64)
    ensures MagicIndex(pext, m, occ) < Subsets(m.mask)
    ensures MagicIndex(pext, m, occ * m.mask) == MagicIndex(pext, m, occ)
  {
    assert occ * m.mask * m.mask == occ * m.mask;
    PackedBound(m.mask, occ * m.mask, 64);
    CountBound(m.mask, 64);
    hide Packed, CountBelow, Value, Pow2;
    MulShift(Value(occ * m.mask, 64) * m.magic, CountBelow(m.mask, 64));
  }

  lemma MulShift(product: nat, c: nat)
    requires c <= 64
    ensures product % Pow2(64) / Pow2(64 - c) < Pow2(c)
  {
    Pow2Split(c, 64 - c);
    hide Pow2;
    var x := product % Pow2(64);
    DivBelow(x, Pow2(c), Pow2(64 - c));
  }

  lemma DivBelow(x: nat, a: nat, b: nat)
    requires b >= 1 && x < a * b
    ensures x / b < a
  {
    var q := x / b;
    assert q * b <= x;
    Monotone(q, a, b);
  }

  lemma Monotone(p: nat, q: nat, b: nat)
    ensures p >= q ==> p * b >= q * b
  {
    if p >= q {
      assert (p - q) * b >= 0;
      assert p * b == (p - q) * b + q * b;
    }
  }

  // ----- how large a block is -----

  lemma {:induction false} CountIsSize(mask: Bitboard, n: nat)
    requires n <= 64
    ensures CountBelow(mask, n) == |set i: Square | i in mask && i < n|
  {
    var low := set i: Square | i in mask && i < n;
    if n == 0 {
      assert low == {};
    } else {
      CountIsSize(mask, n - 1);
      var rest := set i: Square | i in mask && i < n - 1;
      if n - 1 in mask {
        assert low == rest + {n - 1};
      } else {
        assert low == rest;
      }
    }
  }

  lemma OneMore(s: Bitboard, x: Square)
    ensures |s + {x}| <= |s| + 1
  {
    if x in s {
      assert s + {x} == s;
    }
  }

  lemma SixAtMost(a: Square, b: Square, c: Square, d: Square, e: Square, f: Square)
    ensures |{a, b, c, d, e, f}| <= 6
  {
    ThreeAtMost(a, b, c);
    ThreeAtMost(d, e, f);
    assert {a, b, c, d, e, f} == {a, b, c} + {d, e, f};
    UnionAtMost({a, b, c}, {d, e, f});
  }

  lemma ThreeAtMost(a: Square, b: Square, c: Square)
    ensures |{a, b, c}| <= 3
  {
    OneMore({}, a);
    OneMore({a}, b);
    OneMore({a, b}, c);
    assert {} + {a} == {a} && {a} + {b} == {a, b} && {a, b} + {c} == {a, b, c};
  }

  lemma UnionAtMost(s: set<Square>, t: set<Square>)
    ensures |s + t| <= |s| + |t|
  {
    assert s + t == s + (t - s);
    assert |t - s| <= |t| by { assert t == (t - s) + (t * s); }
  }

  /** The square at file f and rank r, or any square when that is off the board. */
  function Near(f: int, r: int): Square
    requires 0 <= f < 8
  {
    if 0 <= r < 8 then MakeSquare(f, r) else 0
  }

  /** The six inner squares of a file. */
  function FileArm(f: int): Bitboard
    requires 0 <= f < 8
  {
    {Near(f, 1), Near(f, 2), Near(f, 3), Near(f, 4), Near(f, 5), Near(f, 6)}
  }

  /** The squares on the inner files of a rank, slope 0, or of a diagonal. */
  function Arm(r0: int, slope: int): Bitboard {
    {Near(1, r0 + Times(slope, 1)), Near(2, r0 + Times(slope, 2)), Near(3, r0 + Times(slope, 3)),
     Near(4, r0 + Times(slope, 4)),
     Near(5, r0 + Times(slope, 5)), Near(6, r0 + Times(slope, 6))}
  }

  lemma ArmSizes(f: int, r0: int, slope: int)
    requires 0 <= f < 8
    ensures |FileArm(f)| <= 6 && |Arm(r0, slope)| <= 6
  {
    hide Near;
    SixAtMost(Near(f, 1), Near(f, 2), Near(f, 3), Near(f, 4), Near(f, 5), Near(f, 6));
    SixAtMost(Near(1, r0 + Times(slope, 1)), Near(2, r0 + Times(slope, 2)), Near(3, r0 + Times(slope, 3)),
              Near(4, r0 + Times(slope, 4)),
              Near(5, r0 + Times(slope, 5)), Near(6, r0 + Times(slope, 6)));
  }

  lemma ArmHas(f: int, r0: int, slope: int, k: int)
    requires 0 <= f < 8 && 1 <= k <= 6
    ensures Near(f, k) in FileArm(f) && Near(k, r0 + Times(slope, k)) in Arm(r0, slope)
  {
    hide Near;
  }

  function FirstArm(kind: PieceType, s: Square): Bitboard {
    if kind == Rook then FileArm(File(s)) else Arm(Rank(s) - File(s), 1)
  }

  function SecondArm(kind: PieceType, s: Square): Bitboard {
    if kind == Rook then Arm(Rank(s), 0) else Arm(Rank(s) + File(s), -1)
  }

  lemma MaskInArms(kind: PieceType, s: Square, x: Square)
    requires (kind == Rook || kind == Bishop) && x in Mask(kind, s)
    ensures x in FirstArm(kind, s) || x in SecondArm(kind, s)
  {
    hide *;
    MaskMember(kind, s, x);
    var f, r, k, q := File(s), Rank(s), File(x), Rank(x);
    ArmsAre(kind, s);
    TimesIs(k);
    if kind == Rook && k == f && 1 <= q <= 6 {
      ArmHas(f, 0, 0, q);
    } else if kind == Rook {
      ArmHas(f, r, 0, k);
    } else if q == r - f + k {
      ArmHas(f, r - f, 1, k);
    } else {
      ArmHas(f, r + f, -1, k);
    }
  }

  lemma TimesIs(k: int)
    ensures Times(0, k) == 0 && Times(1, k) == k && Times(-1, k) == -k
  {
  }

  lemma ArmsAre(kind: PieceType, s: Square)
    ensures FirstArm(kind, s) == if kind == Rook then FileArm(File(s)) else Arm(Rank(s) - File(s), 1)
    ensures SecondArm(kind, s) == if kind == Rook then Arm(Rank(s), 0) else Arm(Rank(s) + File(s), -1)
  {
  }

  /** A mask square is on a line of s, and on an inner file or rank wherever it leaves s's own. */
  lemma MaskMember(kind: PieceType, s: Square, x: Square)
    requires (kind == Rook || kind == Bishop) && x in Mask(kind, s)
    ensures kind == Rook ==> (File(x) == File(s) && 1 <= Rank(x) <= 6) || (Rank(x) == Rank(s) && 1 <= File(x) <= 6)
    ensures kind == Bishop ==>
            1 <= File(x) <= 6 && (Rank(x) == Rank(s) - File(s) + File(x) || Rank(x) == Rank(s) + File(s) - File(x))
    ensures Near(File(x), Rank(x)) == x
  {
    assert if kind == Rook then RookLine(s, x) else BishopLine(s, x);
    assert !(((Rank(x) == 0 || Rank(x) == 7) && Rank(x) != Rank(s)) ||
             ((File(x) == 0 || File(x) == 7) && File(x) != File(s)));
    Coords(s); Coords(x);
    hide Mask, File, Rank;
  }

  /** No mask has more than twelve squares, so 4096 slots always suffice. */
  lemma BlockFits(kind: PieceType, s: Square)
    requires kind == Rook || kind == Bishop
    ensures CountBelow(Mask(kind, s), 64) <= 12 && Subsets(Mask(kind, s)) <= 4096
  {
    hide *;
    var a, b := FirstArm(kind, s), SecondArm(kind, s);
    var mask := Mask(kind, s);
    ArmsAre(kind, s);
    ArmSizes(File(s), Rank(s), 0);
    ArmSizes(File(s), Rank(s) - File(s), 1);
    ArmSizes(File(s), Rank(s) + File(s), -1);
    forall x: Square | x in mask
      ensures x in a + b
    {
      MaskInArms(kind, s, x);
    }
    SizeWithin(mask, a, b);
    CountIsSize(mask, 64);
    assert mask == set i: Square | i in mask && i < 64;
    Pow2Rises(CountBelow(mask, 64), 12);
    Twelve();
    SubsetsIs(mask);
  }

  lemma SubsetsIs(mask: Bitboard)
    ensures Subsets(mask) == Pow2(CountBelow(mask, 64))
  {
  }

  lemma SizeWithin(m: Bitboard, a: Bitboard, b: Bitboard)
    requires m <= a + b
    ensures |m| <= |a| + |b|
  {
    var rest := a + b - m;
    assert a + b == m + rest && m !! rest;
    var only := b - a;
    assert a + b == a + only && a !! only;
    assert b == only + (b * a) && only !! (b * a);
  }

  lemma {:induction false} Pow2Rises(a: nat, b: nat)
    requires a <= b
    ensures Pow2(a) <= Pow2(b)
  {
    Pow2Split(a, b - a);
    assert Pow2(a + (b - a)) == Pow2(b);
    Monotone(Pow2(b - a), 1, Pow2(a));
  }

  lemma Twelve()
    ensures Pow2(12) == 4096
  {
    assert Pow2(3) == 8;
    assert Pow2(6) == 64 by { Pow2Split(3, 3); }
    Pow2Split(6, 6);
  }

  // ----- the trial fills -----

  /** What a finished block answers. */
  ghost predicate BlockRight(kind: PieceType, s: Square, pext: bool, m: Magic, block: seq<Bitboard>)
    requires kind == Rook || kind == Bishop
  {
    && m.mask == Mask(kind, s) && m.shift == 64 - CountBelow(m.mask, 64) && |block| == Subsets(m.mask)
    && forall occ :: MagicIndex(pext, m, occ) < |block| && block[MagicIndex(pext, m, occ)] == AttacksBB(kind, s, occ)
  }

  /** One candidate multiplier: fill the block, slot by slot, unless two subsets with different
      attacks collide. A slot whose stamp is older than this attempt is free, whatever it holds. */
  method TryMagic(kind: PieceType, s: Square, pext: bool, m: Magic, list: seq<Bitboard>, reference: seq<Bitboard>,
                  table: array<Bitboard>, epoch: array<int>, cnt: int)
    returns (ok: bool)
    requires (kind == Rook || kind == Bishop) && m.mask == Mask(kind, s) && m.shift == 64 - CountBelow(m.mask, 64)
    requires |list| == |reference| == Subsets(m.mask) && Listed(m.mask, list)
    requires forall i :: 0 <= i < |list| ==> reference[i] == AttacksBB(kind, s, list[i])
    requires m.base + Subsets(m.mask) <= table.Length && epoch.Length == 4096 && Subsets(m.mask) <= 4096
    requires forall k :: 0 <= k < 4096 ==> epoch[k] < cnt
    modifies table, epoch
    ensures forall k :: 0 <= k < 4096 ==> epoch[k] <= cnt
    ensures forall k :: 0 <= k < table.Length && !(m.base <= k < m.base + Subsets(m.mask)) ==> table[k] == old(table[k])
    ensures ok ==> BlockRight(kind, s, pext, m, table[m.base..m.base + Subsets(m.mask)])
  {
    hide *;
    var size := |list|;
    forall j | 0 <= j < size
      ensures MagicIndex(pext, m, list[j]) < size
    {
      IndexInBlock(pext, m, list[j]);
    }
    var i := 0;
    while i < size
      invariant 0 <= i <= size
      invariant forall k :: 0 <= k < 4096 ==> epoch[k] <= cnt
      invariant forall k :: 0 <= k < table.Length && !(m.base <= k < m.base + size) ==> table[k] == old(table[k])
      invariant forall j :: 0 <= j < i ==> epoch[MagicIndex(pext, m, list[j])] == cnt
      invariant forall j :: 0 <= j < i ==> table[m.base + MagicIndex(pext, m, list[j])] == reference[j]
    {
      var idx := MagicIndex(pext, m, list[i]);
      if epoch[idx] < cnt {
        epoch[idx] := cnt;
        table[m.base + idx] := reference[i];
      } else if table[m.base + idx] != reference[i] {
        return false;
      }
      i := i + 1;
    }
    FilledRight(kind, s, pext, m, list, reference, table[m.base..m.base + size]);
    return true;
  }

  /** Every occupancy is answered by the slot of its masked subset. */
  lemma FilledRight(kind: PieceType, s: Square, pext: bool, m: Magic, list: seq<Bitboard>, reference: seq<Bitboard>,
                    block: seq<Bitboard>)
    requires (kind == Rook || kind == Bishop) && m.mask == Mask(kind, s) && m.shift == 64 - CountBelow(m.mask, 64)
    requires |list| == |reference| == |block| == Subsets(m.mask) && Listed(m.mask, list)
    requires forall i :: 0 <= i < |list| ==> reference[i] == AttacksBB(kind, s, list[i])
    requires forall j :: 0 <= j < |list| ==>
             MagicIndex(pext, m, list[j]) < |block| && block[MagicIndex(pext, m, list[j])] == reference[j]
    ensures BlockRight(kind, s, pext, m, block)
  {
    forall occ
      ensures MagicIndex(pext, m, occ) < |block| && block[MagicIndex(pext, m, occ)] == AttacksBB(kind, s, occ)
    {
      var sub := occ * m.mask;
      PackedBound(m.mask, sub, 64);
      var j := Pext(m.mask, sub);
      assert Pext(m.mask, list[j]) == j && list[j] <= m.mask;
      PextInjective(m.mask, sub, list[j]);
      IndexInBlock(pext, m, occ);
      MaskEnough(kind, s, occ);
      hide Pext, MagicIndex, AttacksBB, Mask, CountBelow, Subsets;
    }
    hide MagicIndex, AttacksBB, Mask, CountBelow, Subsets, Listed;
  }

  function PopCount(n: nat): nat {
    if n == 0 then 0 else PopCount(n / 2) + n % 2
  }

  /** The candidate test: the top byte of magic * mask carries at least six bits. */
  predicate Promising(magic: nat, mask: Bitboard) {
    PopCount(magic * Value(mask, 64) % Pow2(64) / Pow2(56)) >= 6
  }

  /** Where the blocks of the first n squares end. */
  function BlocksEnd(kind: PieceType, n: nat): nat
    requires (kind == Rook || kind == Bishop) && n <= 64
  {
    if n == 0 then 0 else BlocksEnd(kind, n - 1) + Subsets(Mask(kind, n - 1))
  }

  lemma {:induction false} BlocksRise(kind: PieceType, a: nat, b: nat)
    requires (kind == Rook || kind == Bishop) && a <= b <= 64
    ensures BlocksEnd(kind, a) <= BlocksEnd(kind, b)
  {
    if a < b {
      BlocksRise(kind, a, b - 1);
    }
  }

  /** One square: its mask, its subsets with their ray casts, and candidates until one fits. The
      draws stand for the generator's output; they may run out. */
  method SolveSquare(kind: PieceType, s: Square, pext: bool, draws: seq<nat>, base: nat, table: array<Bitboard>,
                     epoch: array<int>, cnt0: int)
    returns (found: bool, m: Magic, cnt: int)
    requires (kind == Rook || kind == Bishop) && base + Subsets(Mask(kind, s)) <= table.Length
    requires epoch.Length == 4096 && forall k :: 0 <= k < 4096 ==> epoch[k] <= cnt0
    modifies table, epoch
    ensures forall k :: 0 <= k < 4096 ==> epoch[k] <= cnt
    ensures forall k :: 0 <= k < table.Length && !(base <= k < base + Subsets(Mask(kind, s))) ==>
            table[k] == old(table[k])
    ensures found ==> m.base == base && BlockRight(kind, s, pext, m, table[base..base + Subsets(Mask(kind, s))])
  {
    hide *;
    cnt := cnt0;
    found := false;
    BlockFits(kind, s);
    CountBound(Mask(kind, s), 64);
    var reach := SlidingAttack(kind, s, {});
    MaskIs(kind, s);
    var mask := reach - Edges(s);
    m := Magic(mask, 0, 64 - CountBelow(mask, 64), base);
    var list := EnumerateSubsets(mask);
    var reference: seq<Bitboard> := [];
    while |reference| < |list|
      invariant |reference| <= |list|
      invariant forall i :: 0 <= i < |reference| ==> reference[i] == AttacksBB(kind, s, list[i])
      modifies {}
    {
      var attacks := SlidingAttack(kind, s, list[|reference|]);
      reference := reference + [attacks];
    }
    var t := 0;
    while t < |draws| && !found
      invariant m.mask == mask == Mask(kind, s) && m.shift == 64 - CountBelow(mask, 64) && m.base == base
      invariant forall k :: 0 <= k < 4096 ==> epoch[k] <= cnt
      invariant forall k :: 0 <= k < table.Length && !(base <= k < base + Subsets(mask)) ==> table[k] == old(table[k])
      invariant found ==> BlockRight(kind, s, pext, m, table[base..base + Subsets(mask)])
      decreases |draws| - t
    {
      if Promising(draws[t], mask) {
        m := m.(magic := draws[t]);
        cnt := cnt + 1;
        found := TryMagic(kind, s, pext, m, list, reference, table, epoch, cnt);
      }
      t := t + 1;
    }
  }

  lemma MaskIs(kind: PieceType, s: Square)
    requires kind == Rook || kind == Bishop
    ensures Mask(kind, s) == AttacksBB(kind, s, {}) - Edges(s)
  {
  }

  /** init_magics: if the search ends, every lookup is the ray cast, whatever the occupancy. */
  method InitMagics(kind: PieceType, pext: bool, draws: seq<seq<nat>>, table: array<Bitboard>)
    returns (found: bool, magics: seq<Magic>)
    requires (kind == Rook || kind == Bishop) && |draws| == 64 && BlocksEnd(kind, 64) <= table.Length
    modifies table
    ensures found ==> |magics| == 64 && forall s: Square, occ ::
              && magics[s].base + MagicIndex(pext, magics[s], occ) < table.Length
              && table[magics[s].base + MagicIndex(pext, magics[s], occ)] == AttacksBB(kind, s, occ)
  {
    hide *;
    var epoch := new int[4096](_ => 0);
    var cnt := 0;
    magics := [];
    var base := 0;
    BlocksEndIs(kind);
    while |magics| < 64
      invariant |magics| <= 64 && base == BlocksEnd(kind, |magics|)
      invariant forall k :: 0 <= k < 4096 ==> epoch[k] <= cnt
      invariant forall a: Square :: a < |magics| ==>
                magics[a].base == BlocksEnd(kind, a) && SolvedAt(kind, a, pext, magics[a], table[..])
    {
      var s: Square := |magics|;
      BlocksRise(kind, s + 1, 64);
      ghost var before := table[..];
      var m;
      found, m, cnt := SolveSquare(kind, s, pext, draws[s], base, table, epoch, cnt);
      if !found {
        return;
      }
      SolvedNow(kind, s, pext, m, table[..]);
      forall a: Square | a < s
        ensures SolvedAt(kind, a, pext, magics[a], table[..])
      {
        BlocksRise(kind, a + 1, s);
        SolvedStill(kind, a, pext, magics[a], before, table[..]);
      }
      magics := magics + [m];
      base := base + Subsets(Mask(kind, s));
    }
    found := true;
    forall s: Square, occ
      ensures magics[s].base + MagicIndex(pext, magics[s], occ) < table.Length
              && table[magics[s].base + MagicIndex(pext, magics[s], occ)] == AttacksBB(kind, s, occ)
    {
      SolvedLookup(kind, s, pext, magics[s], table[..], occ);
    }
  }

  lemma BlocksEndIs(kind: PieceType)
    requires kind == Rook || kind == Bishop
    ensures BlocksEnd(kind, 0) == 0
    ensures forall s: Square :: BlocksEnd(kind, s + 1) == BlocksEnd(kind, s) + Subsets(Mask(kind, s))
  {
    hide Subsets, Mask;
  }

  /** The block of a square stands in the table. */
  ghost predicate SolvedAt(kind: PieceType, s: Square, pext: bool, m: Magic, table: seq<Bitboard>)
    requires kind == Rook || kind == Bishop
  {
    && m.base + Subsets(Mask(kind, s)) <= |table|
    && BlockRight(kind, s, pext, m, table[m.base..m.base + Subsets(Mask(kind, s))])
  }

  lemma SolvedNow(kind: PieceType, s: Square, pext: bool, m: Magic, table: seq<Bitboard>)
    requires (kind == Rook || kind == Bishop) && m.base + Subsets(Mask(kind, s)) <= |table|
    requires BlockRight(kind, s, pext, m, table[m.base..m.base + Subsets(Mask(kind, s))])
    ensures SolvedAt(kind, s, pext, m, table)
  {
    hide BlockRight, Subsets, Mask;
  }

  /** Later squares write past it. */
  lemma SolvedStill(kind: PieceType, s: Square, pext: bool, m: Magic, before: seq<Bitboard>, after: seq<Bitboard>)
    requires (kind == Rook || kind == Bishop) && |before| == |after| && SolvedAt(kind, s, pext, m, before)
    requires forall k :: m.base <= k < m.base + Subsets(Mask(kind, s)) && k < |before| ==> after[k] == before[k]
    ensures SolvedAt(kind, s, pext, m, after)
  {
    var end := m.base + Subsets(Mask(kind, s));
    assert after[m.base..end] == before[m.base..end];
    hide BlockRight, Subsets, Mask;
  }

  lemma SolvedLookup(kind: PieceType, s: Square, pext: bool, m: Magic, table: seq<Bitboard>, occ: Bitboard)
    requires (kind == Rook || kind == Bishop) && SolvedAt(kind, s, pext, m, table)
    ensures m.base + MagicIndex(pext, m, occ) < |table| &&
            table[m.base + MagicIndex(pext, m, occ)] == AttacksBB(kind, s, occ)
  {
    var block := table[m.base..m.base + Subsets(Mask(kind, s))];
    assert block[MagicIndex(pext, m, occ)] == AttacksBB(kind, s, occ);
    hide MagicIndex, AttacksBB, Subsets, Mask;
  }
}
