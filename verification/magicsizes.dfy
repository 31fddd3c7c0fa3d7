/** The sizes of the two magic tables: every mask counted, every block summed. */
module MagicSizes {
  import opened Squares
  import opened Types
  import opened Attacks
  import opened WordArithmetic
  import opened Magics

  function Inner(i: int): nat {
    if 1 <= i <= 6 then 1 else 0
  }

  /** How many mask squares of the piece on (f0, r0) lie on rank r. */
  function MaskRow(kind: PieceType, f0: int, r0: int, r: int): nat {
    if kind == Rook then if r == r0 then 6 - Inner(f0) else Inner(r)
    else if r == r0 || Inner(r) == 0 then 0
    else Inner(f0 - (r - r0)) + Inner(f0 + (r - r0))
  }

  function MaskBits(kind: PieceType, f0: int, r0: int): nat {
    MaskRow(kind, f0, r0, 0) + MaskRow(kind, f0, r0, 1) + MaskRow(kind, f0, r0, 2) + MaskRow(kind, f0, r0, 3)
    + MaskRow(kind, f0, r0, 4) + MaskRow(kind, f0, r0, 5) + MaskRow(kind, f0, r0, 6) + MaskRow(kind, f0, r0, 7)
  }

  predicate MaskCell(kind: PieceType, f0: int, r0: int, g: int, r: int) {
    && (if kind == Rook then (g == f0) != (r == r0) else g != f0 && (g - r == f0 - r0 || g + r == f0 + r0))
    && !((r == 0 || r == 7) && r != r0) && !((g == 0 || g == 7) && g != f0)
  }

  lemma InMask(kind: PieceType, f0: int, r0: int, g: int, r: int)
    requires (kind == Rook || kind == Bishop) && 0 <= f0 < 8 && 0 <= r0 < 8 && 0 <= g < 8 && 0 <= r < 8
    ensures 8 * r + g in Mask(kind, 8 * r0 + f0) <==> MaskCell(kind, f0, r0, g, r)
  {
    var s: Square := 8 * r0 + f0;
    var x: Square := 8 * r + g;
    assert File(s) == f0 && Rank(s) == r0 && File(x) == g && Rank(x) == r;
    assert Clear(s, x, {});
    hide File, Rank, Inside, Clear;
  }

  lemma OneBelow(m: Bitboard, n: nat)
    ensures CountBelow(m, n + 1) == CountBelow(m, n) + if n in m then 1 else 0
  {
  }

  lemma EightBelow(m: Bitboard, n: nat)
    ensures CountBelow(m, n + 8) == CountBelow(m, n) + (if n in m then 1 else 0) + (if n + 1 in m then 1 else 0)
              + (if n + 2 in m then 1 else 0) + (if n + 3 in m then 1 else 0) + (if n + 4 in m then 1 else 0)
              + (if n + 5 in m then 1 else 0) + (if n + 6 in m then 1 else 0) + (if n + 7 in m then 1 else 0)
  {
    hide CountBelow;
    OneBelow(m, n); OneBelow(m, n + 1); OneBelow(m, n + 2); OneBelow(m, n + 3);
    OneBelow(m, n + 4); OneBelow(m, n + 5); OneBelow(m, n + 6); OneBelow(m, n + 7);
  }

  lemma CountRow(kind: PieceType, f0: int, r0: int, r: int)
    requires (kind == Rook || kind == Bishop) && 0 <= f0 < 8 && 0 <= r0 < 8 && 0 <= r < 8
    ensures var m := Mask(kind, 8 * r0 + f0);
            CountBelow(m, 8 * r + 8) == CountBelow(m, 8 * r) + MaskRow(kind, f0, r0, r)
  {
    hide Mask, CountBelow;
    EightBelow(Mask(kind, 8 * r0 + f0), 8 * r);
    InMask(kind, f0, r0, 0, r); InMask(kind, f0, r0, 1, r); InMask(kind, f0, r0, 2, r); InMask(kind, f0, r0, 3, r);
    InMask(kind, f0, r0, 4, r); InMask(kind, f0, r0, 5, r); InMask(kind, f0, r0, 6, r); InMask(kind, f0, r0, 7, r);
  }

  lemma NoneBelow(m: Bitboard)
    ensures CountBelow(m, 0) == 0
  {
  }

  lemma CountMask(kind: PieceType, f0: int, r0: int)
    requires (kind == Rook || kind == Bishop) && 0 <= f0 < 8 && 0 <= r0 < 8
    ensures CountBelow(Mask(kind, 8 * r0 + f0), 64) == MaskBits(kind, f0, r0)
  {
    hide Mask, CountBelow, MaskRow;
    NoneBelow(Mask(kind, 8 * r0 + f0));
    CountRow(kind, f0, r0, 0); CountRow(kind, f0, r0, 1); CountRow(kind, f0, r0, 2); CountRow(kind, f0, r0, 3);
    CountRow(kind, f0, r0, 4); CountRow(kind, f0, r0, 5); CountRow(kind, f0, r0, 6); CountRow(kind, f0, r0, 7);
  }

  function Slots(kind: PieceType, f: int, q: int): nat {
    Pow2(MaskBits(kind, f, q))
  }

  lemma BlockOf(kind: PieceType, f: int, q: int)
    requires (kind == Rook || kind == Bishop) && 0 <= f < 8 && 0 <= q < 8
    ensures BlocksEnd(kind, 8 * q + f + 1) == BlocksEnd(kind, 8 * q + f) + Slots(kind, f, q)
  {
    hide *;
    var s: Square := 8 * q + f;
    CountMask(kind, f, q);
    SubsetsIs(Mask(kind, s));
    SlotsIs(kind, f, q);
    BlocksEndIs(kind);
    assert BlocksEnd(kind, s + 1) == BlocksEnd(kind, s) + Subsets(Mask(kind, s));
  }

  lemma SlotsIs(kind: PieceType, f: int, q: int)
    ensures Slots(kind, f, q) == Pow2(MaskBits(kind, f, q))
  {
  }

  /** A rank of squares holds the blocks of its eight. */
  lemma BlocksOfRank(kind: PieceType, q: int)
    requires (kind == Rook || kind == Bishop) && 0 <= q < 8
    ensures BlocksEnd(kind, 8 * q + 8) ==
            BlocksEnd(kind, 8 * q) + Slots(kind, 0, q) + Slots(kind, 1, q) + Slots(kind, 2, q) + Slots(kind, 3, q)
            + Slots(kind, 4, q) + Slots(kind, 5, q) + Slots(kind, 6, q) + Slots(kind, 7, q)
  {
    hide *;
    BlockOf(kind, 0, q); BlockOf(kind, 1, q); BlockOf(kind, 2, q); BlockOf(kind, 3, q);
    BlockOf(kind, 4, q); BlockOf(kind, 5, q); BlockOf(kind, 6, q); BlockOf(kind, 7, q);
  }

  lemma Powers()
    ensures Pow2(5) == 32 && Pow2(6) == 64 && Pow2(7) == 128 && Pow2(9) == 512 && Pow2(10) == 1024 &&
            Pow2(11) == 2048 && Pow2(12) == 4096
  {
    assert Pow2(3) == 8;
    assert Pow2(5) == 32;
    assert Pow2(7) == 128;
    assert Pow2(9) == 512;
    assert Pow2(11) == 2048;
  }

  /** A rook sees twelve squares from a corner, eleven from an edge, ten from elsewhere. */
  lemma RookSlots(f: int, q: int)
    requires 0 <= f < 8 && 0 <= q < 8
    ensures Slots(Rook, f, q) == if Inner(f) + Inner(q) == 0 then 4096 else if Inner(f) + Inner(q) == 1 then 2048
      else 1024
  {
    Powers();
    assert MaskBits(Rook, f, q) == 12 - Inner(f) - Inner(q);
    hide Pow2, MaskBits;
  }

  /** How near the edge of the board the square is, counted in rings from the outside. */
  function Ring(f: int, q: int): int {
    var g, r := if f < 4 then f else 7 - f, if q < 4 then q else 7 - q;
    if g < r then g else r
  }

  predicate AtCorner(f: int, q: int) {
    (f == 0 || f == 7) && (q == 0 || q == 7)
  }

  /** A bishop sees six squares from a corner, else five from the two outer rings, seven from the
      third and nine from the middle four squares. */
  lemma BishopSlots(f: int, q: int)
    requires 0 <= f < 8 && 0 <= q < 8
    ensures Slots(Bishop, f, q) ==
            if AtCorner(f, q) then 64 else if Ring(f, q) <= 1 then 32 else if Ring(f, q) == 2 then 128 else 512
  {
    Powers();
    assert MaskBits(Bishop, f, q) == if AtCorner(f, q) then 6 else if Ring(f, q) <= 1 then 5 else if Ring(f, q) == 2
      then 7 else 9;
    hide Pow2, MaskBits;
  }

  lemma RookRank(q: int)
    requires 0 <= q < 8
    ensures BlocksEnd(Rook, 8 * q + 8) == BlocksEnd(Rook, 8 * q) + if q == 0 || q == 7 then 20480 else 10240
  {
    hide BlocksEnd, Slots;
    BlocksOfRank(Rook, q);
    RookSlots(0, q); RookSlots(1, q); RookSlots(2, q); RookSlots(3, q);
    RookSlots(4, q); RookSlots(5, q); RookSlots(6, q); RookSlots(7, q);
  }

  lemma BishopRank(q: int)
    requires 0 <= q < 8
    ensures BlocksEnd(Bishop, 8 * q + 8) ==
            BlocksEnd(Bishop, 8 * q) + if q == 0 || q == 7 then 320 else if q == 1 || q == 6 then 256
              else if q == 2 || q == 5 then 640 else 1408
  {
    hide BlocksEnd, Slots;
    BlocksOfRank(Bishop, q);
    BishopSlots(0, q); BishopSlots(1, q); BishopSlots(2, q); BishopSlots(3, q);
    BishopSlots(4, q); BishopSlots(5, q); BishopSlots(6, q); BishopSlots(7, q);
  }

  lemma NoBlocks(kind: PieceType)
    requires kind == Rook || kind == Bishop
    ensures BlocksEnd(kind, 0) == 0
  {
  }

  /** The two tables are exactly as long as their blocks together. */
  lemma TableSizes()
    ensures BlocksEnd(Rook, 64) == 0x19000 && BlocksEnd(Bishop, 64) == 0x1480
  {
    hide *;
    NoBlocks(Rook);
    NoBlocks(Bishop);
    RookRank(0); RookRank(1); RookRank(2); RookRank(3); RookRank(4); RookRank(5); RookRank(6); RookRank(7);
    BishopRank(0); BishopRank(1); BishopRank(2); BishopRank(3); BishopRank(4); BishopRank(5); BishopRank(6);
      BishopRank(7);
  }

  /** init_magics on a table of the size the source declares. */
  method InitTable(kind: PieceType, pext: bool, draws: seq<seq<nat>>, table: array<Bitboard>)
    returns (found: bool, magics: seq<Magic>)
    requires (kind == Rook && table.Length == 0x19000) || (kind == Bishop && table.Length == 0x1480)
    requires |draws| == 64
    modifies table
    ensures found ==> |magics| == 64 && forall s: Square, occ ::
              && magics[s].base + MagicIndex(pext, magics[s], occ) < table.Length
              && table[magics[s].base + MagicIndex(pext, magics[s], occ)] == AttacksBB(kind, s, occ)
  {
    hide *;
    TableSizes();
    found, magics := InitMagics(kind, pext, draws, table);
  }
}
