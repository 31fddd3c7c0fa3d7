/** From-scratch definitions of everything the code keeps incrementally: the bitboards, the
    piece counts, the hash keys and the cached attack sets. */
module Derived {
  import opened Squares
  import opened Types
  import opened Board
  import opened Rules
  import opened Attacks
  import opened Pins

  /** A 64-bit key as the set of its set bits, like a bitboard; combined by exclusive or. */
  type Key = Bitboard

  /** The Zobrist tables, with arbitrary entries. */
  datatype Zobrist = Zobrist(
    psq: (Piece, int) -> Key,
    enpassant: int -> Key,
    castling: set<Right> -> Key,
    side: Key,
    noPawns: Key)

  // ----- bitboards -----

  function OfType(b: Board, kind: PieceType): Bitboard {
    set s: Square | b[s].Piece? && b[s].kind == kind
  }

  function OfColor(b: Board, c: Color): Bitboard {
    set s: Square | IsColor(b, c, s)
  }

  function PiecesOf(b: Board, pc: Piece): Bitboard {
    set s: Square | b[s] == pc
  }

  function TypeIndex(kind: PieceType): int {
    match kind
    case Pawn => 1
    case Knight => 2
    case Bishop => 3
    case Rook => 4
    case Queen => 5
    case King => 6
  }

  function ColorIndex(c: Color): int {
    if c == White then 0 else 1
  }

  function PieceIndex(pc: Piece): int
    requires pc.Piece?
  {
    8 * ColorIndex(pc.color) + TypeIndex(pc.kind)
  }

  ghost predicate TypesSynced(b: Board, byType: seq<Bitboard>) {
    && |byType| == 7 && byType[0] == Occupied(b)
    && forall kind: PieceType :: byType[TypeIndex(kind)] == OfType(b, kind)
  }

  ghost predicate ColorsSynced(b: Board, byColor: seq<Bitboard>) {
    |byColor| == 2 && forall c: Color :: byColor[ColorIndex(c)] == OfColor(b, c)
  }

  ghost predicate CountsSynced(b: Board, pieceCount: seq<int>) {
    |pieceCount| == 16 && forall pc: Piece :: pc.Piece? ==> pieceCount[PieceIndex(pc)] == |PiecesOf(b, pc)|
  }

  /** by_type, by_color and piece_count agree with the board array. */
  ghost predicate Synced(b: Board, byType: seq<Bitboard>, byColor: seq<Bitboard>, pieceCount: seq<int>) {
    TypesSynced(b, byType) && ColorsSynced(b, byColor) && CountsSynced(b, pieceCount)
  }

  lemma PieceIndexInjective(pc: Piece, qc: Piece)
    requires pc.Piece? && qc.Piece?
    ensures PieceIndex(pc) == PieceIndex(qc) <==> pc == qc
    ensures 0 < PieceIndex(pc) < 16
  {
  }

  // ----- keys -----

  datatype KeyKind = WholeKey | PawnKey | MinorKey | NonPawnKey(color: Color)

  /** What pc on s contributes to a key of this kind. */
  function Term(z: Zobrist, kind: KeyKind, pc: Piece, s: int): Key {
    if pc.NoPiece? then {} else
      var counts := match kind
        case WholeKey => true
        case PawnKey => pc.kind == Pawn
        case MinorKey => pc.kind == Knight || pc.kind == Bishop
        case NonPawnKey(c) => pc.kind != Pawn && pc.color == c;
      if counts then z.psq(pc, s) else {}
  }

  lemma XorSwap(a: Key, x: Key, t: Key)
    ensures Xor(Xor(a, x), t) == Xor(Xor(a, t), x)
  {
  }

  lemma XorTwice(a: Key, x: Key)
    ensures Xor(Xor(a, x), x) == a
  {
  }

  function Fold(z: Zobrist, kind: KeyKind, b: Board, n: nat): Key
    requires n <= 64
  {
    if n == 0 then {} else Xor(Fold(z, kind, b, n - 1), Term(z, kind, b[n - 1], n - 1))
  }

  /** Replacing one square's piece costs two terms. */
  lemma {:induction false} FoldUpdate(z: Zobrist, kind: KeyKind, b: Board, s: Square, pc: Piece, n: nat)
    requires n <= 64
    ensures Fold(z, kind, b[s := pc], n) ==
            if s < n then Xor(Xor(Fold(z, kind, b, n), Term(z, kind, b[s], s)), Term(z, kind, pc, s))
            else Fold(z, kind, b, n)
  {
    hide Term, Xor;
    if n == 0 {
    } else {
      FoldUpdate(z, kind, b, s, pc, n - 1);
      var a, x, y := Fold(z, kind, b, n - 1), Term(z, kind, b[s], s), Term(z, kind, pc, s);
      if n - 1 == s {
        XorTwice(a, x);
      } else if s < n - 1 {
        var t := Term(z, kind, b[n - 1], n - 1);
        XorSwap(Xor(a, x), y, t);
        XorSwap(a, x, t);
      }
    }
  }

  /** Fold over the whole board, one square changed. */
  lemma BoardFold(z: Zobrist, kind: KeyKind, b: Board, s: Square, pc: Piece)
    ensures Fold(z, kind, b[s := pc], 64) ==
            Xor(Xor(Fold(z, kind, b, 64), Term(z, kind, b[s], s)), Term(z, kind, pc, s))
  {
    FoldUpdate(z, kind, b, s, pc, 64);
  }

  const KINDS: seq<PieceType> := [Pawn, Knight, Bishop, Rook, Queen, King]

  /** The twelve pieces in encoding order, white before black. */
  function NthPiece(i: nat): Piece
    requires i < 12
  {
    if i < 6 then Piece(White, KINDS[i]) else Piece(Black, KINDS[i - 6])
  }

  function Slot(pc: Piece): nat
    requires pc.Piece?
  {
    6 * ColorIndex(pc.color) + TypeIndex(pc.kind) - 1
  }

  lemma NthPieceSlot(i: nat, pc: Piece)
    requires i < 12 && pc.Piece?
    ensures Slot(pc) < 12
    ensures NthPiece(i) == pc <==> i == Slot(pc)
  {
  }

  /** Slots 8, 9, ... of the piece's own Zobrist row, one for each of its n copies. */
  function CopyKey(z: Zobrist, pc: Piece, n: nat): Key {
    if n == 0 then {} else Xor(CopyKey(z, pc, n - 1), z.psq(pc, 8 + n - 1))
  }

  function MaterialFold(z: Zobrist, b: Board, n: nat): Key
    requires n <= 12
  {
    if n == 0 then {} else Xor(MaterialFold(z, b, n - 1), CopyKey(z, NthPiece(n - 1), |PiecesOf(b, NthPiece(n - 1))|))
  }

  function MaterialKey(z: Zobrist, b: Board): Key {
    MaterialFold(z, b, 12)
  }

  /** One more copy of pc costs one slot. */
  lemma {:induction false} MaterialFoldPlus(z: Zobrist, b: Board, b': Board, pc: Piece, n: nat)
    requires n <= 12
    requires pc.Piece? && |PiecesOf(b', pc)| == |PiecesOf(b, pc)| + 1
    requires forall qc: Piece :: qc != pc && qc.Piece? ==> |PiecesOf(b', qc)| == |PiecesOf(b, qc)|
    ensures MaterialFold(z, b', n) ==
            if Slot(pc) < n then Xor(MaterialFold(z, b, n), z.psq(pc, 8 + |PiecesOf(b, pc)|))
            else MaterialFold(z, b, n)
  {
    hide PiecesOf, Xor;
    if n == 0 {
    } else {
      MaterialFoldPlus(z, b, b', pc, n - 1);
      NthPieceSlot(n - 1, pc);
      hide NthPiece, Slot;
      var qc := NthPiece(n - 1);
      var a, c := MaterialFold(z, b, n - 1), CopyKey(z, qc, |PiecesOf(b, qc)|);
      var d := z.psq(pc, 8 + |PiecesOf(b, pc)|);
      if qc == pc {
        XorAssoc(a, c, d);
      } else {
        XorSwap(a, d, c);
      }
    }
  }

  lemma XorAssoc(a: Key, x: Key, t: Key)
    ensures Xor(Xor(a, x), t) == Xor(a, Xor(x, t))
  {
  }

  /** material_key, one piece placed on an empty square. */
  lemma MaterialPlace(z: Zobrist, b: Board, s: Square, pc: Piece)
    requires b[s] == NoPiece && pc.Piece?
    ensures MaterialKey(z, b[s := pc]) == Xor(MaterialKey(z, b), z.psq(pc, 8 + |PiecesOf(b, pc)|))
    ensures |PiecesOf(b[s := pc], pc)| == |PiecesOf(b, pc)| + 1
    ensures forall qc: Piece :: qc != pc && qc.Piece? ==> PiecesOf(b[s := pc], qc) == PiecesOf(b, qc)
  {
    var b' := b[s := pc];
    assert PiecesOf(b', pc) == PiecesOf(b, pc) + {s};
    forall qc: Piece | qc != pc && qc.Piece?
      ensures PiecesOf(b', qc) == PiecesOf(b, qc)
    {
    }
    MaterialFoldPlus(z, b, b', pc, 12);
    NthPieceSlot(0, pc);
  }

  /** material_key, one piece lifted. */
  lemma MaterialLift(z: Zobrist, b: Board, s: Square)
    requires b[s].Piece?
    ensures |PiecesOf(b, b[s])| >= 1
    ensures MaterialKey(z, b[s := NoPiece]) == Xor(MaterialKey(z, b), z.psq(b[s], 8 + |PiecesOf(b, b[s])| - 1))
    ensures |PiecesOf(b[s := NoPiece], b[s])| == |PiecesOf(b, b[s])| - 1
    ensures forall qc: Piece :: qc != b[s] && qc.Piece? ==> PiecesOf(b[s := NoPiece], qc) == PiecesOf(b, qc)
  {
    var b0 := b[s := NoPiece];
    assert b0[s := b[s]] == b;
    MaterialPlace(z, b0, s, b[s]);
    XorTwice(MaterialKey(z, b0), z.psq(b[s], 8 + |PiecesOf(b0, b[s])|));
  }

  function PieceValue(kind: PieceType): int {
    match kind
    case Pawn => 208
    case Knight => 781
    case Bishop => 825
    case Rook => 1276
    case Queen => 2538
    case King => 0
  }

  function NonPawnMaterial(b: Board, c: Color): int {
    |PiecesOf(b, Piece(c, Knight))| * PieceValue(Knight) + |PiecesOf(b, Piece(c, Bishop))| * PieceValue(Bishop)
    + |PiecesOf(b, Piece(c, Rook))| * PieceValue(Rook) + |PiecesOf(b, Piece(c, Queen))| * PieceValue(Queen)
  }

  /** What pc adds to the non-pawn material of c. */
  function MaterialTerm(pc: Piece, c: Color): int {
    if pc.Piece? && pc.color == c && pc.kind != Pawn then PieceValue(pc.kind) else 0
  }

  lemma NonPawnPlace(z: Zobrist, b: Board, s: Square, pc: Piece, c: Color)
    requires b[s] == NoPiece && pc.Piece?
    ensures NonPawnMaterial(b[s := pc], c) == NonPawnMaterial(b, c) + MaterialTerm(pc, c)
  {
    MaterialPlace(z, b, s, pc);
    hide PiecesOf;
  }

  lemma NonPawnLift(z: Zobrist, b: Board, s: Square, c: Color)
    requires b[s].Piece?
    ensures NonPawnMaterial(b[s := NoPiece], c) == NonPawnMaterial(b, c) - MaterialTerm(b[s], c)
  {
    var b0 := b[s := NoPiece];
    assert b0[s := b[s]] == b;
    NonPawnPlace(z, b0, s, b[s], c);
  }

  function EpKey(z: Zobrist, ep: Option<Square>): Key {
    if ep.Some? then z.enpassant(File(ep.value)) else {}
  }

  function SideKey(z: Zobrist, c: Color): Key {
    if c == Black then z.side else {}
  }

  /** compute_key: the whole position hashed from scratch. */
  function PositionKey(z: Zobrist, p: Pos): Key {
    Xor(Xor(Xor(Fold(z, WholeKey, p.board, 64), EpKey(z, p.ep)), SideKey(z, p.side)), z.castling(p.rights))
  }

  // ----- attack caches -----

  function SnipersBB(b: Board, them: Color, k: Square): Bitboard {
    set a: Square | Sniper(b, them, k, a)
  }

  /** Pieces of either colour standing alone between k and a slider of `them`. */
  function BlockersBB(b: Board, them: Color, k: Square): Bitboard {
    set x: Square | Blocker(b, them, k, x)
  }

  /** The sliders of `them` that hold such a piece of k's own side. */
  function PinnersBB(b: Board, them: Color, k: Square): Bitboard {
    set a: Square | HoldsPinned(b, them, k, a)
  }

  predicate HoldsPinned(b: Board, them: Color, k: Square, a: Square) {
    exists x: Square :: Screens(b, them, k, x, a) && IsColor(b, Flip(them), x)
  }

  function AttackersBB(b: Board, them: Color, t: Square, occ: Bitboard): Bitboard {
    set a: Square | Attacker(b, them, a, t, occ)
  }

  /** The squares from which a piece of this kind of the side to move attacks the enemy king on tk. */
  function CheckSquaresBB(b: Board, us: Color, tk: Square, kind: PieceType): Bitboard {
    if kind == King then {} else set s: Square | Hits(Piece(us, kind), s, tk, Occupied(b))
  }

  /** Squares attacked by pieces of one kind, seen through the king on k. */
  function ThreatsBB(b: Board, them: Color, k: Square, kind: PieceType): Bitboard {
    set t: Square | ThreatenedBy(b, them, k, kind, t)
  }

  predicate ThreatenedBy(b: Board, them: Color, k: Square, kind: PieceType, t: Square) {
    exists a: Square :: b[a] == Piece(them, kind) && Hits(Piece(them, kind), a, t, Occupied(b) - {k})
  }

  /** The same for every piece of `them`. */
  function AllThreatsBB(b: Board, them: Color, k: Square): Bitboard {
    set t: Square | Threatened(b, them, k, t)
  }

  predicate Threatened(b: Board, them: Color, k: Square, t: Square) {
    exists a: Square :: Attacker(b, them, a, t, Occupied(b) - {k})
  }
}
