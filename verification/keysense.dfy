/** What the keys see: nothing that tells two positions apart is left out of the position key, and
    the partial keys share the board out. */
module KeySense {
  import opened Squares
  import opened Types
  import opened Board
  import opened Rules
  import opened Attacks
  import opened Derived

  lemma XorFour(a: Key, b: Key, c: Key, x: Key, y: Key, t: Key)
    ensures Xor(Xor(Xor(a, x), Xor(b, y)), Xor(c, t)) == Xor(Xor(Xor(a, b), c), Xor(Xor(x, y), t))
  {
  }

  /** The pawn key and the two non-pawn keys together are the board's part of the position key. */
  lemma {:induction false} KeysJoin(z: Zobrist, b: Board, n: nat)
    requires n <= 64
    ensures Fold(z, WholeKey, b, n) ==
            Xor(Xor(Fold(z, PawnKey, b, n), Fold(z, NonPawnKey(White), b, n)), Fold(z, NonPawnKey(Black), b, n))
  {
    if n > 0 {
      KeysJoin(z, b, n - 1);
      var x, y, t := Term(z, PawnKey, b[n - 1], n - 1), Term(z, NonPawnKey(White), b[n - 1], n - 1),
        Term(z, NonPawnKey(Black), b[n - 1], n - 1);
      assert Xor(Xor(x, y), t) == Term(z, WholeKey, b[n - 1], n - 1);
      hide Term, Xor;
      XorFour(Fold(z, PawnKey, b, n - 1), Fold(z, NonPawnKey(White), b, n - 1), Fold(z, NonPawnKey(Black), b, n - 1),
              x, y, t);
    } else {
      assert Xor(Xor({}, {}), {}) == {};
    }
  }

  /** Tables with one key for pc on s and no other. */
  function PieceOnly(pc: Piece, s: Square): Zobrist {
    Zobrist((qc, t) => if qc == pc && t == s then {0} else {}, _ => {}, _ => {}, {}, {})
  }

  lemma {:induction false} PieceOnlyFold(pc: Piece, s: Square, b: Board, n: nat)
    requires pc.Piece? && n <= 64
    ensures Fold(PieceOnly(pc, s), WholeKey, b, n) == if s < n && b[s] == pc then {0} else {}
  {
    if n > 0 {
      PieceOnlyFold(pc, s, b, n - 1);
    }
  }

  lemma PieceOnlyKey(pc: Piece, s: Square, p: Pos)
    requires pc.Piece?
    ensures PositionKey(PieceOnly(pc, s), p) == if p.board[s] == pc then {0} else {}
  {
    PieceOnlyFold(pc, s, p.board, 64);
    hide Fold;
  }

  /** Tables that have keys for no piece. */
  function FieldsOnly(enpassant: int -> Key, castling: set<Right> -> Key, side: Key): Zobrist {
    Zobrist((_, _) => {}, enpassant, castling, side, {})
  }

  lemma {:induction false} NoPieceFold(enpassant: int -> Key, castling: set<Right> -> Key, side: Key, b: Board, n: nat)
    requires n <= 64
    ensures Fold(FieldsOnly(enpassant, castling, side), WholeKey, b, n) == {}
  {
    if n > 0 {
      NoPieceFold(enpassant, castling, side, b, n - 1);
    }
  }

  lemma FieldsOnlyKey(enpassant: int -> Key, castling: set<Right> -> Key, side: Key, p: Pos)
    ensures PositionKey(FieldsOnly(enpassant, castling, side), p) ==
            Xor(Xor(if p.ep.Some? then enpassant(File(p.ep.value)) else {}, if p.side == Black then side else {}),
                castling(p.rights))
  {
    NoPieceFold(enpassant, castling, side, p.board, 64);
    hide Fold;
    assert Xor({}, EpKey(FieldsOnly(enpassant, castling, side), p.ep)) ==
           EpKey(FieldsOnly(enpassant, castling, side), p.ep);
  }

  function EpFile(p: Pos): Option<int> {
    if p.ep.Some? then Some(File(p.ep.value)) else None
  }

  /** What the key is a key of. */
  predicate SameToKey(p: Pos, q: Pos) {
    p.board == q.board && p.side == q.side && p.rights == q.rights && EpFile(p) == EpFile(q)
  }

  /** Two positions have the same key under all tables exactly when they have the same board, side to
      move, castling rights and en-passant file. */
  lemma KeySeesAll(p: Pos, q: Pos)
    ensures (forall z: Zobrist :: PositionKey(z, p) == PositionKey(z, q)) <==> SameToKey(p, q)
  {
    if SameToKey(p, q) {
      forall z: Zobrist
        ensures PositionKey(z, p) == PositionKey(z, q)
      {
        assert EpKey(z, p.ep) == EpKey(z, q.ep);
        hide Fold, Xor;
      }
    } else if p.board != q.board {
      BoardSeen(p, q);
    } else {
      FieldsSeen(p, q);
    }
    hide PositionKey, SameToKey;
  }

  lemma BoardSeen(p: Pos, q: Pos)
    requires p.board != q.board
    ensures exists z: Zobrist :: PositionKey(z, p) != PositionKey(z, q)
  {
    var s: Square :| p.board[s] != q.board[s];
    var pc := if p.board[s].Piece? then p.board[s] else q.board[s];
    PieceOnlyKey(pc, s, p);
    PieceOnlyKey(pc, s, q);
    hide PositionKey, PieceOnly;
  }

  lemma FieldsSeen(p: Pos, q: Pos)
    requires p.side != q.side || p.rights != q.rights || EpFile(p) != EpFile(q)
    ensures exists z: Zobrist :: PositionKey(z, p) != PositionKey(z, q)
  {
    var none: Key := {};
    var noEp: int -> Key := _ => none;
    var noRights: set<Right> -> Key := _ => none;
    if p.side != q.side {
      SeenBy(noEp, noRights, {0}, p, q);
    } else if p.rights != q.rights {
      SeenBy(noEp, rights => if rights == p.rights then {0} else none, {}, p, q);
    } else {
      var file := if p.ep.Some? then EpFile(p).value else EpFile(q).value;
      SeenBy(f => if f == file then {0} else none, noRights, {}, p, q);
    }
  }

  lemma SeenBy(enpassant: int -> Key, castling: set<Right> -> Key, side: Key, p: Pos, q: Pos)
    requires Xor(Xor(if p.ep.Some? then enpassant(File(p.ep.value)) else {}, if p.side == Black then side else {}),
                 castling(p.rights)) !=
             Xor(Xor(if q.ep.Some? then enpassant(File(q.ep.value)) else {}, if q.side == Black then side else {}),
                 castling(q.rights))
    ensures exists z: Zobrist :: PositionKey(z, p) != PositionKey(z, q)
  {
    FieldsOnlyKey(enpassant, castling, side, p);
    FieldsOnlyKey(enpassant, castling, side, q);
    hide PositionKey, FieldsOnly, Xor;
  }

  /** Between well-formed positions that is the same position for the purposes of repetition. */
  lemma SameSquare(p: Pos, q: Pos)
    requires WellFormed(p) && WellFormed(q)
    ensures SameToKey(p, q) <==> p.board == q.board && p.side == q.side && p.rights == q.rights && p.ep == q.ep
  {
    if SameToKey(p, q) && p.ep.Some? {
      EpRank(p);
      EpRank(q);
      Coords(p.ep.value);
      Coords(q.ep.value);
    }
    hide WellFormed, File, Rank;
  }

  lemma EpRank(p: Pos)
    requires WellFormed(p)
    ensures p.ep.Some? ==> RelativeRank(p.side, p.ep.value) == 5
  {
    hide HasKing, InCheck, PawnsInside, RightsHome, EpAvailable;
  }
}
