/** Setting up a position from FEN text, step by step as pos_set_reason does, and writing it out as
    pos_fen does. What the parser builds is a valid position: the start of every run. */
module Setup {
  import opened Squares
  import opened Types
  import opened Board
  import opened Rules
  import opened Attacks
  import opened Derived
  import opened State
  import opened Play
  import opened Views
  import opened Keys
  import opened Records
  import opened Caches
  import opened Chains
  import opened Decimals
  import opened FenBoard
  import opened FenRights
  import opened Fen
  import opened EpField
  import opened Position

  // ----- the keys, from scratch -----

  /** The auxiliary keys over the first n squares. */
  ghost predicate AuxUpto(z: Zobrist, b: Board, n: nat, st: StateInfo)
    requires n <= 64
  {
    && |st.nonPawnKey| == 2
    && st.pawnKey == Xor(z.noPawns, Fold(z, PawnKey, b, n))
    && st.minorPieceKey == Fold(z, MinorKey, b, n)
    && forall c: Color :: st.nonPawnKey[ColorIndex(c)] == Fold(z, NonPawnKey(c), b, n)
  }

  lemma AuxStart(z: Zobrist, b: Board, st: StateInfo)
    requires st.pawnKey == z.noPawns && st.minorPieceKey == {} && st.nonPawnKey == [{}, {}]
    ensures AuxUpto(z, b, 0, st) && Fold(z, WholeKey, b, 0) == {}
  {
  }

  lemma AuxStep(z: Zobrist, b: Board, n: nat, st: StateInfo)
    requires n < 64 && AuxUpto(z, b, n, st)
    ensures AuxUpto(z, b, n + 1, if b[n].Piece? then ToggleAuxKeys(z, st, b[n], n) else st)
    ensures Fold(z, WholeKey, b, n + 1) ==
            if b[n].Piece? then Xor(Fold(z, WholeKey, b, n), z.psq(b[n], n)) else Fold(z, WholeKey, b, n)
  {
    XorAssoc(z.noPawns, Fold(z, PawnKey, b, n), Term(z, PawnKey, b[n], n));
    XorNothing(Fold(z, PawnKey, b, n));
    XorNothing(Fold(z, MinorKey, b, n));
    XorNothing(Fold(z, WholeKey, b, n));
    XorNothing(Fold(z, NonPawnKey(White), b, n));
    XorNothing(Fold(z, NonPawnKey(Black), b, n));
    hide Xor;
  }

  lemma AuxDone(z: Zobrist, b: Board, st: StateInfo)
    requires AuxUpto(z, b, 64, st)
    ensures AuxKeysFresh(z, b, st)
  {
    hide Fold, Xor;
  }

  lemma MaterialStarts(z: Zobrist, b: Board)
    ensures MaterialFold(z, b, 0) == {}
  {
  }

  lemma CopiesStart(z: Zobrist, pc: Piece, a: Key)
    ensures Xor(a, CopyKey(z, pc, 0)) == a
  {
  }

  lemma CopiesMore(z: Zobrist, pc: Piece, n: nat, a: Key)
    ensures Xor(a, CopyKey(z, pc, n + 1)) == Xor(Xor(a, CopyKey(z, pc, n)), z.psq(pc, 8 + n))
  {
    XorAssoc(a, CopyKey(z, pc, n), z.psq(pc, 8 + n));
    hide Xor;
  }

  lemma MaterialMore(z: Zobrist, b: Board, i: nat)
    requires i < 12
    ensures MaterialFold(z, b, i + 1) == Xor(MaterialFold(z, b, i), CopyKey(z, NthPiece(i), |PiecesOf(b, NthPiece(i))|))
  {
    hide Xor, CopyKey, NthPiece, PiecesOf;
  }

  lemma CountOf(b: Board, pieceCount: seq<int>, pc: Piece)
    requires CountsSynced(b, pieceCount) && pc.Piece?
    ensures |pieceCount| == 16 && 0 <= PieceIndex(pc) < 16 && pieceCount[PieceIndex(pc)] == |PiecesOf(b, pc)|
  {
    PieceIndexInjective(pc, pc);
    hide PiecesOf;
  }

  lemma NthIsPiece(i: nat)
    requires i < 12
    ensures NthPiece(i).Piece?
  {
  }

  lemma MaterialAll(z: Zobrist, b: Board)
    ensures MaterialKey(z, b) == MaterialFold(z, b, 12)
  {
    hide MaterialFold;
  }

  /** The first loop of compute_key: material hashed by count. */
  method HashMaterial(z: Zobrist, pieceCount: seq<int>, ghost b: Board) returns (key: Key)
    requires CountsSynced(b, pieceCount)
    ensures key == MaterialKey(z, b)
  {
    hide *;
    MaterialStarts(z, b);
    key := {};
    for i := 0 to 12
      invariant key == MaterialFold(z, b, i)
    {
      NthIsPiece(i);
      var pc := NthPiece(i);
      CountOf(b, pieceCount, pc);
      CopiesStart(z, pc, key);
      for cnt := 0 to pieceCount[PieceIndex(pc)]
        invariant key == Xor(MaterialFold(z, b, i), CopyKey(z, pc, cnt))
      {
        CopiesMore(z, pc, cnt, MaterialFold(z, b, i));
        key := Xor(key, z.psq(pc, 8 + cnt));
      }
      MaterialMore(z, b, i);
    }
    MaterialAll(z, b);
  }

  /** compute_key. */
  method ComputeKey(z: Zobrist, b: Board, pieceCount: seq<int>, side: Color, ep: Option<Square>, rights: set<Right>,
                    st0: StateInfo)
    returns (st: StateInfo, key: Key)
    requires CountsSynced(b, pieceCount)
    ensures st ==
            st0.(pawnKey := st.pawnKey, minorPieceKey := st.minorPieceKey, nonPawnKey := st.nonPawnKey,
                 materialKey := MaterialKey(z, b))
    ensures AuxKeysFresh(z, b, st)
    ensures key == Xor(Xor(Xor(Fold(z, WholeKey, b, 64), EpKey(z, ep)), SideKey(z, side)), z.castling(rights))
  {
    hide *;
    var materialKey := HashMaterial(z, pieceCount, b);
    st := st0.(pawnKey := z.noPawns, minorPieceKey := {}, nonPawnKey := [{}, {}], materialKey := materialKey);
    key := {};
    AuxStart(z, b, st);
    for s := 0 to 64
      invariant AuxUpto(z, b, s, st) && key == Fold(z, WholeKey, b, s)
      invariant st ==
                st0.(pawnKey := st.pawnKey, minorPieceKey := st.minorPieceKey, nonPawnKey := st.nonPawnKey,
                     materialKey := materialKey)
    {
      AuxStep(z, b, s, st);
      AuxSize(z, b, s, st);
      if b[s].Piece? {
        ToggleKeeps(z, st, b[s], s);
        key := Xor(key, z.psq(b[s], s));
        st := ToggleAuxKeys(z, st, b[s], s);
      }
    }
    AuxDone(z, b, st);
    EndsOfKey(z, ep, side, key);
    if ep.Some? {
      key := Xor(key, z.enpassant(File(ep.value)));
    }
    if side == Black {
      key := Xor(key, z.side);
    }
    key := Xor(key, z.castling(rights));
  }

  lemma AuxSize(z: Zobrist, b: Board, n: nat, st: StateInfo)
    requires n <= 64 && AuxUpto(z, b, n, st)
    ensures |st.nonPawnKey| == 2
  {
  }

  lemma ToggleKeeps(z: Zobrist, st: StateInfo, pc: Piece, s: Square)
    requires pc.Piece? && |st.nonPawnKey| == 2
    ensures var st1 := ToggleAuxKeys(z, st, pc, s);
            st1 == st.(pawnKey := st1.pawnKey, minorPieceKey := st1.minorPieceKey, nonPawnKey := st1.nonPawnKey)
  {
    hide Xor;
  }

  lemma EndsOfKey(z: Zobrist, ep: Option<Square>, side: Color, key: Key)
    ensures Xor(key, EpKey(z, ep)) == if ep.Some? then Xor(key, z.enpassant(File(ep.value))) else key
    ensures forall k: Key :: Xor(k, SideKey(z, side)) == if side == Black then Xor(k, z.side) else k
  {
    XorNothing(key);
    forall k: Key
      ensures Xor(k, {}) == k
    {
      XorNothing(k);
    }
    hide Xor;
  }

  // ----- castling rights -----

  /** The rook squares, paths and masks built for the rights read so far. */
  ghost predicate RightsBuilt(b: Board, rt: Rights, rookSquare: map<Right, Square>, path: map<Right, Bitboard>,
                              mask: seq<set<Right>>) {
    && rookSquare == rt.rooks && |mask| == 64 && (forall r :: r in rt.held ==> r in rt.rooks)
    && (forall r, s: Square :: r in mask[s] <==> MaskBit(b, rt, r, s))
    && (forall r, k: Square :: r in rt.held && IsKing(b, r.color, k) ==>
          r in rt.rooks && r in path && path[r] == set x: Square | CastlingPath(r, k, rt.rooks[r], x))
  }

  predicate MaskBit(b: Board, rt: Rights, r: Right, s: Square) {
    r in rt.held && r in rt.rooks && (IsKing(b, r.color, s) || rt.rooks[r] == s)
  }

  /** castling_path: the squares either piece crosses, both movers excluded. */
  function PathBB(kfrom: Square, rfrom: Square, kto: Square, rto: Square): Bitboard {
    BetweenBB(rfrom, rto) + BetweenBB(kfrom, kto) + {kto} + {rto} - {kfrom, rfrom}
  }

  lemma PathExact(r: Right, k: Square, rook: Square)
    ensures PathBB(k, rook, KingTarget(r), RookTarget(r)) == set x: Square | CastlingPath(r, k, rook, x)
  {
    hide KingTarget, RookTarget, Inside;
  }

  /** A granted rook takes over its right's mask bits. */
  lemma MaskGranted(b: Board, rt: Rights, c: Color, k: Square, rfrom: Square, mask: seq<set<Right>>,
                    mask': seq<set<Right>>)
    requires HasKing(b, c) && IsKing(b, c, k) && b[rfrom] == Piece(c, Rook) && RightsSound(b, rt.held, rt.rooks)
    requires |mask| == 64 && forall r, s: Square :: r in mask[s] <==> MaskBit(b, rt, r, s)
    requires var r := Granted(b, c, rfrom);
             var m1 := if r in rt.held && r in rt.rooks then mask[rt.rooks[r] := mask[rt.rooks[r]] - {r}] else mask;
             var m2 := m1[k := m1[k] + {r}];
             mask' == m2[rfrom := m2[rfrom] + {r}]
    ensures |mask'| == 64 && forall r, s: Square :: r in mask'[s] <==> MaskBit(b, Grant(b, rt, c, rfrom), r, s)
  {
    var r := Granted(b, c, rfrom);
    if r in rt.held {
      assert RightSound(b, rt.rooks, r);
    }
    forall q, s: Square
      ensures q in mask'[s] <==> MaskBit(b, Grant(b, rt, c, rfrom), q, s)
    {
      assert q in mask[s] <==> MaskBit(b, rt, q, s);
      KingUnique(b, c, s, k);
      hide HasKing, Granted;
    }
  }

  lemma GrantedSides(b: Board, c: Color, k: Square, rfrom: Square)
    requires HasKing(b, c) && IsKing(b, c, k) && RookAndKing(b, c, rfrom)
    ensures Granted(b, c, rfrom) == Right(c, if rfrom < k then QueenSide else KingSide) && Rank(k) == BackRank(c)
    ensures b[rfrom] == Piece(c, Rook)
  {
    KingOfIs(b, c, k);
  }

  lemma BuiltGranted(b: Board, rt: Rights, c: Color, k: Square, rfrom: Square, path: map<Right, Bitboard>,
                     mask: seq<set<Right>>,
                     mask': seq<set<Right>>)
    requires HasKing(b, c) && IsKing(b, c, k) && RightsBuilt(b, rt, rt.rooks, path, mask)
    requires |mask'| == 64 && forall r, s: Square :: r in mask'[s] <==> MaskBit(b, Grant(b, rt, c, rfrom), r, s)
    ensures var r := Granted(b, c, rfrom);
            RightsBuilt(b, Grant(b, rt, c, rfrom), rt.rooks[r := rfrom],
                        path[r := PathBB(k, rfrom, KingTarget(r), RookTarget(r))], mask')
  {
    var r := Granted(b, c, rfrom);
    PathExact(r, k, rfrom);
    forall s: Square | IsKing(b, c, s)
      ensures s == k
    {
      KingUnique(b, c, s, k);
    }
    assert r.color == c;
    hide HasKing, Granted, CastlingPath, MaskBit, IsKing, PathBB;
  }

  /** set_castling_right. */
  method SetCastlingRight(pos: Position, c: Color, rfrom: Square, held: set<Right>) returns (held': set<Right>)
    requires pos.Boards() && HasKing(pos.board, c) && RookAndKing(pos.board, c, rfrom)
    requires RightsSound(pos.board, held, pos.castlingRookSquare)
    requires RightsBuilt(pos.board, Rights(held, pos.castlingRookSquare), pos.castlingRookSquare, pos.castlingPath,
                         pos.castlingRightsMask)
    modifies pos`castlingRookSquare, pos`castlingPath, pos`castlingRightsMask
    ensures var rt := Grant(pos.board, Rights(held, old(pos.castlingRookSquare)), c, rfrom);
            && Rights(held', pos.castlingRookSquare) == rt
            && RightsBuilt(pos.board, rt, pos.castlingRookSquare, pos.castlingPath, pos.castlingRightsMask)
  {
    hide *;
    ghost var b, rt, mask, path := pos.board, Rights(held, pos.castlingRookSquare), pos.castlingRightsMask,
      pos.castlingPath;
    var kfrom := KingFound(pos, c);
    GrantedSides(b, c, kfrom, rfrom);
    BuiltParts(b, rt, pos.castlingRookSquare, pos.castlingPath, pos.castlingRightsMask);
    var cr := Right(c, if rfrom < kfrom then QueenSide else KingSide);
    if cr in held {
      var was := pos.castlingRookSquare[cr];
      pos.castlingRightsMask := pos.castlingRightsMask[was := pos.castlingRightsMask[was] - {cr}];
    }
    held' := held + {cr};
    pos.castlingRightsMask := pos.castlingRightsMask[kfrom := pos.castlingRightsMask[kfrom] + {cr}];
    pos.castlingRightsMask := pos.castlingRightsMask[rfrom := pos.castlingRightsMask[rfrom] + {cr}];
    pos.castlingRookSquare := pos.castlingRookSquare[cr := rfrom];
    TargetsMade(cr, kfrom);
    var kto := MakeSquare(if cr.wing == KingSide then 6 else 2, Rank(kfrom));
    var rto := MakeSquare(if cr.wing == KingSide then 5 else 3, Rank(kfrom));
    pos.castlingPath := pos.castlingPath[cr := PathBB(kfrom, rfrom, kto, rto)];
    MaskGranted(b, rt, c, kfrom, rfrom, mask, pos.castlingRightsMask);
    BuiltGranted(b, rt, c, kfrom, rfrom, path, mask, pos.castlingRightsMask);
    GrantIs(b, rt, c, rfrom);
  }

  lemma GrantIs(b: Board, rt: Rights, c: Color, rfrom: Square)
    requires HasKing(b, c)
    ensures Grant(b, rt, c, rfrom) == Rights(rt.held + {Granted(b, c, rfrom)}, rt.rooks[Granted(b, c, rfrom) := rfrom])
  {
    hide Granted, HasKing;
  }

  lemma BuiltParts(b: Board, rt: Rights, rookSquare: map<Right, Square>, path: map<Right, Bitboard>,
                   mask: seq<set<Right>>)
    requires RightsBuilt(b, rt, rookSquare, path, mask)
    ensures rookSquare == rt.rooks && |mask| == 64 && (forall r :: r in rt.held ==> r in rt.rooks)
    ensures forall r, s: Square :: r in mask[s] <==> MaskBit(b, rt, r, s)
  {
    hide MaskBit, CastlingPath;
  }

  lemma TargetsMade(r: Right, k: Square)
    requires Rank(k) == BackRank(r.color)
    ensures MakeSquare(if r.wing == KingSide then 6 else 2, Rank(k)) == KingTarget(r)
    ensures MakeSquare(if r.wing == KingSide then 5 else 3, Rank(k)) == RookTarget(r)
  {
  }

  /** king_square on a position still being set up. */
  method KingFound(pos: Position, c: Color) returns (k: Square)
    requires pos.Boards() && HasKing(pos.board, c)
    ensures IsKing(pos.board, c, k)
  {
    hide *;
    pos.BoardsAre();
    SyncedSizes(pos.board, pos.byType, pos.byColor, pos.pieceCount);
    KingsSet(pos.board, pos.byType, pos.byColor, c);
    k := Lsb(pos.byColor[ColorIndex(c)] * pos.byType[TypeIndex(King)]);
    KingMember(pos.board, c, k);
  }

  lemma SyncedSizes(b: Board, byType: seq<Bitboard>, byColor: seq<Bitboard>, pieceCount: seq<int>)
    requires Synced(b, byType, byColor, pieceCount)
    ensures |byType| == 7 && |byColor| == 2 && byType[0] == Occupied(b) && CountsSynced(b, pieceCount)
  {
  }

  lemma KingsSet(b: Board, byType: seq<Bitboard>, byColor: seq<Bitboard>, c: Color)
    requires TypesSynced(b, byType) && ColorsSynced(b, byColor) && HasKing(b, c)
    ensures 0 <= ColorIndex(c) < |byColor| && 0 <= TypeIndex(King) < |byType|
    ensures byColor[ColorIndex(c)] * byType[TypeIndex(King)] == PiecesOf(b, Piece(c, King)) != {}
  {
    var k: Square :| IsKing(b, c, k);
    assert k in PiecesOf(b, Piece(c, King));
  }

  lemma KingMember(b: Board, c: Color, k: Square)
    requires HasKing(b, c) && k in PiecesOf(b, Piece(c, King))
    ensures IsKing(b, c, k)
  {
  }

  lemma ScanStep(b: Board, c: Color, wing: Wing, file: int, left: nat, rook: Option<Square>)
    requires 0 <= file < 8 && if wing == KingSide then left <= file else file + left <= 7
    ensures 0 <= BackRank(c) < 8
    ensures ScanCorner(b, c, wing, file, left, rook) ==
            if left == 0 then None
            else if b[MakeSquare(file, BackRank(c))] == Piece(c, King) then rook
            else ScanCorner(b, c, wing, if wing == KingSide then file - 1 else file + 1, left - 1,
                            if b[MakeSquare(file, BackRank(c))] == Piece(c, Rook) && rook.None?
                              then Some(MakeSquare(file, BackRank(c))) else rook)
  {
    hide MakeSquare;
  }

  lemma ScanStart(b: Board, c: Color, wing: Wing)
    ensures TokenRook(b, Corner(c, wing)) == ScanCorner(b, c, wing, if wing == KingSide then 7 else 0, 7, None)
  {
    hide ScanCorner;
  }

  /** The scan of a K or Q token, inward from its corner. */
  method CornerRook(b: Board, c: Color, wing: Wing) returns (rook: Option<Square>)
    ensures rook == TokenRook(b, Corner(c, wing))
  {
    hide *;
    ScanStart(b, c, wing);
    var file := if wing == KingSide then 7 else 0;
    rook := None;
    for i := 0 to 7
      invariant file == if wing == KingSide then 7 - i else i
      invariant ScanCorner(b, c, wing, file, 7 - i, rook) == TokenRook(b, Corner(c, wing))
    {
      ScanStep(b, c, wing, file, 7 - i, rook);
      var pc := b[MakeSquare(file, BackRank(c))];
      if pc == Piece(c, King) {
        return rook;
      }
      if pc == Piece(c, Rook) && rook.None? {
        rook := Some(MakeSquare(file, BackRank(c)));
      }
      file := if wing == KingSide then file - 1 else file + 1;
    }
    ScanStep(b, c, wing, file, 0, rook);
    rook := None;
  }

  lemma KingStepOn(b: Board, c: Color, f: int)
    requires 1 <= f < 8
    ensures 0 <= BackRank(c) < 8
    ensures KingOnFiles(b, c, 1, f) || b[MakeSquare(f, BackRank(c))] == Piece(c, King) <==> KingOnFiles(b, c, 1, f + 1)
    ensures !KingOnFiles(b, c, 1, 1)
  {
    hide MakeSquare;
  }

  lemma FileRookIs(b: Board, c: Color, f: int)
    requires 0 <= f < 8
    ensures 0 <= BackRank(c) < 8
    ensures TokenRook(b, OnFile(c, f)) ==
            if b[MakeSquare(f, BackRank(c))] == Piece(c, Rook) && KingOnFiles(b, c, 1, 7)
              then Some(MakeSquare(f, BackRank(c))) else None
  {
    hide MakeSquare, KingOnFiles;
  }

  /** A file letter: that rook, if the king stands on files b to g. */
  method FileRook(b: Board, c: Color, f: int) returns (rook: Option<Square>)
    requires 0 <= f < 8
    ensures rook == TokenRook(b, OnFile(c, f))
  {
    hide *;
    FileRookIs(b, c, f);
    KingStepOn(b, c, 1);
    var candidate := MakeSquare(f, BackRank(c));
    var king := false;
    for file := 1 to 7
      invariant king == KingOnFiles(b, c, 1, file)
    {
      KingStepOn(b, c, file);
      if b[MakeSquare(file, BackRank(c))] == Piece(c, King) {
        king := true;
      }
    }
    rook := None;
    if b[candidate] == Piece(c, Rook) && king {
      rook := Some(candidate);
    }
  }

  method RookOfToken(b: Board, t: Token) returns (rook: Option<Square>)
    requires !t.Unknown? && (t.OnFile? ==> 0 <= t.file < 8)
    ensures rook == TokenRook(b, t)
  {
    hide *;
    match t
    case Corner(c, wing) =>
      rook := CornerRook(b, c, wing);
    case OnFile(c, f) =>
      rook := FileRook(b, c, f);
  }

  method SkipSpaces(s: string, from: nat) returns (i: nat)
    requires from <= |s|
    ensures from <= i <= |s| && s[i..] == DropSpaces(s[from..])
  {
    i := from;
    while i < |s| && IsSpace(s[i])
      invariant from <= i <= |s| && DropSpaces(s[i..]) == DropSpaces(s[from..])
    {
      assert s[i..][1..] == s[i + 1..];
      i := i + 1;
    }
  }

  lemma ReadRightsStep(b: Board, rt: Rights, seen: nat, s: string, i: nat)
    requires HasKing(b, White) && HasKing(b, Black) && i <= |s|
    ensures ReadRights(b, rt, seen, s[i..]) ==
            if i == |s| then Done(rt, "")
            else if IsSpace(s[i]) then Done(rt, s[i + 1..])
            else if seen == 0 && s[i] == '-' then Done(rt, DropSpaces(s[i + 1..]))
            else if seen + 1 > 4 then Failed(TooManyRights)
            else if TokenOf(s[i]).Unknown? then Failed(BadRight(s[i]))
            else ReadRights(b, GrantToken(b, rt, TokenOf(s[i])), seen + 1, s[i + 1..])
  {
    if i < |s| {
      assert s[i..][1..] == s[i + 1..];
    }
    hide HasKing, GrantToken, TokenOf, IsSpace, DropSpaces;
  }

  lemma NothingBuilt(b: Board)
    ensures RightsBuilt(b, NO_RIGHTS, map[], map[], seq(64, _ => {})) && RightsSound(b, {}, map[])
  {
  }

  lemma GrantTokenIs(b: Board, rt: Rights, t: Token)
    requires HasKing(b, White) && HasKing(b, Black) && !t.Unknown?
    ensures HasKing(b, t.color)
    ensures GrantToken(b, rt, t) == if TokenRook(b, t).None? then rt else Grant(b, rt, t.color, TokenRook(b, t).value)
  {
    hide HasKing, TokenRook, Grant;
    assert t.color == White || t.color == Black;
  }

  lemma ReadIs(s: string)
    ensures s[0..] == s
  {
  }

  /** The castling loop: token by token, each with its king and rook or dropped. */
  method ReadCastling(pos: Position, s: string) returns (r: RightsRead)
    requires pos.Boards() && HasKing(pos.board, White) && HasKing(pos.board, Black)
    requires pos.castlingRookSquare == map[] && pos.castlingPath == map[] && pos.castlingRightsMask == seq(64, _ => {})
    modifies pos`castlingRookSquare, pos`castlingPath, pos`castlingRightsMask
    ensures r == ReadRights(pos.board, NO_RIGHTS, 0, s)
    ensures r.Done? ==>
              && RightsSound(pos.board, r.rights.held, r.rights.rooks)
              && RightsBuilt(pos.board, r.rights, pos.castlingRookSquare, pos.castlingPath, pos.castlingRightsMask)
  {
    hide *;
    ghost var b := pos.board;
    NothingBuilt(b);
    NoRightsIs();
    ReadIs(s);
    var held: set<Right> := {};
    var seen, i := 0, 0;
    while i < |s|
      invariant i <= |s|
      invariant ReadRights(b, Rights(held, pos.castlingRookSquare), seen, s[i..]) == ReadRights(b, NO_RIGHTS, 0, s)
      invariant RightsSound(b, held, pos.castlingRookSquare)
      invariant RightsBuilt(b, Rights(held, pos.castlingRookSquare), pos.castlingRookSquare, pos.castlingPath,
                            pos.castlingRightsMask)
    {
      ghost var rt := Rights(held, pos.castlingRookSquare);
      ReadRightsStep(b, rt, seen, s, i);
      if IsSpace(s[i]) {
        return Done(Rights(held, pos.castlingRookSquare), s[i + 1..]);
      }
      if seen == 0 && s[i] == '-' {
        var j := SkipSpaces(s, i + 1);
        return Done(Rights(held, pos.castlingRookSquare), s[j..]);
      }
      seen := seen + 1;
      if seen > 4 {
        return Failed(TooManyRights);
      }
      var t := TokenOf(s[i]);
      if t.Unknown? {
        return Failed(BadRight(s[i]));
      }
      var rook := RookOfToken(pos.board, t);
      GrantTokenIs(b, rt, t);
      GrantTokenSound(b, rt, t);
      if rook.Some? {
        TokenSound(b, t);
        held := SetCastlingRight(pos, t.color, rook.value, held);
      }
      i := i + 1;
    }
    ReadRightsStep(b, Rights(held, pos.castlingRookSquare), seen, s, i);
    return Done(Rights(held, pos.castlingRookSquare), "");
  }

  lemma NoRightsIs()
    ensures NO_RIGHTS == Rights({}, map[])
  {
  }

  // ----- the board field -----

  /** Nothing has been put at the cursor or beyond it. */
  predicate Vacant(b: Board, file: int, rank: int) {
    forall s: Square :: !Before(s, file, rank) ==> b[s] == NoPiece
  }

  lemma VacantStart()
    ensures Vacant(NoBoard(), 0, 7) && Start() == Scan(NoBoard(), 0, 7, 0)
    ensures ReadBoard("") == At(Start())
  {
  }

  lemma VacantOn(b: Board, file: int, rank: int, file': int, rank': int)
    requires Vacant(b, file, rank) && 0 <= file <= 8 && (rank' < rank || (rank' == rank && file <= file'))
    ensures Vacant(b, file', rank')
  {
    hide File, Rank;
  }

  lemma VacantPut(b: Board, file: int, rank: int, pc: Piece)
    requires Vacant(b, file, rank) && 0 <= file < 8 && 0 <= rank < 8
    ensures b[MakeSquare(file, rank)] == NoPiece && Vacant(b[MakeSquare(file, rank) := pc], file + 1, rank)
  {
    var t := MakeSquare(file, rank);
    Coords(t);
    forall s: Square | !Before(s, file + 1, rank)
      ensures s != t && b[s] == NoPiece
    {
      hide File, Rank, MakeSquare;
    }
    hide File, Rank, MakeSquare;
  }

  lemma ReadMore(s: string, i: nat)
    requires i < |s|
    ensures ReadBoard(s[..i + 1]) == var r := ReadBoard(s[..i]); if r.Bad? then r else ReadChar(r.scan, s[i])
    ensures ReadBoard(s[..i]).At? ==> InRange(ReadBoard(s[..i]).scan)
  {
    assert s[..i + 1][..i] == s[..i];
    hide ReadChar;
  }

  lemma {:induction false} BadStays(s: string, i: nat, j: nat)
    requires i <= j <= |s| && ReadBoard(s[..i]).Bad?
    ensures ReadBoard(s[..j]) == ReadBoard(s[..i])
    decreases j
  {
    if i < j {
      BadStays(s, i, j - 1);
      ReadMore(s, j - 1);
      hide ReadBoard;
    }
  }

  lemma {:induction false} WordEndIs(s: string, i: nat)
    requires i <= |s| && NoBlank(s[..i])
    ensures i == |s| || IsSpace(s[i]) ==> WordEnd(s) == i
    ensures i <= WordEnd(s)
    decreases i
  {
    hide IsSpace;
    if i > 0 {
      assert s[..i][0] == s[0];
      assert s[1..][..i - 1] == s[..i][1..];
      WordEndIs(s[1..], i - 1);
    }
  }

  /** The result of one character, branch by branch. */
  lemma ReadCharIs(sc: Scan, c: char)
    requires InRange(sc)
    ensures ReadChar(sc, c) ==
            if c == '/' then
              if sc.file != 8 then Bad(RankNotFull)
              else if sc.rank == 0 then Bad(RankTooLow)
              else At(Scan(sc.board, 0, sc.rank - 1, sc.pieces))
            else if IsDigit(c) then
              if c == '0' || c == '9' then Bad(BadSkip)
              else if sc.file + DigitValue(c) > 8 then Bad(BadFile)
              else At(Scan(sc.board, sc.file + DigitValue(c), sc.rank, sc.pieces))
            else if PieceOf(c).None? || c == ' ' then Bad(BadPiece(c))
            else if sc.file >= 8 then Bad(BadFile)
            else if sc.pieces + 1 > 32 then Bad(TooManyOnBoard)
            else At(Scan(sc.board[MakeSquare(sc.file, sc.rank) := PieceOf(c).value], sc.file + 1, sc.rank,
                         sc.pieces + 1))
  {
    hide PieceOf, DigitValue, MakeSquare;
  }

  lemma PieceOfPiece(c: char)
    ensures PieceOf(c).Some? && c != ' ' ==> PieceOf(c).value.Piece?
  {
  }

  lemma InRangeIs(sc: Scan)
    ensures InRange(sc) <==> 0 <= sc.file <= 8 && 0 <= sc.rank < 8
  {
  }

  /** One character of the board field. */
  method PutChar(pos: Position, c: char, file: int, rank: int, pieces: nat) returns (r: Scanned)
    requires pos.Boards() && Vacant(pos.board, file, rank) && InRange(Scan(pos.board, file, rank, pieces))
    modifies pos`board, pos`byType, pos`byColor, pos`pieceCount
    ensures r == ReadChar(Scan(old(pos.board), file, rank, pieces), c)
    ensures r.At? ==> pos.Boards() && pos.board == r.scan.board && Vacant(pos.board, r.scan.file, r.scan.rank)
  {
    hide *;
    ghost var sc := Scan(pos.board, file, rank, pieces);
    ReadCharIs(sc, c);
    InRangeIs(sc);
    PieceOfPiece(c);
    if c == '/' {
      if file != 8 {
        return Bad(RankNotFull);
      }
      if rank == 0 {
        return Bad(RankTooLow);
      }
      VacantOn(pos.board, file, rank, 0, rank - 1);
      return At(Scan(pos.board, 0, rank - 1, pieces));
    }
    if IsDigit(c) {
      if c == '0' || c == '9' {
        return Bad(BadSkip);
      }
      if file + DigitValue(c) > 8 {
        return Bad(BadFile);
      }
      VacantOn(pos.board, file, rank, file + DigitValue(c), rank);
      return At(Scan(pos.board, file + DigitValue(c), rank, pieces));
    }
    var hit := PieceOf(c);
    if hit.None? || c == ' ' {
      return Bad(BadPiece(c));
    }
    if file >= 8 {
      return Bad(BadFile);
    }
    if pieces + 1 > 32 {
      return Bad(TooManyOnBoard);
    }
    VacantPut(pos.board, file, rank, hit.value);
    pos.PutPiece(hit.value, MakeSquare(file, rank), null);
    return At(Scan(pos.board, file + 1, rank, pieces + 1));
  }

  lemma NoBlankMore(s: string, i: nat)
    requires i < |s| && NoBlank(s[..i]) && !IsSpace(s[i])
    ensures NoBlank(s[..i + 1])
  {
    hide IsSpace;
  }

  lemma NoBlankStart(s: string)
    ensures NoBlank(s[..0])
  {
  }

  /** The board loop: character by character up to the first blank. */
  method ReadBoardField(pos: Position, s: string) returns (r: Scanned, i: nat)
    requires pos.Boards() && pos.board == NoBoard()
    modifies pos`board, pos`byType, pos`byColor, pos`pieceCount
    ensures r == ReadBoard(s[..WordEnd(s)])
    ensures r.At? ==> i == WordEnd(s) && pos.Boards() && pos.board == r.scan.board
  {
    hide *;
    VacantStart();
    NoBlankStart(s);
    assert s[..0] == "";
    i := 0;
    r := At(Scan(pos.board, 0, 7, 0));
    while i < |s| && !IsSpace(s[i])
      invariant i <= |s| && NoBlank(s[..i]) && r == ReadBoard(s[..i]) && r.At?
      invariant pos.Boards() && pos.board == r.scan.board && Vacant(pos.board, r.scan.file, r.scan.rank)
    {
      ReadMore(s, i);
      NoBlankMore(s, i);
      r := PutChar(pos, s[i], r.scan.file, r.scan.rank, r.scan.pieces);
      i := i + 1;
      if r.Bad? {
        WordEndIs(s, i);
        BadStays(s, i, WordEnd(s));
        return;
      }
    }
    WordEndIs(s, i);
  }

  // ----- the checks on the finished board -----

  lemma PawnsOff(b: Board, byType: seq<Bitboard>)
    requires TypesSynced(b, byType)
    ensures |byType| == 7 && 0 <= TypeIndex(Pawn) < 7
    ensures byType[TypeIndex(Pawn)] * (RankBB(0) + RankBB(7)) == {} <==> PawnsInside(b)
  {
    assert byType[TypeIndex(Pawn)] == OfType(b, Pawn);
    forall s: Square
      ensures s in OfType(b, Pawn) * (RankBB(0) + RankBB(7)) <==>
              b[s].Piece? && b[s].kind == Pawn && !(1 <= Rank(s) <= 6)
    {
    }
    hide OfType, RankBB;
  }

  lemma CountsAre(b: Board, pieceCount: seq<int>, c: Color, kind: PieceType)
    requires CountsSynced(b, pieceCount)
    ensures |pieceCount| == 16 && 0 <= PieceIndex(Piece(c, kind)) < 16
    ensures pieceCount[PieceIndex(Piece(c, kind))] == Count(b, c, kind)
  {
    CountOf(b, pieceCount, Piece(c, kind));
    hide PiecesOf;
  }

  /** Material of one side, as the source counts it. */
  method CheckMaterial(pieceCount: seq<int>, c: Color, ghost b: Board) returns (fault: Option<FenError>)
    requires CountsSynced(b, pieceCount)
    ensures fault == MaterialFault(b, c)
  {
    CountsAre(b, pieceCount, c, Pawn);
    CountsAre(b, pieceCount, c, Knight);
    CountsAre(b, pieceCount, c, Bishop);
    CountsAre(b, pieceCount, c, Rook);
    CountsAre(b, pieceCount, c, Queen);
    hide Count, PieceIndex, CountsSynced;
    var pawns := pieceCount[PieceIndex(Piece(c, Pawn))];
    if pawns > 8 {
      return Some(PawnCount(c));
    }
    var extraKnights := pieceCount[PieceIndex(Piece(c, Knight))] - 2;
    var extraBishops := pieceCount[PieceIndex(Piece(c, Bishop))] - 2;
    var extraRooks := pieceCount[PieceIndex(Piece(c, Rook))] - 2;
    var extraQueens := pieceCount[PieceIndex(Piece(c, Queen))] - 1;
    var additional := (if extraKnights > 0 then extraKnights else 0) + (if extraBishops > 0 then extraBishops else 0)
                      + (if extraRooks > 0 then extraRooks else 0) + (if extraQueens > 0 then extraQueens else 0);
    if additional > 8 - pawns {
      return Some(PieceCount(c));
    }
    return None;
  }

  lemma FaultIs(b: Board)
    ensures BoardFault(b) ==
            if !PawnsInside(b) then Some(PawnOnEdge)
            else if !HasKing(b, White) || !HasKing(b, Black) then Some(KingCount)
            else if MaterialFault(b, White).Some? then MaterialFault(b, White)
            else MaterialFault(b, Black)
  {
    hide PawnsInside, HasKing, MaterialFault;
  }

  /** The checks between the board field and the next one. */
  method CheckBoard(pos: Position) returns (fault: Option<FenError>)
    requires pos.Boards()
    ensures fault == BoardFault(pos.board)
  {
    hide *;
    ghost var b := pos.board;
    pos.BoardsAre();
    SyncedSizes(b, pos.byType, pos.byColor, pos.pieceCount);
    FaultIs(b);
    PawnsOff(b, pos.byType);
    OneKing(b, White);
    OneKing(b, Black);
    CountsAre(b, pos.pieceCount, White, King);
    CountsAre(b, pos.pieceCount, Black, King);
    if pos.byType[TypeIndex(Pawn)] * (RankBB(0) + RankBB(7)) != {} {
      return Some(PawnOnEdge);
    }
    if pos.pieceCount[PieceIndex(Piece(White, King))] != 1 || pos.pieceCount[PieceIndex(Piece(Black, King))] != 1 {
      return Some(KingCount);
    }
    fault := CheckMaterial(pos.pieceCount, White, b);
    if fault.Some? {
      return;
    }
    fault := CheckMaterial(pos.pieceCount, Black, b);
  }

  // ----- the first record -----

  lemma MaterialCounted(z: Zobrist, b: Board, pieceCount: seq<int>, c: Color)
    requires CountsSynced(b, pieceCount)
    ensures |pieceCount| == 16 && 0 <= PieceIndex(Piece(c, Knight)) < 16 && 0 <= PieceIndex(Piece(c, Bishop)) < 16
    ensures 0 <= PieceIndex(Piece(c, Rook)) < 16 && 0 <= PieceIndex(Piece(c, Queen)) < 16
    ensures NonPawnMaterial(b, c) ==
            pieceCount[PieceIndex(Piece(c, Knight))] * PieceValue(Knight) +
              pieceCount[PieceIndex(Piece(c, Bishop))] * PieceValue(Bishop)
            + pieceCount[PieceIndex(Piece(c, Rook))] * PieceValue(Rook) +
              pieceCount[PieceIndex(Piece(c, Queen))] * PieceValue(Queen)
  {
    CountOf(b, pieceCount, Piece(c, Knight));
    CountOf(b, pieceCount, Piece(c, Bishop));
    CountOf(b, pieceCount, Piece(c, Rook));
    CountOf(b, pieceCount, Piece(c, Queen));
    hide PiecesOf, PieceIndex, PieceValue, CountsSynced;
  }

  /** compute_non_pawn_material. */
  method ComputeNonPawnMaterial(pieceCount: seq<int>, c: Color, ghost z: Zobrist, ghost b: Board) returns (value: int)
    requires CountsSynced(b, pieceCount)
    ensures value == NonPawnMaterial(b, c)
  {
    hide *;
    MaterialCounted(z, b, pieceCount, c);
    value := pieceCount[PieceIndex(Piece(c, Knight))] * PieceValue(Knight) +
      pieceCount[PieceIndex(Piece(c, Bishop))] * PieceValue(Bishop)
             + pieceCount[PieceIndex(Piece(c, Rook))] * PieceValue(Rook) +
               pieceCount[PieceIndex(Piece(c, Queen))] * PieceValue(Queen);
  }

  /** The record memset leaves, with the fields the parser has read. */
  function ClearedRecord(rule50: nat, ep: Option<Square>, rights: set<Right>): StateInfo {
    StateInfo({}, {}, {}, [{}, {}], [0, 0], rule50, 0, ep, rights, {}, {}, [{}, {}], [{}, {}], seq(7, _ => {}),
              seq(7, _ => {}), NoPiece, 0)
  }

  lemma MaterialIsFresh(z: Zobrist, b: Board, st: StateInfo)
    requires st.nonPawnMaterial == [NonPawnMaterial(b, White), NonPawnMaterial(b, Black)] &&
             st.materialKey == MaterialKey(z, b)
    ensures MaterialFresh(z, b, st)
  {
    hide NonPawnMaterial, MaterialKey;
  }

  lemma KeysAreFresh(z: Zobrist, p: Pos, st: StateInfo)
    requires AuxKeysFresh(z, p.board, st)
    requires st.key ==
             Xor(Xor(Xor(Fold(z, WholeKey, p.board, 64), EpKey(z, p.ep)), SideKey(z, p.side)), z.castling(p.rights))
    ensures KeysFresh(z, p, st)
  {
    hide AuxKeysFresh, Fold, Xor, EpKey, SideKey;
  }

  lemma AuxKept(z: Zobrist, b: Board, st: StateInfo, st': StateInfo)
    requires AuxKeysFresh(z, b, st)
    requires st'.pawnKey == st.pawnKey && st'.minorPieceKey == st.minorPieceKey && st'.nonPawnKey == st.nonPawnKey
    ensures AuxKeysFresh(z, b, st')
  {
    hide Fold, Xor;
  }

  lemma CountersAreFresh(p: Pos, st: StateInfo)
    requires st.rule50 == p.rule50 && st.pliesFromNull == p.sinceNull && st.epSquare == p.ep &&
             st.castlingRights == p.rights
    ensures CountersFresh(p, st)
  {
  }

  /** Keys, material, checkers and caches, all from the board. */
  method FirstRecord(z: Zobrist, v0: View, pieceCount: seq<int>, ghost p: Pos) returns (st: StateInfo)
    requires HasKing(p.board, White) && HasKing(p.board, Black)
    requires v0.board == p.board && v0.side == p.side && Synced(v0.board, v0.byType, v0.byColor, pieceCount)
    requires v0.st == ClearedRecord(p.rule50, p.ep, p.rights) && p.sinceNull == 0
    ensures Fresh(z, p, st) && CountersFresh(p, st) && st.pliesFromNull == 0 && st.repetition == 0
  {
    hide *;
    ghost var b := v0.board;
    SyncedTables(b, v0.byType, v0.byColor, pieceCount);
    SyncedSizes(b, v0.byType, v0.byColor, pieceCount);
    ClearedIs(p.rule50, p.ep, p.rights);
    var white := ComputeNonPawnMaterial(pieceCount, White, z, b);
    var black := ComputeNonPawnMaterial(pieceCount, Black, z, b);
    var st0 := v0.st.(nonPawnMaterial := [white, black]);
    var st1, key := ComputeKey(z, v0.board, pieceCount, v0.side, st0.epSquare, st0.castlingRights, st0);
    var v := v0.(st := st1.(key := key));
    SidesHaveKings(b, v.side);
    KingSquareExact(b, v, v.side);
    TablesAre(v);
    CheckersScan(b, v, Flip(v.side), KingSquare(v, v.side), Pieces(v));
    var checkers := AttackersTo(v, KingSquare(v, v.side), Pieces(v)) * PiecesC(v, Flip(v.side));
    st := SetExtraBitboards(v.(st := st1.(key := key, checkers := checkers)));
    MaterialIsFresh(z, b, st);
    AuxKept(z, b, st1, st);
    KeysAreFresh(z, p, st);
    CountersAreFresh(p, st);
    AssembleFresh(z, p, st);
  }

  lemma ClearedIs(rule50: nat, ep: Option<Square>, rights: set<Right>)
    ensures var st := ClearedRecord(rule50, ep, rights);
            && st.rule50 == rule50 && st.pliesFromNull == 0 && st.epSquare == ep && st.castlingRights == rights
            && st.repetition == 0 && |st.threats| == 7
  {
  }

  lemma SidesHaveKings(b: Board, side: Color)
    requires HasKing(b, White) && HasKing(b, Black)
    ensures HasKing(b, side) && HasKing(b, Flip(side))
  {
    hide HasKing;
  }

  lemma CapturableIs(b: Board, side: Color, k: Square)
    requires HasKing(b, Flip(side)) && k == KingOf(b, Flip(side))
    ensures AttackersBB(b, side, k, Occupied(b)) != {} <==> InCheck(b, Flip(side))
  {
    FlipTwice(side);
    hide Attacker, KingOf, HasKing, Occupied;
    assert forall a: Square :: a in AttackersBB(b, side, k, Occupied(b)) <==> Attacker(b, side, a, k, Occupied(b));
    hide AttackersBB;
  }

  /** Whether the side to move could take the other king. */
  method KingCanBeTaken(v: View) returns (r: bool)
    requires TypesSynced(v.board, v.byType) && ColorsSynced(v.board, v.byColor) && HasKing(v.board, White) &&
             HasKing(v.board, Black)
    ensures HasKing(v.board, Flip(v.side)) && r == InCheck(v.board, Flip(v.side))
  {
    hide *;
    SidesHaveKings(v.board, v.side);
    KingSquareExact(v.board, v, Flip(v.side));
    TablesAre(v);
    CheckersScan(v.board, v, v.side, KingSquare(v, Flip(v.side)), Pieces(v));
    CapturableIs(v.board, v.side, KingSquare(v, Flip(v.side)));
    r := AttackersTo(v, KingSquare(v, Flip(v.side)), Pieces(v)) * PiecesC(v, v.side) != {};
  }

  lemma ChainSingle(z: Zobrist, p: Pos, st: StateInfo, rookSquare: map<Right, Square>, path: map<Right, Bitboard>,
                    mask: seq<set<Right>>)
    requires NodeFresh(z, p, st, rookSquare, path, mask) && st.pliesFromNull == 0 && st.repetition == 0
    ensures Chain(z, [p], [], [st], rookSquare, path, mask)
  {
    hide *;
    CountersSingle(st);
    RepetitionSingle(st);
    NodeSingle(z, p, st, rookSquare, path, mask);
    ChainOfOne(z, p, st, rookSquare, path, mask);
  }

  lemma ChainOfOne(z: Zobrist, p: Pos, st: StateInfo, rookSquare: map<Right, Square>, path: map<Right, Bitboard>,
                   mask: seq<set<Right>>)
    requires NodesFresh(z, [p], [st], rookSquare, path, mask) && ChainCounters([st]) && RepetitionsFresh([st])
    ensures Chain(z, [p], [], [st], rookSquare, path, mask)
  {
    hide NodesFresh, ChainCounters, RepetitionsFresh, Linked;
  }

  lemma NodeSingle(z: Zobrist, p: Pos, st: StateInfo, rookSquare: map<Right, Square>, path: map<Right, Bitboard>,
                   mask: seq<set<Right>>)
    requires NodeFresh(z, p, st, rookSquare, path, mask)
    ensures NodesFresh(z, [p], [st], rookSquare, path, mask)
  {
    hide NodeFresh;
  }

  lemma CountersSingle(st: StateInfo)
    requires st.pliesFromNull == 0
    ensures ChainCounters([st])
  {
  }

  lemma RepetitionSingle(st: StateInfo)
    requires st.repetition == 0 && st.pliesFromNull == 0
    ensures RepetitionsFresh([st])
  {
    assert forall d :: !RecursAt([st], 0, d);
  }

  lemma BuiltFresh(p: Pos, rookSquare: map<Right, Square>, path: map<Right, Bitboard>, mask: seq<set<Right>>)
    requires RightsBuilt(p.board, Rights(p.rights, p.rooks), rookSquare, path, mask)
    ensures PathsFresh(p, rookSquare, path) && MaskFresh(p, mask)
  {
    assert forall r, s: Square :: r in mask[s] <==> MaskBit(p.board, Rights(p.rights, p.rooks), r, s);
    hide IsKing, CastlingPath;
  }

  lemma NodeIs(z: Zobrist, p: Pos, st: StateInfo, rookSquare: map<Right, Square>, path: map<Right, Bitboard>,
               mask: seq<set<Right>>)
    requires WellFormed(p) && HasKing(p.board, White) && HasKing(p.board, Black) && Fresh(z, p, st)
    requires PathsFresh(p, rookSquare, path) && MaskFresh(p, mask)
    ensures NodeFresh(z, p, st, rookSquare, path, mask)
  {
    hide WellFormed, Fresh, PathsFresh, MaskFresh;
  }

  // ----- the fields behind the board -----

  datatype SetResult = Set(pos: Position) | Refused(error: FenError)

  /** The board is set up and nothing else has been recorded. */
  ghost predicate BoardSet(pos: Position)
    reads pos
  {
    && pos.Boards() && HasKing(pos.board, White) && HasKing(pos.board, Black) && BoardFault(pos.board).None?
    && pos.states == [] && pos.trail == [] && pos.words == []
  }

  lemma BoardSetIs(pos: Position)
    ensures BoardSet(pos) <==>
              && pos.Boards() && HasKing(pos.board, White) && HasKing(pos.board, Black) && BoardFault(pos.board).None?
              && pos.states == [] && pos.trail == [] && pos.words == []
  {
    hide HasKing, BoardFault;
  }

  /** The rights read so far are sound and recorded. */
  ghost predicate RightsSet(pos: Position, held: set<Right>)
    reads pos
  {
    && RightsSound(pos.board, held, pos.castlingRookSquare)
    && RightsBuilt(pos.board, Rights(held, pos.castlingRookSquare), pos.castlingRookSquare, pos.castlingPath,
                   pos.castlingRightsMask)
  }

  lemma RightsSetIs(pos: Position, held: set<Right>)
    ensures RightsSet(pos, held) <==>
              && RightsSound(pos.board, held, pos.castlingRookSquare)
              && RightsBuilt(pos.board, Rights(held, pos.castlingRookSquare), pos.castlingRookSquare, pos.castlingPath,
                             pos.castlingRightsMask)
  {
    hide RightsSound, RightsBuilt;
  }

  lemma CountersIs(b: Board, side: Color, rt: Rights, ep: Option<Square>, s: string)
    requires HasKing(b, White) && HasKing(b, Black)
    ensures HasKing(b, Flip(side))
    ensures ParseCounters(b, side, rt, ep, s) ==
            if !(0 <= Counters(s).0 <= 32767) then Rejected(BadRule50)
            else if !(0 <= Counters(s).1 <= 100000) then Rejected(BadGamePly)
            else if InCheck(b, Flip(side)) then Rejected(KingCapturable)
            else Parsed(Pos(b, side, rt.held, rt.rooks, ep, Counters(s).0, 0, PlyOf(Counters(s).1, side)))
  {
    hide Counters, InCheck, HasKing;
  }

  /** A parsed position is well-formed. */
  lemma ParsedFounded(b: Board, side: Color, rt: Rights, ep: Option<Square>, s: string)
    requires HasKing(b, White) && HasKing(b, Black) && BoardFault(b).None? && RightsSound(b, rt.held, rt.rooks)
    requires ep.Some? ==> EpSound(b, side, ep.value)
    ensures ParseCounters(b, side, rt, ep, s).Parsed? ==> WellFormed(ParseCounters(b, side, rt, ep, s).pos)
  {
    hide *;
    CountersShape(b, side, rt, ep, s);
    FaultlessBoard(b);
    if ParseCounters(b, side, rt, ep, s).Parsed? {
      ShapedBoard(b, ParseCounters(b, side, rt, ep, s).pos);
      Founded(ParseCounters(b, side, rt, ep, s).pos);
    }
  }

  lemma ShapedBoard(b: Board, p: Pos)
    requires HasKing(b, White) && HasKing(b, Black) && Shaped(b, p)
    ensures p.board == b
  {
    hide HasKing, InCheck, RightsSound, EpSound;
  }

  /** The counters, and the position's first record. */
  method SetCounters(pos: Position, held: set<Right>, ep: Option<Square>, s: string) returns (error: Option<FenError>)
    requires BoardSet(pos) && RightsSet(pos, held) && (ep.Some? ==> EpSound(pos.board, pos.sideToMove, ep.value))
    modifies pos`gamePly, pos`states, pos`trail
    ensures HasKing(pos.board, White) && HasKing(pos.board, Black)
    ensures var r := ParseCounters(pos.board, pos.sideToMove, Rights(held, pos.castlingRookSquare), ep, s);
            && (r.Rejected? ==> error == Some(r.error))
            && (r.Parsed? ==>
                 error == None && pos.Valid() && pos.Abs() == r.pos && pos.trail == [r.pos] && |pos.states| == 1)
  {
    hide *;
    BoardSetIs(pos);
    RightsSetIs(pos, held);
    var side := pos.sideToMove;
    ghost var rt := Rights(held, pos.castlingRookSquare);
    CountersIs(pos.board, side, rt, ep, s);
    ParsedFounded(pos.board, side, rt, ep, s);
    var counters := Counters(s);
    if !(0 <= counters.0 <= 32767) {
      return Some(BadRule50);
    }
    if !(0 <= counters.1 <= 100000) {
      return Some(BadGamePly);
    }
    pos.gamePly := PlyOf(counters.1, side);
    pos.BoardsAre();
    var v := View(pos.board, pos.byType, pos.byColor, side, pos.castlingRookSquare, pos.castlingPath,
                  ClearedRecord(counters.0, ep, held));
    ghost var p := Pos(pos.board, side, held, pos.castlingRookSquare, ep, counters.0, 0, PlyOf(counters.1, side));
    var st := FirstRecord(pos.z, v, pos.pieceCount, p);
    var capturable := KingCanBeTaken(v);
    if capturable {
      return Some(KingCapturable);
    }
    BuiltFresh(p, pos.castlingRookSquare, pos.castlingPath, pos.castlingRightsMask);
    NodeIs(pos.z, p, st, pos.castlingRookSquare, pos.castlingPath, pos.castlingRightsMask);
    ChainSingle(pos.z, p, st, pos.castlingRookSquare, pos.castlingPath, pos.castlingRightsMask);
    pos.states := [st];
    pos.trail := [p];
    pos.Rebuilt(p);
    return None;
  }

  lemma EpIs(b: Board, side: Color, rt: Rights, s: string)
    requires HasKing(b, White) && HasKing(b, Black)
    ensures ParseEp(b, side, rt, s) ==
            if s == "" then ParseCounters(b, side, rt, None, s)
            else if s[0] == '-' then ParseCounters(b, side, rt, None, s[1..])
            else if |s| == 1 then Rejected(EndOfStream)
            else if !('a' <= s[0] <= 'h') || s[1] != (if side == White then '6' else '3') then Rejected(BadEnPassant)
            else ParseCounters(b, side, rt, if EpSound(b, side, EpNamed(s[0], side)) then Some(EpNamed(s[0], side))
                else None, s[2..])
  {
    hide ParseCounters, EpSound, EpNamed, HasKing;
  }

  lemma EpNamedRank(c: char, side: Color)
    requires 'a' <= c <= 'h'
    ensures RelativeRank(side, EpNamed(c, side)) == 5
  {
  }

  /** The en-passant field. */
  method SetEp(pos: Position, held: set<Right>, s: string) returns (error: Option<FenError>)
    requires BoardSet(pos) && RightsSet(pos, held)
    modifies pos`gamePly, pos`states, pos`trail
    ensures HasKing(pos.board, White) && HasKing(pos.board, Black)
    ensures var r := ParseEp(pos.board, pos.sideToMove, Rights(held, pos.castlingRookSquare), s);
            && (r.Rejected? ==> error == Some(r.error))
            && (r.Parsed? ==>
                 error == None && pos.Valid() && pos.Abs() == r.pos && pos.trail == [r.pos] && |pos.states| == 1)
  {
    hide *;
    BoardSetIs(pos);
    var side := pos.sideToMove;
    EpIs(pos.board, side, Rights(held, pos.castlingRookSquare), s);
    if |s| == 0 {
      error := SetCounters(pos, held, None, s);
      return;
    }
    if s[0] == '-' {
      error := SetCounters(pos, held, None, s[1..]);
      return;
    }
    if |s| == 1 {
      return Some(EndOfStream);
    }
    if !('a' <= s[0] <= 'h') || s[1] != (if side == White then '6' else '3') {
      return Some(BadEnPassant);
    }
    var named := EpNamed(s[0], side);
    EpNamedRank(s[0], side);
    pos.BoardsAre();
    SidesHaveKings(pos.board, side);
    var v := View(pos.board, pos.byType, pos.byColor, side, pos.castlingRookSquare, pos.castlingPath,
                  ClearedRecord(0, None, held));
    var keep := KeptOnParse(v, named);
    if keep {
      error := SetCounters(pos, held, Some(named), s[2..]);
    } else {
      error := SetCounters(pos, held, None, s[2..]);
    }
  }

  lemma SideIs(b: Board, s: string)
    requires HasKing(b, White) && HasKing(b, Black)
    ensures ParseSide(b, s) ==
            if s == "" then Rejected(EndOfStream)
            else if s[0] != 'w' && s[0] != 'b' then Rejected(BadSide(s[0]))
            else if |s| < 2 || !IsSpace(s[1]) then Rejected(NoSpaceAfterSide)
            else if ReadRights(b, NO_RIGHTS, 0, s[2..]).Failed? then Rejected(ReadRights(b, NO_RIGHTS, 0, s[2..]).error)
            else ParseEp(b, if s[0] == 'w' then White else Black, ReadRights(b, NO_RIGHTS, 0, s[2..]).rights,
                         ReadRights(b, NO_RIGHTS, 0, s[2..]).rest)
  {
    hide HasKing, ReadRights, ParseEp, IsSpace;
  }

  /** The side to move and the castling field. */
  method SetSide(pos: Position, s: string) returns (error: Option<FenError>)
    requires BoardSet(pos)
    requires pos.castlingRookSquare == map[] && pos.castlingPath == map[] && pos.castlingRightsMask == seq(64, _ => {})
    modifies pos`sideToMove, pos`gamePly, pos`states, pos`trail, pos`castlingRookSquare, pos`castlingPath,
             pos`castlingRightsMask
    ensures HasKing(pos.board, White) && HasKing(pos.board, Black)
    ensures var r := ParseSide(pos.board, s);
            && (r.Rejected? ==> error == Some(r.error))
            && (r.Parsed? ==>
                 error == None && pos.Valid() && pos.Abs() == r.pos && pos.trail == [r.pos] && |pos.states| == 1)
  {
    hide *;
    BoardSetIs(pos);
    SideIs(pos.board, s);
    if |s| == 0 {
      return Some(EndOfStream);
    }
    if s[0] != 'w' && s[0] != 'b' {
      return Some(BadSide(s[0]));
    }
    pos.sideToMove := if s[0] == 'w' then White else Black;
    if |s| < 2 || !IsSpace(s[1]) {
      return Some(NoSpaceAfterSide);
    }
    var read := ReadCastling(pos, s[2..]);
    if read.Failed? {
      return Some(read.error);
    }
    BuiltRooks(pos.board, read.rights, pos.castlingRookSquare, pos.castlingPath, pos.castlingRightsMask);
    BoardSetIs(pos);
    RightsSetIs(pos, read.rights.held);
    error := SetEp(pos, read.rights.held, read.rest);
  }

  lemma BuiltRooks(b: Board, rt: Rights, rookSquare: map<Right, Square>, path: map<Right, Bitboard>,
                   mask: seq<set<Right>>)
    requires RightsBuilt(b, rt, rookSquare, path, mask)
    ensures rt == Rights(rt.held, rookSquare)
  {
    hide MaskBit, CastlingPath;
  }

  lemma RestIs(read: Scanned, rest: string)
    ensures ParseRest(read, rest) ==
            if read.Bad? then Rejected(read.error)
            else if rest == "" then Rejected(EndOfStream)
            else if read.scan.file != 8 || read.scan.rank != 0 then Rejected(CursorNotAtEnd)
            else if BoardFault(read.scan.board).Some? then Rejected(BoardFault(read.scan.board).value)
            else ParseSide(read.scan.board, rest[1..])
  {
    hide BoardFault, ParseSide;
  }

  lemma FenIsRest(s: string)
    ensures ParseFen(s) == ParseRest(ReadBoard(s[..WordEnd(s)]), s[WordEnd(s)..])
  {
    hide ParseRest, ReadBoard, WordEnd;
  }

  lemma FaultlessKings(b: Board)
    requires BoardFault(b).None?
    ensures HasKing(b, White) && HasKing(b, Black)
  {
    hide *;
  }

  lemma RestSlice(s: string, i: nat)
    requires i < |s|
    ensures s[i..] != "" && s[i..][1..] == s[i + 1..]
  {
  }

  /** pos_set_reason: the text is accepted exactly when ParseFen accepts it, with the same reason
      otherwise, and what it builds is a valid position with no history. */
  method SetReason(z: Zobrist, fen: string) returns (r: SetResult)
    ensures ParseFen(fen).Rejected? ==> r == Refused(ParseFen(fen).error)
    ensures ParseFen(fen).Parsed? ==>
              && r.Set? && fresh(r.pos) && r.pos.z == z && r.pos.Valid()
              && r.pos.Abs() == ParseFen(fen).pos && r.pos.trail == [r.pos.Abs()] && r.pos.words == []
              && |r.pos.states| == 1
  {
    hide *;
    FenIsRest(fen);
    var pos := new Position.Empty(z);
    var read, i := ReadBoardField(pos, fen);
    RestIs(ReadBoard(fen[..WordEnd(fen)]), fen[WordEnd(fen)..]);
    if read.Bad? {
      return Refused(read.error);
    }
    if i == |fen| {
      return Refused(EndOfStream);
    }
    RestSlice(fen, i);
    if read.scan.file != 8 || read.scan.rank != 0 {
      return Refused(CursorNotAtEnd);
    }
    var fault := CheckBoard(pos);
    if fault.Some? {
      return Refused(fault.value);
    }
    FaultlessKings(pos.board);
    BoardSetIs(pos);
    var error := SetSide(pos, fen[i + 1..]);
    if error.Some? {
      return Refused(error.value);
    }
    return Set(pos);
  }

  // ----- writing -----

  lemma RunOnRank(b: Board, rank: int, f: int)
    requires 0 <= rank < 8 && 0 <= f < 8
    ensures var n := EmptyRun(b, rank, f);
            && RankText(b, rank, f) == (if n > 0 then Numeral(n) else "") + RankText(b, rank, f + n)
            && (f + n < 8 ==>
                 RankText(b, rank, f + n) == [CharOf(b[MakeSquare(f + n, rank)])] + RankText(b, rank, f + n + 1))
  {
    hide *;
    var n := EmptyRun(b, rank, f);
    RankTextIs(b, rank, f);
    RunGoesOn(b, rank, f);
    if b[MakeSquare(f, rank)] == NoPiece {
      EmptyRunStarts(b, rank, f);
    } else {
      Appended("", "", RankText(b, rank, f));
    }
    if f + n < 8 {
      RankTextIs(b, rank, f + n);
    }
  }

  lemma RunGoesOn(b: Board, rank: int, f: int)
    requires 0 <= rank < 8 && 0 <= f <= 8
    ensures f < 8 && b[MakeSquare(f, rank)] == NoPiece ==> EmptyRun(b, rank, f) == 1 + EmptyRun(b, rank, f + 1)
    ensures f == 8 || b[MakeSquare(f, rank)] != NoPiece ==> EmptyRun(b, rank, f) == 0
  {
  }

  lemma RankEnds(b: Board, rank: int)
    requires 0 <= rank < 8
    ensures RankText(b, rank, 8) == ""
  {
  }

  /** One rank of the board field. */
  method WriteRank(b: Board, rank: int) returns (text: string)
    requires 0 <= rank < 8
    ensures text == RankText(b, rank, 0)
  {
    hide *;
    text := "";
    RankEnds(b, rank);
    var f := 0;
    while f < 8
      invariant 0 <= f <= 8 && text + RankText(b, rank, f) == RankText(b, rank, 0)
    {
      RunOnRank(b, rank, f);
      ghost var run, from, done := EmptyRun(b, rank, f), f, text;
      var empty := 0;
      RunGoesOn(b, rank, f);
      while f < 8 && b[MakeSquare(f, rank)] == NoPiece
        invariant 0 <= f <= 8 && f == from + empty && run == empty + EmptyRun(b, rank, f)
        invariant f == 8 || b[MakeSquare(f, rank)] != NoPiece ==> EmptyRun(b, rank, f) == 0
      {
        RunGoesOn(b, rank, f);
        empty := empty + 1;
        f := f + 1;
        RunGoesOn(b, rank, f);
      }
      if empty > 0 {
        text := text + Numeral(empty);
      }
      assert text + RankText(b, rank, f) == done + RankText(b, rank, from) by {
        Appended(done, if empty > 0 then Numeral(empty) else "", RankText(b, rank, f));
      }
      if f < 8 {
        Appended(text, [CharOf(b[MakeSquare(f, rank)])], RankText(b, rank, f + 1));
        text := text + [CharOf(b[MakeSquare(f, rank)])];
        f := f + 1;
      }
    }
  }

  lemma Appended(a: string, b: string, c: string)
    ensures a + (b + c) == a + b + c && a + "" == a
  {
  }

  lemma RooksKnown(p: Pos)
    requires WellFormed(p)
    ensures forall r :: r in p.rights ==> r in p.rooks
  {
    hide HasKing, InCheck, PawnsInside, EpSound, IsKing;
  }

  lemma RightsTextIs(rights: set<Right>, rooks: map<Right, Square>, chess960: bool)
    requires forall r :: r in rights ==> r in rooks
    ensures RightsText(rights, rooks, chess960) == if rights == {} then "-" else HeldText(rights, rooks, chess960, 0)
  {
    hide HeldText;
  }

  /** The castling field, one right after the other. */
  method WriteRights(rights: set<Right>, rooks: map<Right, Square>, chess960: bool) returns (text: string)
    requires forall r :: r in rights ==> r in rooks
    ensures text == RightsText(rights, rooks, chess960)
  {
    hide *;
    RightsTextIs(rights, rooks, chess960);
    if rights == {} {
      return "-";
    }
    OrderSize();
    text := "";
    Appended("", "", HeldText(rights, rooks, chess960, 0));
    for i := 0 to 4
      invariant text + HeldText(rights, rooks, chess960, i) == HeldText(rights, rooks, chess960, 0)
    {
      HeldTextIs(rights, rooks, chess960, i);
      if ORDER[i] in rights {
        Appended(text, [RightChar(ORDER[i], rooks[ORDER[i]], chess960)], HeldText(rights, rooks, chess960, i + 1));
        text := text + [RightChar(ORDER[i], rooks[ORDER[i]], chess960)];
      }
    }
    HeldTextIs(rights, rooks, chess960, 4);
  }

  lemma FenParts(p: Pos, chess960: bool)
    requires forall r :: r in p.rights ==> r in p.rooks
    ensures Fen.Fen(p, chess960) ==
            BoardText(p.board, 7) + " " + SideText(p.side) + RightsText(p.rights, p.rooks, chess960)
            + " " + EpText(p.ep) + (" " + Numeral(p.rule50) + (" " + Numeral(FullMove(p))))
  {
    hide *;
    FenIs(p, chess960);
    CountersTextIs(p);
    Regrouped(BoardText(p.board, 7), " ", SideText(p.side), RightsText(p.rights, p.rooks, chess960), " ", EpText(p.ep),
              CountersText(p));
  }

  lemma CountersTextIs(p: Pos)
    ensures CountersText(p) == " " + Numeral(p.rule50) + (" " + Numeral(FullMove(p)))
  {
    hide Numeral, FullMove;
  }

  lemma Regrouped(a: string, b: string, c: string, d: string, e: string, f: string, g: string)
    ensures a + (b + (c + (d + (e + (f + g))))) == a + b + c + d + e + f + g
  {
    Appended(a, b, c + (d + (e + (f + g))));
    Appended(a + b, c, d + (e + (f + g)));
    Appended(a + b + c, d, e + (f + g));
    Appended(a + b + c + d, e, f + g);
    Appended(a + b + c + d + e, f, g);
  }

  lemma AbsParts(pos: Position)
    requires |pos.states| > 0
    ensures var p, st := pos.Abs(), pos.states[|pos.states| - 1];
            && p.board == pos.board && p.side == pos.sideToMove && p.rights == st.castlingRights
            && p.rooks == pos.castlingRookSquare
            && p.ep == st.epSquare && p.rule50 == st.rule50 && p.gamePly == pos.gamePly
  {
  }

  lemma WholeMoves(p: Pos)
    ensures var n := p.gamePly - if p.side == Black then 1 else 0;
            FullMove(p) == 1 + if n < 0 then 0 else n / 2
  {
  }

  /** pos_fen. */
  method WriteFen(pos: Position, chess960: bool) returns (buf: string)
    requires pos.Valid()
    ensures forall r :: r in pos.Abs().rights ==> r in pos.Abs().rooks
    ensures buf == Fen.Fen(pos.Abs(), chess960)
  {
    hide *;
    pos.Top();
    pos.Seen();
    ghost var p := pos.Abs();
    RooksKnown(p);
    AbsParts(pos);
    var st := pos.states[|pos.states| - 1];
    var b := pos.board;
    buf := "";
    Appended("", "", BoardText(b, 7));
    for r := 8 downto 0
      invariant buf + (if r > 0 then BoardText(b, r - 1) else "") == BoardText(b, 7)
    {
      BoardTextIs(b, r);
      var text := WriteRank(b, r);
      if r > 0 {
        Appended(buf, text, "/" + BoardText(b, r - 1));
        Appended(buf + text, "/", BoardText(b, r - 1));
        buf := buf + text + "/";
      } else {
        buf := buf + text;
        Appended(buf, "", "");
      }
    }
    FenParts(p, chess960);
    Appended(buf, "", "");
    buf := buf + " " + SideText(pos.sideToMove);
    var rights := WriteRights(st.castlingRights, pos.castlingRookSquare, chess960);
    buf := buf + rights;
    buf := buf + " " + EpText(st.epSquare);
    var n := pos.gamePly - if pos.sideToMove == Black then 1 else 0;
    WholeMoves(p);
    buf := buf + (" " + Numeral(st.rule50) + (" " + Numeral(1 + if n < 0 then 0 else n / 2)));
  }
}
