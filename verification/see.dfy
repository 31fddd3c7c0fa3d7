/** Static exchange evaluation: the swap loop against the recursive value of the exchange. */
module Exchange {
  import opened Squares
  import opened Types
  import opened Board
  import opened Attacks
  import opened Pins
  import opened Derived
  import opened State
  import opened Views
  import opened Caches

  function ValueOf(pc: Piece): int {
    if pc.Piece? then PieceValue(pc.kind) else 0
  }

  // ----- the plain exchange -----

  /** The pieces still in occ that reach t. */
  function Attackers(b: Board, t: Square, occ: Bitboard): Bitboard {
    set a: Square | a in occ && b[a].Piece? && Hits(b[a], a, t, occ)
  }

  /** Those of them c may take with: a piece shielding its own king stays while any of the
      pinners is still on the board. */
  ghost function Takers(b: Board, t: Square, occ: Bitboard, c: Color): Bitboard
    requires HasKing(b, c)
  {
    var k := KingOf(b, c);
    var own := Attackers(b, t, occ) * OfColor(b, c);
    if PinnersBB(b, Flip(c), k) * occ != {} then own - BlockersBB(b, Flip(c), k) else own
  }

  /** The least valuable of a set of pieces, the lowest square first. */
  predicate IsLeast(b: Board, s: Bitboard, a: Square) {
    && a in s && b[a].Piece?
    && forall x :: x in s && b[x].Piece? ==>
         TypeIndex(b[a].kind) < TypeIndex(b[x].kind) || (b[a].kind == b[x].kind && a <= x)
  }

  predicate AllPieces(b: Board, s: Bitboard) {
    forall x :: x in s ==> b[x].Piece?
  }

  /** What c gains, to move, from a piece worth `standing` on t: nothing, or what taking it with
      the least valuable piece gains. */
  ghost function Gain(b: Board, t: Square, occ: Bitboard, c: Color, standing: int): int
    requires HasKing(b, White) && HasKing(b, Black)
    decreases |occ|, 1
  {
    assert c == White || c == Black;
    if Takers(b, t, occ, c) == {} then 0 else GainBy(b, t, occ, c, standing, Least(b, t, occ, c))
  }

  /** Taking with a: that piece less what the other side gains back, or nothing when that is
      better. The king takes only where nothing takes back. */
  ghost function GainBy(b: Board, t: Square, occ: Bitboard, c: Color, standing: int, a: Square): int
    requires HasKing(b, White) && HasKing(b, Black) && b[a].Piece? && a in occ
    decreases |occ|, 0
  {
    if b[a].kind == King then
      if Attackers(b, t, occ) - OfColor(b, c) != {} then 0 else Max(0, standing)
    else
      Fewer(occ, a);
      Max(0, standing - Gain(b, t, occ - {a}, Flip(c), PieceValue(b[a].kind)))
  }

  function Max(x: int, y: int): int {
    if x < y then y else x
  }

  lemma TakersShape(b: Board, t: Square, occ: Bitboard, c: Color)
    requires HasKing(b, c)
    ensures Takers(b, t, occ, c) <= Attackers(b, t, occ) * OfColor(b, c)
    ensures AllPieces(b, Takers(b, t, occ, c)) && Takers(b, t, occ, c) <= occ
  {
    hide Hits, KingOf, PinnersBB, BlockersBB;
  }

  ghost function Least(b: Board, t: Square, occ: Bitboard, c: Color): (a: Square)
    requires HasKing(b, c) && Takers(b, t, occ, c) != {}
    ensures IsLeast(b, Takers(b, t, occ, c), a) && a in occ
  {
    TakersShape(b, t, occ, c);
    LeastExists(b, Takers(b, t, occ, c));
    var a: Square :| IsLeast(b, Takers(b, t, occ, c), a);
    a
  }

  lemma {:induction false} LeastExists(b: Board, s: Bitboard)
    requires s != {} && AllPieces(b, s)
    ensures exists a: Square :: IsLeast(b, s, a)
    decreases |s|
  {
    var x: Square :| x in s;
    var rest := s - {x};
    if rest == {} {
      assert s == {x};
      assert IsLeast(b, s, x);
    } else {
      LeastExists(b, rest);
      var y: Square :| IsLeast(b, rest, y);
      var a := if TypeIndex(b[x].kind) < TypeIndex(b[y].kind) || (b[x].kind == b[y].kind && x <= y) then x else y;
      assert IsLeast(b, s, a);
    }
  }

  lemma LeastUnique(b: Board, s: Bitboard, x: Square, y: Square)
    requires IsLeast(b, s, x) && IsLeast(b, s, y)
    ensures x == y
  {
  }

  /** The exchange a normal move starts. */
  ghost function ExchangeValue(b: Board, us: Color, m: Move): int
    requires HasKing(b, White) && HasKing(b, Black)
  {
    var occ := Xor(Xor(Occupied(b), {m.from}), {m.to});
    ValueOf(b[m.to]) - Gain(b, m.to, occ, Flip(us), ValueOf(b[m.from]))
  }

  // ----- x-rays -----

  /** Lifting an attacker of t uncovers only sliders on its own line to t. */
  lemma Uncovered(b: Board, t: Square, occ: Bitboard, s: Square, a: Square)
    requires s in Attackers(b, t, occ)
    ensures a in Attackers(b, t, occ - {s}) <==>
              || (a in Attackers(b, t, occ) && a != s)
              || (a in occ - {s} && b[a].Piece? && BishopLine(s, t) && BishopLine(a, t) && Clear(a, t, occ - {s})
                  && (b[a].kind == Bishop || b[a].kind == Queen))
              || (a in occ - {s} && b[a].Piece? && RookLine(s, t) && RookLine(a, t) && Clear(a, t, occ - {s})
                  && (b[a].kind == Rook || b[a].kind == Queen))
  {
    if Inside(a, s, t) {
      InsideSym(a, s, t);
      InsideKind(t, s, a);
      LineSym(t, s);
      LineSym(t, a);
    }
    hide Inside, RookLine, BishopLine, KnightStep, KingStep, PawnStep;
    assert Clear(a, t, occ) ==> Clear(a, t, occ - {s});
    assert !Inside(a, s, t) && Clear(a, t, occ - {s}) ==> Clear(a, t, occ);
  }

  /** The lines each kind of attacker stands on. */
  lemma AttackerLine(b: Board, t: Square, occ: Bitboard, s: Square)
    requires s in Attackers(b, t, occ)
    ensures b[s].kind == Pawn || b[s].kind == Bishop ==> BishopLine(s, t) && !RookLine(s, t)
    ensures b[s].kind == Rook ==> RookLine(s, t) && !BishopLine(s, t)
    ensures b[s].kind == Knight ==> !RookLine(s, t) && !BishopLine(s, t)
  {
    Coords(s); Coords(t);
    hide File, Rank, Clear;
  }

  /** One lifted attacker, the source's incremental update of the attackers. */
  lemma AttackersUpdated(b: Board, v: View, t: Square, occ: Bitboard, attackers: Bitboard, s: Square)
    requires TypesSynced(b, v.byType) && attackers * occ == Attackers(b, t, occ) && s in Attackers(b, t, occ)
    ensures var occ' := occ - {s};
            var diagonal := AttacksBB(Bishop, t, occ') * (v.byType[TypeIndex(Bishop)] + v.byType[TypeIndex(Queen)]);
            var straight := AttacksBB(Rook, t, occ') * (v.byType[TypeIndex(Rook)] + v.byType[TypeIndex(Queen)]);
            && (b[s].kind == Pawn || b[s].kind == Bishop ==> (attackers + diagonal) * occ' == Attackers(b, t, occ'))
            && (b[s].kind == Knight ==> attackers * occ' == Attackers(b, t, occ'))
            && (b[s].kind == Rook ==> (attackers + straight) * occ' == Attackers(b, t, occ'))
            && (b[s].kind == Queen ==> (attackers + (diagonal + straight)) * occ' == Attackers(b, t, occ'))
  {
    var occ' := occ - {s};
    AttackerLine(b, t, occ, s);
    forall a: Square
      ensures a in Attackers(b, t, occ') <==>
                || (a in attackers && a in occ')
                || (a in occ' && BishopLine(s, t) &&
                     a in AttacksBB(Bishop, t, occ') * (v.byType[TypeIndex(Bishop)] + v.byType[TypeIndex(Queen)]))
                || (a in occ' && RookLine(s, t) &&
                     a in AttacksBB(Rook, t, occ') * (v.byType[TypeIndex(Rook)] + v.byType[TypeIndex(Queen)]))
      ensures a in occ' &&
              a in AttacksBB(Bishop, t, occ') * (v.byType[TypeIndex(Bishop)] + v.byType[TypeIndex(Queen)]) ==>
              a in Attackers(b, t, occ')
      ensures a in occ' && a in AttacksBB(Rook, t, occ') * (v.byType[TypeIndex(Rook)] + v.byType[TypeIndex(Queen)]) ==>
              a in Attackers(b, t, occ')
    {
      OneUpdated(b, v, t, occ, attackers, s, a);
    }
    hide Attackers, AttacksBB, BishopLine, RookLine, TypesSynced;
    assert b[s].kind == Queen ==> BishopLine(s, t) || RookLine(s, t) by { QueenLine(b, t, occ, s); }
  }

  lemma QueenLine(b: Board, t: Square, occ: Bitboard, s: Square)
    requires s in Attackers(b, t, occ)
    ensures b[s].kind == Queen ==> BishopLine(s, t) || RookLine(s, t)
  {
  }

  lemma OneUpdated(b: Board, v: View, t: Square, occ: Bitboard, attackers: Bitboard, s: Square, a: Square)
    requires TypesSynced(b, v.byType) && attackers * occ == Attackers(b, t, occ) && s in Attackers(b, t, occ)
    ensures var occ' := occ - {s};
            var diagonal :=
              a in AttacksBB(Bishop, t, occ') * (v.byType[TypeIndex(Bishop)] + v.byType[TypeIndex(Queen)]);
            var straight := a in AttacksBB(Rook, t, occ') * (v.byType[TypeIndex(Rook)] + v.byType[TypeIndex(Queen)]);
            && (a in Attackers(b, t, occ') <==>
                  || (a in attackers && a in occ')
                  || (a in occ' && BishopLine(s, t) && diagonal) || (a in occ' && RookLine(s, t) && straight))
            && (a in occ' && (diagonal || straight) ==> a in Attackers(b, t, occ'))
  {
    var occ' := occ - {s};
    Uncovered(b, t, occ, s, a);
    assert a in attackers && a in occ <==> a in Attackers(b, t, occ);
    assert forall kind: PieceType :: a in v.byType[TypeIndex(kind)] <==> b[a].Piece? && b[a].kind == kind;
    ClearSym(a, t, occ');
    LineSym(a, t);
    assert a in AttacksBB(Bishop, t, occ') <==> BishopLine(t, a) && Clear(t, a, occ');
    assert a in AttacksBB(Rook, t, occ') <==> RookLine(t, a) && Clear(t, a, occ');
    hide Clear, BishopLine, RookLine, KnightStep, KingStep, PawnStep, TypesSynced, AttacksBB;
  }

  // ----- unfolding the exchange -----

  lemma GainNone(b: Board, t: Square, occ: Bitboard, c: Color, standing: int)
    requires HasKing(b, White) && HasKing(b, Black) && HasKing(b, c) && Takers(b, t, occ, c) == {}
    ensures Gain(b, t, occ, c, standing) == 0
  {
    hide Takers;
  }

  lemma GainTake(b: Board, t: Square, occ: Bitboard, c: Color, standing: int, a: Square)
    requires HasKing(b, White) && HasKing(b, Black) && HasKing(b, c) && IsLeast(b, Takers(b, t, occ, c), a)
    ensures a in Attackers(b, t, occ) && a in occ && IsColor(b, c, a)
    ensures Gain(b, t, occ, c, standing) ==
            if b[a].kind == King then
              if Attackers(b, t, occ) - OfColor(b, c) != {} then 0 else Max(0, standing)
            else Max(0, standing - Gain(b, t, occ - {a}, Flip(c), PieceValue(b[a].kind)))
  {
    hide *;
    TakersShape(b, t, occ, c);
    LeastIn(b, Takers(b, t, occ, c), a);
    LeastUnique(b, Takers(b, t, occ, c), a, Least(b, t, occ, c));
    OwnPieces(b, c);
    GainIs(b, t, occ, c, standing);
  }

  lemma LeastIn(b: Board, s: Bitboard, a: Square)
    requires IsLeast(b, s, a)
    ensures a in s && b[a].Piece?
  {
  }

  lemma OwnPieces(b: Board, c: Color)
    ensures forall a: Square :: a in OfColor(b, c) <==> IsColor(b, c, a)
  {
  }

  /** Gain, one step unfolded. */
  lemma GainIs(b: Board, t: Square, occ: Bitboard, c: Color, standing: int)
    requires HasKing(b, White) && HasKing(b, Black) && HasKing(b, c) && Takers(b, t, occ, c) != {}
    ensures var a := Least(b, t, occ, c);
            && b[a].Piece?
            && Gain(b, t, occ, c, standing) ==
               if b[a].kind == King then
                 if Attackers(b, t, occ) - OfColor(b, c) != {} then 0 else Max(0, standing)
               else Max(0, standing - Gain(b, t, occ - {a}, Flip(c), PieceValue(b[a].kind)))
  {
    hide *;
    TakersShape(b, t, occ, c);
    LeastIn(b, Takers(b, t, occ, c), Least(b, t, occ, c));
    GainStarts(b, t, occ, c, standing);
    GainByIs(b, t, occ, c, standing, Least(b, t, occ, c));
  }

  lemma GainStarts(b: Board, t: Square, occ: Bitboard, c: Color, standing: int)
    requires HasKing(b, White) && HasKing(b, Black) && HasKing(b, c) && Takers(b, t, occ, c) != {}
    requires b[Least(b, t, occ, c)].Piece?
    ensures Gain(b, t, occ, c, standing) == GainBy(b, t, occ, c, standing, Least(b, t, occ, c))
  {
    hide GainBy, Takers, Least, HasKing;
  }

  lemma GainByIs(b: Board, t: Square, occ: Bitboard, c: Color, standing: int, a: Square)
    requires HasKing(b, White) && HasKing(b, Black) && b[a].Piece? && a in occ
    ensures GainBy(b, t, occ, c, standing, a) ==
            if b[a].kind == King then
              if Attackers(b, t, occ) - OfColor(b, c) != {} then 0 else Max(0, standing)
            else Max(0, standing - Gain(b, t, occ - {a}, Flip(c), PieceValue(b[a].kind)))
  {
    hide Gain, Attackers, HasKing, Max, Flip, OfColor, PieceValue;
  }

  /** Stopping is always allowed, and nothing gained exceeds the piece that stands. */
  lemma {:induction false} GainBounds(b: Board, t: Square, occ: Bitboard, c: Color, standing: int)
    requires HasKing(b, White) && HasKing(b, Black) && standing >= 0
    ensures 0 <= Gain(b, t, occ, c, standing) <= standing
    decreases |occ|
  {
    hide *;
    SideHasKing(b, c);
    MaxIs(standing, 0);
    if Takers(b, t, occ, c) == {} {
      GainNone(b, t, occ, c, standing);
    } else {
      GainIs(b, t, occ, c, standing);
      var a := Least(b, t, occ, c);
      if b[a].kind != King {
        Fewer(occ, a);
        PieceValues(b[a].kind);
        GainBounds(b, t, occ - {a}, Flip(c), PieceValue(b[a].kind));
        MaxIs(standing, Gain(b, t, occ - {a}, Flip(c), PieceValue(b[a].kind)));
      }
    }
  }

  lemma MaxIs(standing: int, x: int)
    requires standing >= 0
    ensures Max(0, standing) == standing && (x >= 0 ==> 0 <= Max(0, standing - x) <= standing)
  {
  }

  lemma PieceValues(kind: PieceType)
    ensures 0 <= PieceValue(kind) <= PieceValue(Queen)
  {
  }

  /** The lowest piece of the first kind present is the least. */
  lemma PickLeast(b: Board, v: View, s: Bitboard, kind: PieceType)
    requires TypesSynced(b, v.byType) && AllPieces(b, s)
    requires forall low: PieceType :: TypeIndex(low) < TypeIndex(kind) ==> s * v.byType[TypeIndex(low)] == {}
    requires s * v.byType[TypeIndex(kind)] != {}
    ensures var a := Lsb(s * v.byType[TypeIndex(kind)]); IsLeast(b, s, a) && b[a].kind == kind
  {
    var a := Lsb(s * v.byType[TypeIndex(kind)]);
    forall x | x in s && b[x].Piece?
      ensures TypeIndex(b[a].kind) < TypeIndex(b[x].kind) || (b[a].kind == b[x].kind && a <= x)
    {
      assert v.byType[TypeIndex(b[x].kind)] == OfType(b, b[x].kind);
      assert x in s * v.byType[TypeIndex(b[x].kind)];
      SameIndex(kind, b[x].kind);
    }
    assert v.byType[TypeIndex(kind)] == OfType(b, kind);
  }

  lemma SameIndex(x: PieceType, y: PieceType)
    ensures TypeIndex(x) == TypeIndex(y) ==> x == y
  {
  }

  // ----- the swap loop -----

  /** What `res` and `swap` stand for when a piece worth `standing` has just landed on t. */
  ghost predicate SwapInv(goal: bool, res: int, swap: int, standing: int, gain: int) {
    && 0 <= standing <= PieceValue(Queen) && (res == 0 || res == 1)
    && (res == 1 ==> 0 < swap <= standing && (goal <==> gain <= standing - swap))
    && (res == 0 ==> 0 <= swap < standing && (goal <==> gain >= standing - swap))
  }

  /** One more capture, by a piece worth `taker`. */
  lemma SwapStep(goal: bool, res: int, swap: int, standing: int, gain: int, taker: int, gain': int)
    requires SwapInv(goal, res, swap, standing, gain)
    requires gain == Max(0, standing - gain') && 0 <= gain' <= taker <= PieceValue(Queen)
    ensures var res', swap' := 1 - res, taker - swap;
            && (swap' < res' ==> (goal <==> res' != 0))
            && (swap' >= res' ==> SwapInv(goal, res', swap', taker, gain'))
            && (taker == PieceValue(Queen) ==> swap' >= res')
  {
  }

  /** see_ge. */
  method SeeGe(v: View, m: Move, threshold: int) returns (r: bool)
    requires HasKing(v.board, White) && HasKing(v.board, Black) && PinsFresh(v.board, v.st)
    requires TypesSynced(v.board, v.byType) && ColorsSynced(v.board, v.byColor)
    ensures r <==> if m.kind != Normal then 0 >= threshold else ExchangeValue(v.board, v.side, m) >= threshold
  {
    if m.kind != Normal {
      return 0 >= threshold;
    }
    ExchangeBounds(v.board, v.side, m);
    FirstAttackers(v, m.to, Xor(Xor(Occupied(v.board), {m.from}), {m.to}));
    TablesAre(v.board, v);
    hide *;
    var from, to := m.from, m.to;
    var swap := ValueOf(v.board[to]) - threshold;
    if swap < 0 {
      return false;
    }
    swap := ValueOf(v.board[from]) - swap;
    if swap <= 0 {
      return true;
    }
    var occupied := Xor(Xor(Pieces(v), {from}), {to});
    var attackers := AttackersTo(v, to, occupied);
    ghost var goal := ExchangeValue(v.board, v.side, m) >= threshold;
    SwapStart(goal, swap, ValueOf(v.board[from]), Gain(v.board, to, occupied, Flip(v.side), ValueOf(v.board[from])));
    r := SwapLoop(v, to, occupied, attackers, swap, ValueOf(v.board[from]), goal);
  }

  lemma ExchangeBounds(b: Board, us: Color, m: Move)
    requires HasKing(b, White) && HasKing(b, Black)
    ensures var g := Gain(b, m.to, Xor(Xor(Occupied(b), {m.from}), {m.to}), Flip(us), ValueOf(b[m.from]));
            0 <= g <= ValueOf(b[m.from]) <= PieceValue(Queen) && ExchangeValue(b, us, m) == ValueOf(b[m.to]) - g
  {
    hide Gain, Xor, Occupied, HasKing;
    GainBounds(b, m.to, Xor(Xor(Occupied(b), {m.from}), {m.to}), Flip(us), ValueOf(b[m.from]));
  }

  lemma SwapStart(goal: bool, swap: int, standing: int, gain: int)
    requires 0 < swap <= standing <= PieceValue(Queen) && (goal <==> gain <= standing - swap)
    ensures SwapInv(goal, 1, swap, standing, gain)
  {
  }

  lemma FirstAttackers(v: View, to: Square, occ: Bitboard)
    requires TypesSynced(v.board, v.byType) && ColorsSynced(v.board, v.byColor)
    ensures |v.byType| == 7 && |v.byColor| == 2 && AttackersTo(v, to, occ) * occ == Attackers(v.board, to, occ)
  {
    forall a: Square
      ensures a in AttackersTo(v, to, occ) <==> v.board[a].Piece? && Hits(v.board[a], a, to, occ)
    {
      AttackersToMember(v.board, v, to, occ, a);
    }
    hide AttackersTo, Hits;
  }

  lemma TablesAre(b: Board, v: View)
    requires TypesSynced(b, v.byType) && ColorsSynced(b, v.byColor)
    ensures |v.byType| == 7 && |v.byColor| == 2 && Pieces(v) == Occupied(b)
  {
  }

  /** The masks of the loop head are the takers. */
  lemma TakersRead(v: View, t: Square, occ: Bitboard, c: Color, attackers: Bitboard)
    requires HasKing(v.board, White) && HasKing(v.board, Black) && HasKing(v.board, c) && PinsFresh(v.board, v.st)
    requires TypesSynced(v.board, v.byType) && ColorsSynced(v.board, v.byColor) &&
             attackers == Attackers(v.board, t, occ)
    ensures |v.st.pinners| == 2 && |v.st.blockers| == 2 && |v.byType| == 7 && |v.byColor| == 2
    ensures PiecesC(v, c) == OfColor(v.board, c)
    ensures 0 <= ColorIndex(c) < 2 && 0 <= ColorIndex(Flip(c)) < 2
    ensures var own := attackers * PiecesC(v, c);
            Takers(v.board, t, occ, c) ==
            if v.st.pinners[ColorIndex(Flip(c))] * occ != {} then own - v.st.blockers[ColorIndex(c)] else own
  {
    assert v.st.blockers[ColorIndex(c)] == BlockersBB(v.board, Flip(c), KingOf(v.board, c));
    assert v.st.pinners[ColorIndex(Flip(c))] == PinnersBB(v.board, Flip(c), KingOf(v.board, c));
    assert v.byColor[ColorIndex(c)] == OfColor(v.board, c);
    hide KingOf, HasKing, PinnersBB, BlockersBB, Attackers, OfColor, PinsFresh, TypesSynced, ColorsSynced;
  }

  /** One capture of the loop, by the lowest taker of the first kind present. */
  lemma CaptureStep(v: View, t: Square, occ: Bitboard, c: Color, attackers: Bitboard, takers: Bitboard, kind: PieceType,
                    goal: bool, res: int, swap: int, standing: int)
    requires HasKing(v.board, White) && HasKing(v.board, Black) && HasKing(v.board, c)
    requires |v.byType| == 7 && TypesSynced(v.board, v.byType) && attackers == Attackers(v.board, t, occ) &&
             takers == Takers(v.board, t, occ, c)
    requires SwapInv(goal, res, swap, standing, Gain(v.board, t, occ, c, standing)) && 0 <= TypeIndex(kind) < 7
    requires forall low: PieceType :: TypeIndex(low) < TypeIndex(kind) ==> takers * v.byType[TypeIndex(low)] == {}
    requires takers * v.byType[TypeIndex(kind)] != {} && kind != King
    ensures var a := Lsb(takers * v.byType[TypeIndex(kind)]);
            var occ' := occ - {a};
            var res', swap' := 1 - res, PieceValue(kind) - swap;
            && Xor(occ, {a}) == occ' && a in occ
            && (swap' < res' ==> (goal <==> res' != 0)) && (kind == Queen ==> swap' >= res')
            && (swap' >= res' ==>
                 SwapInv(goal, res', swap', PieceValue(kind), Gain(v.board, t, occ', Flip(c), PieceValue(kind))))
            && Grown(v, t, occ', attackers, kind) * occ' == Attackers(v.board, t, occ')
  {
    hide *;
    TakersShape(v.board, t, occ, c);
    PickLeast(v.board, v, takers, kind);
    var a := Lsb(takers * v.byType[TypeIndex(kind)]);
    GainTake(v.board, t, occ, c, standing, a);
    AttackersWithin(v.board, t, occ);
    AttackersUpdated(v.board, v, t, occ, attackers, a);
    XorOne(occ, a);
    GainWithin(v.board, t, occ - {a}, Flip(c), kind);
    GrownIs(v, t, occ - {a}, attackers, kind);
    SwapStep(goal, res, swap, standing, Gain(v.board, t, occ, c, standing), PieceValue(kind),
             Gain(v.board, t, occ - {a}, Flip(c), PieceValue(kind)));
  }

  /** The attackers with the x-rays the kind that just captured may have opened. */
  function Grown(v: View, t: Square, occ: Bitboard, attackers: Bitboard, kind: PieceType): Bitboard
    requires |v.byType| == 7
  {
    var diagonal := AttacksBB(Bishop, t, occ) * (v.byType[TypeIndex(Bishop)] + v.byType[TypeIndex(Queen)]);
    var straight := AttacksBB(Rook, t, occ) * (v.byType[TypeIndex(Rook)] + v.byType[TypeIndex(Queen)]);
    match kind
    case Pawn => attackers + diagonal
    case Bishop => attackers + diagonal
    case Rook => attackers + straight
    case Queen => attackers + (diagonal + straight)
    case _ => attackers
  }

  lemma GrownIs(v: View, t: Square, occ: Bitboard, attackers: Bitboard, kind: PieceType)
    requires |v.byType| == 7
    ensures var diagonal := AttacksBB(Bishop, t, occ) * (v.byType[TypeIndex(Bishop)] + v.byType[TypeIndex(Queen)]);
            var straight := AttacksBB(Rook, t, occ) * (v.byType[TypeIndex(Rook)] + v.byType[TypeIndex(Queen)]);
            Grown(v, t, occ, attackers, kind) ==
            match kind
            case Pawn => attackers + diagonal
            case Bishop => attackers + diagonal
            case Rook => attackers + straight
            case Queen => attackers + (diagonal + straight)
            case _ => attackers
  {
    hide AttacksBB;
  }

  lemma AttackersWithin(b: Board, t: Square, occ: Bitboard)
    ensures Attackers(b, t, occ) * occ == Attackers(b, t, occ)
  {
    hide Hits;
  }

  lemma XorOne(occ: Bitboard, a: Square)
    requires a in occ
    ensures Xor(occ, {a}) == occ - {a}
  {
  }

  lemma GainWithin(b: Board, t: Square, occ: Bitboard, c: Color, kind: PieceType)
    requires HasKing(b, White) && HasKing(b, Black)
    ensures 0 <= Gain(b, t, occ, c, PieceValue(kind)) <= PieceValue(kind) <= PieceValue(Queen)
  {
    hide *;
    PieceValues(kind);
    GainBounds(b, t, occ, c, PieceValue(kind));
  }

  /** The loop stops with nothing to take with. */
  lemma StopStep(v: View, t: Square, occ: Bitboard, c: Color, goal: bool, res: int, swap: int, standing: int)
    requires HasKing(v.board, White) && HasKing(v.board, Black) && HasKing(v.board, c)
    requires SwapInv(goal, res, swap, standing, Gain(v.board, t, occ, c, standing))
    requires Takers(v.board, t, occ, c) == {}
    ensures goal <==> res != 0
  {
    GainNone(v.board, t, occ, c, standing);
    hide Gain, Takers;
  }

  /** Only the king is left: it takes exactly when nothing takes back. */
  lemma KingLast(v: View, t: Square, occ: Bitboard, c: Color, attackers: Bitboard, takers: Bitboard, goal: bool,
                 res: int, swap: int,
                 standing: int)
    requires HasKing(v.board, White) && HasKing(v.board, Black) && HasKing(v.board, c)
    requires TypesSynced(v.board, v.byType) && attackers == Attackers(v.board, t, occ) &&
             takers == Takers(v.board, t, occ, c)
    requires SwapInv(goal, res, swap, standing, Gain(v.board, t, occ, c, standing))
    requires takers != {} && forall low: PieceType :: low != King ==> takers * v.byType[TypeIndex(low)] == {}
    ensures goal <==> if attackers - OfColor(v.board, c) != {} then res != 0 else res == 0
  {
    TakersShape(v.board, t, occ, c);
    var x :| x in takers;
    var kind := v.board[x].kind;
    assert v.byType[TypeIndex(kind)] == OfType(v.board, kind);
    assert x in takers * v.byType[TypeIndex(kind)];
    assert forall low: PieceType :: TypeIndex(low) < TypeIndex(King) ==> low != King;
    PickLeast(v.board, v, takers, King);
    var a := Lsb(takers * v.byType[TypeIndex(King)]);
    hide Gain, Takers, Attackers, TypesSynced, OfColor;
    GainTake(v.board, t, occ, c, standing, a);
  }

  lemma SideHasKing(b: Board, c: Color)
    requires HasKing(b, White) && HasKing(b, Black)
    ensures HasKing(b, c) && Flip(Flip(c)) == c
  {
    hide HasKing;
  }

  lemma NoneBelow(s: Bitboard, byType: seq<Bitboard>, kind: PieceType)
    requires |byType| == 7
    requires forall i :: 1 <= i < TypeIndex(kind) ==> s * byType[i] == {}
    ensures forall low: PieceType :: TypeIndex(low) < TypeIndex(kind) ==> s * byType[TypeIndex(low)] == {}
    ensures kind == King ==> forall low: PieceType :: low != King ==> s * byType[TypeIndex(low)] == {}
  {
    assert forall low: PieceType :: 1 <= TypeIndex(low) <= 6 && (low != King ==> TypeIndex(low) < 6);
  }

  lemma TypeIndices()
    ensures TypeIndex(Pawn) == 1 && TypeIndex(Knight) == 2 && TypeIndex(Bishop) == 3 && TypeIndex(Rook) == 4 &&
            TypeIndex(Queen) == 5
    ensures TypeIndex(King) == 6
  {
  }

  /** CaptureStep in the order the loop tests the kinds. */
  lemma KindStep(v: View, t: Square, occ: Bitboard, c: Color, attackers: Bitboard, takers: Bitboard, kind: PieceType,
                 goal: bool, res: int, swap: int, standing: int)
    requires HasKing(v.board, White) && HasKing(v.board, Black) && HasKing(v.board, c) && |v.byType| == 7
    requires TypesSynced(v.board, v.byType) && attackers == Attackers(v.board, t, occ) &&
             takers == Takers(v.board, t, occ, c)
    requires SwapInv(goal, res, swap, standing, Gain(v.board, t, occ, c, standing))
    requires kind != King && 0 <= TypeIndex(kind) < 7 && forall i :: 1 <= i < TypeIndex(kind) ==>
             takers * v.byType[i] == {}
    requires takers * v.byType[TypeIndex(kind)] != {}
    ensures var a := Lsb(takers * v.byType[TypeIndex(kind)]);
            var occ' := Xor(occ, {a});
            var res', swap' := 1 - res, PieceValue(kind) - swap;
            && |occ'| < |occ|
            && (swap' < res' ==> (goal <==> res' != 0)) && (kind == Queen ==> swap' >= res')
            && (swap' >= res' ==>
                 SwapInv(goal, res', swap', PieceValue(kind), Gain(v.board, t, occ', Flip(c), PieceValue(kind))))
            && Grown(v, t, occ', attackers, kind) * occ' == Attackers(v.board, t, occ')
  {
    hide *;
    NoneBelow(takers, v.byType, kind);
    CaptureStep(v, t, occ, c, attackers, takers, kind, goal, res, swap, standing);
    Fewer(occ, Lsb(takers * v.byType[TypeIndex(kind)]));
  }

  lemma Fewer(s: Bitboard, a: Square)
    requires a in s
    ensures |s - {a}| < |s|
  {
    assert s == (s - {a}) + {a};
  }

  /** One round of the sequence: a verdict, or the state after the least valuable capture. */
  method TakeOnce(v: View, to: Square, stm: Color, occupied: Bitboard, attackers: Bitboard, stmAttackers: Bitboard,
                  swap: int, res: int,
                  ghost standing: int, ghost goal: bool)
    returns (verdict: Option<bool>, occupied': Bitboard, attackers': Bitboard, swap': int, ghost standing': int)
    requires HasKing(v.board, White) && HasKing(v.board, Black) && HasKing(v.board, stm) && |v.byType| == 7 &&
             |v.byColor| == 2
    requires TypesSynced(v.board, v.byType) && PiecesC(v, stm) == OfColor(v.board, stm)
    requires attackers == Attackers(v.board, to, occupied) && stmAttackers == Takers(v.board, to, occupied, stm) &&
             stmAttackers != {}
    requires SwapInv(goal, 1 - res, swap, standing, Gain(v.board, to, occupied, stm, standing))
    ensures verdict.Some? ==> (goal <==> verdict.value)
    ensures verdict.None? ==>
              && |occupied'| < |occupied| && attackers' * occupied' == Attackers(v.board, to, occupied')
              && SwapInv(goal, res, swap', standing', Gain(v.board, to, occupied', Flip(stm), standing'))
  {
    hide *;
    TypeIndices();
    occupied', attackers', swap', standing' := occupied, attackers, swap, standing;
    verdict := None;
    var bb := stmAttackers * v.byType[1];
    if bb != {} {
      KindStep(v, to, occupied, stm, attackers, stmAttackers, Pawn, goal, 1 - res, swap, standing);
      swap' := PieceValue(Pawn) - swap;
      if swap' < res {
        verdict := Some(res != 0);
      } else {
        occupied' := Xor(occupied, {Lsb(bb)});
        GrownIs(v, to, occupied', attackers, Pawn);
        attackers' := attackers +
          AttacksBB(Bishop, to, occupied') * (v.byType[TypeIndex(Bishop)] + v.byType[TypeIndex(Queen)]);
      }
      standing' := PieceValue(Pawn);
      return;
    }
    bb := stmAttackers * v.byType[2];
    if bb != {} {
      KindStep(v, to, occupied, stm, attackers, stmAttackers, Knight, goal, 1 - res, swap, standing);
      swap' := PieceValue(Knight) - swap;
      if swap' < res {
        verdict := Some(res != 0);
      } else {
        occupied' := Xor(occupied, {Lsb(bb)});
        GrownIs(v, to, occupied', attackers, Knight);
      }
      standing' := PieceValue(Knight);
      return;
    }
    bb := stmAttackers * v.byType[3];
    if bb != {} {
      KindStep(v, to, occupied, stm, attackers, stmAttackers, Bishop, goal, 1 - res, swap, standing);
      swap' := PieceValue(Bishop) - swap;
      if swap' < res {
        verdict := Some(res != 0);
      } else {
        occupied' := Xor(occupied, {Lsb(bb)});
        GrownIs(v, to, occupied', attackers, Bishop);
        attackers' := attackers +
          AttacksBB(Bishop, to, occupied') * (v.byType[TypeIndex(Bishop)] + v.byType[TypeIndex(Queen)]);
      }
      standing' := PieceValue(Bishop);
      return;
    }
    bb := stmAttackers * v.byType[4];
    if bb != {} {
      KindStep(v, to, occupied, stm, attackers, stmAttackers, Rook, goal, 1 - res, swap, standing);
      swap' := PieceValue(Rook) - swap;
      if swap' < res {
        verdict := Some(res != 0);
      } else {
        occupied' := Xor(occupied, {Lsb(bb)});
        GrownIs(v, to, occupied', attackers, Rook);
        attackers' := attackers +
          AttacksBB(Rook, to, occupied') * (v.byType[TypeIndex(Rook)] + v.byType[TypeIndex(Queen)]);
      }
      standing' := PieceValue(Rook);
      return;
    }
    bb := stmAttackers * v.byType[5];
    if bb != {} {
      // No early out: whatever stood on the square is worth a queen at most.
      KindStep(v, to, occupied, stm, attackers, stmAttackers, Queen, goal, 1 - res, swap, standing);
      swap' := PieceValue(Queen) - swap;
      occupied' := Xor(occupied, {Lsb(bb)});
      GrownIs(v, to, occupied', attackers, Queen);
      attackers' := attackers +
        (AttacksBB(Bishop, to, occupied') * (v.byType[TypeIndex(Bishop)] + v.byType[TypeIndex(Queen)]) +
         AttacksBB(Rook, to, occupied') * (v.byType[TypeIndex(Rook)] + v.byType[TypeIndex(Queen)]));
      standing' := PieceValue(Queen);
      return;
    }
    NoneBelow(stmAttackers, v.byType, King);
    KingLast(v, to, occupied, stm, attackers, stmAttackers, goal, 1 - res, swap, standing);
    SwapRange(goal, 1 - res, swap, standing, Gain(v.board, to, occupied, stm, standing));
    verdict := Some(if attackers - PiecesC(v, stm) != {} then 1 - res != 0 else res != 0);
  }

  lemma SwapRange(goal: bool, res: int, swap: int, standing: int, gain: int)
    requires SwapInv(goal, res, swap, standing, gain)
    ensures res == 0 || res == 1
  {
  }

  /** The capture sequence, least valuable attacker first. */
  method SwapLoop(v: View, to: Square, occupied0: Bitboard, attackers0: Bitboard, swap0: int, ghost standing0: int,
                  ghost goal: bool)
    returns (r: bool)
    requires HasKing(v.board, White) && HasKing(v.board, Black) && PinsFresh(v.board, v.st)
    requires TypesSynced(v.board, v.byType) && ColorsSynced(v.board, v.byColor)
    requires attackers0 * occupied0 == Attackers(v.board, to, occupied0)
    requires SwapInv(goal, 1, swap0, standing0, Gain(v.board, to, occupied0, Flip(v.side), standing0))
    ensures r <==> goal
  {
    ghost var b := v.board;
    hide *;
    var stm := v.side;
    var occupied, attackers, swap, res := occupied0, attackers0, swap0, 1;
    ghost var standing := standing0;
    while true
      invariant attackers * occupied == Attackers(b, to, occupied)
      invariant SwapInv(goal, res, swap, standing, Gain(b, to, occupied, Flip(stm), standing))
      decreases |occupied|
    {
      stm := Flip(stm);
      attackers := attackers * occupied;
      SideHasKing(b, stm);
      TakersRead(v, to, occupied, stm, attackers);
      var stmAttackers := attackers * PiecesC(v, stm);
      if v.st.pinners[ColorIndex(Flip(stm))] * occupied != {} {
        stmAttackers := stmAttackers - v.st.blockers[ColorIndex(stm)];
      }
      if stmAttackers == {} {
        StopStep(v, to, occupied, stm, goal, res, swap, standing);
        return res != 0;
      }
      res := 1 - res;
      var verdict;
      verdict, occupied, attackers, swap, standing :=
        TakeOnce(v, to, stm, occupied, attackers, stmAttackers, swap, res, standing, goal);
      if verdict.Some? {
        return verdict.value;
      }
    }
  }
}
