/** Every scan sequence position.c performs nets to the change of the threat relation. */
module ThreatDelta {
  import opened Squares
  import opened Types
  import opened Board
  import opened Attacks
  import opened Pins
  import opened Threats

  /** The signed change of the threat relation from b to b', at the pair w. */
  function Change(b: Board, b': Board, w: DirtyThreat): int {
    Bit(Threat(b', w)) as int - Bit(Threat(b, w)) as int
  }

  /** The list grew from l to l' by exactly the change from b to b'. */
  ghost predicate NetStep(l: seq<DirtyThreat>, l': seq<DirtyThreat>, b: Board, b': Board) {
    forall w: DirtyThreat :: Net(l', w) == Net(l, w) + Change(b, b', w)
  }

  /** In numbers: a pair that is a threat now and was none before is added once more often than it is
      removed, a pair that was one and is none now the other way round, any other as often. */
  lemma NetSigns(l: seq<DirtyThreat>, b: Board, b': Board, w: DirtyThreat)
    requires NetStep([], l, b, b')
    ensures var added, removed := multiset(l)[w.(add := true)], multiset(l)[w.(add := false)];
            && (Threat(b', w) && !Threat(b, w) <==> added == removed + 1)
            && (!Threat(b', w) && Threat(b, w) <==> removed == added + 1)
            && (Threat(b', w) == Threat(b, w) <==> added == removed)
  {
    hide Threat;
    assert Net(l, w) == Net([], w) + Change(b, b', w);
  }

  lemma NetJoin(l0: seq<DirtyThreat>, l1: seq<DirtyThreat>, l2: seq<DirtyThreat>, b0: Board, b1: Board, b2: Board)
    requires NetStep(l0, l1, b0, b1) && NetStep(l1, l2, b1, b2)
    ensures NetStep(l0, l2, b0, b2)
  {
    forall w: DirtyThreat
      ensures Net(l2, w) == Net(l0, w) + Change(b0, b2, w)
    {
      assert Net(l1, w) == Net(l0, w) + Change(b0, b1, w);
      assert Net(l2, w) == Net(l1, w) + Change(b1, b2, w);
    }
    hide Net;
  }

  lemma OccupiedWithout(b: Board, s: Square)
    ensures Occupied(b[s := NoPiece]) == Occupied(b) - {s}
  {
  }

  /** Clear through one lifted square: the two halves were clear. */
  lemma ClearHalves(a: Square, s: Square, t: Square, occ: Bitboard)
    requires Inside(a, s, t)
    ensures Clear(a, t, occ - {s}) <==> Clear(a, s, occ) && Clear(s, t, occ)
  {
    hide Inside;
    InsideDistinct(a, s, t);
    forall x: Square
      ensures Inside(a, x, t) <==> x == s || Inside(a, x, s) || Inside(s, x, t)
      ensures Inside(a, x, s) || Inside(s, x, t) ==> x != s
    {
      InsideJoin(a, s, t, x);
    }
  }

  lemma InsideJoin(a: Square, s: Square, t: Square, x: Square)
    requires Inside(a, s, t)
    ensures Inside(a, x, t) <==> x == s || Inside(a, x, s) || Inside(s, x, t)
    ensures Inside(a, x, s) || Inside(s, x, t) ==> x != s
  {
    Coords(a); Coords(s); Coords(t); Coords(x);
    hide File, Rank;
  }

  /** Lifting s removes the pairs s takes part in and adds the discoveries behind it. */
  lemma ThreatWithout(b: Board, s: Square, w: DirtyThreat)
    requires b[s].Piece?
    ensures Threat(b[s := NoPiece], w) <==>
              (Threat(b, w) && w.pcSq != s && w.threatenedSq != s) || Discovers(b, s, w)
    ensures !(Discovers(b, s, w) && Threat(b, w))
  {
    var a, t := w.pcSq, w.threatenedSq;
    var occ := Occupied(b);
    OccupiedWithout(b, s);
    hide RookLine, BishopLine, PawnStep, KnightStep, KingStep;
    if Inside(a, s, t) {
      InsideDistinct(a, s, t);
      InsideKind(a, s, t);
      ClearHalves(a, s, t, occ);
      assert s in occ;
    } else {
      assert Clear(a, t, occ) <==> Clear(a, t, occ - {s});
    }
    hide Inside, Clear;
  }

  lemma RemoveDelta(b: Board, s: Square, w: DirtyThreat)
    requires b[s].Piece?
    ensures Change(b, b[s := NoPiece], w) ==
            Bit(Discovers(b, s, w)) - Bit(Outgoing(b, b[s], s, w)) as int - Bit(Incoming(b, b[s], s, w)) as int
    ensures !(Outgoing(b, b[s], s, w) && Incoming(b, b[s], s, w))
  {
    ThreatWithout(b, s, w);
    HitsElsewhere(b[s], s, Occupied(b));
    hide Hits, Discovers;
  }

  lemma AllRaysRecorded(b: Board, s: Square, w: DirtyThreat)
    ensures Recorded(b, s, ALL_SQUARES, w) <==> Discovers(b, s, w)
  {
    assert w.pcSq !in RayPassBB(w.pcSq, s);
    assert w.pcSq in ALL_SQUARES;
    hide Discovers;
  }

  /** The list r is `list` with one scan appended. */
  ghost predicate Appended(list: seq<DirtyThreat>, r: seq<DirtyThreat>, b: Board, pc: Piece, put: bool, s: Square,
                           computeRay: bool, noRays: Bitboard) {
    forall w: DirtyThreat ::
      multiset(r)[w] == multiset(list)[w] + Bit(Scanned(b, pc, put, s, computeRay, noRays, w))
  }

  /** One scan's contribution to Net, sign and all. */
  lemma NetScan(list: seq<DirtyThreat>, r: seq<DirtyThreat>, b: Board, pc: Piece, put: bool, s: Square,
                computeRay: bool, noRays: Bitboard, w: DirtyThreat)
    requires pc.Piece? && Appended(list, r, b, pc, put, s, computeRay, noRays)
    ensures var direct := Bit(Outgoing(b, pc, s, w) || Incoming(b, pc, s, w)) as int;
            var rays := Bit(computeRay && Recorded(b, s, noRays, w)) as int;
            Net(r, w) - Net(list, w) == if put then direct - rays else rays - direct
  {
    var add, rem := w.(add := true), w.(add := false);
    SignBlind(b, pc, s, noRays, w, add);
    SignBlind(b, pc, s, noRays, w, rem);
    hide Outgoing, Incoming, Recorded;
  }

  lemma SignBlind(b: Board, pc: Piece, s: Square, noRays: Bitboard, w: DirtyThreat, v: DirtyThreat)
    requires pc.Piece?
    requires v.pc == w.pc && v.pcSq == w.pcSq && v.threatenedPc == w.threatenedPc && v.threatenedSq == w.threatenedSq
    ensures Outgoing(b, pc, s, v) == Outgoing(b, pc, s, w)
    ensures Incoming(b, pc, s, v) == Incoming(b, pc, s, w)
    ensures Recorded(b, s, noRays, v) == Recorded(b, s, noRays, w)
  {
    hide Hits, Clear, Inside, RayPassBB;
  }

  /** remove_piece: a full scan of the board before the piece leaves. */
  lemma NetRemove(list: seq<DirtyThreat>, r: seq<DirtyThreat>, b: Board, s: Square, w: DirtyThreat)
    requires b[s].Piece? && Appended(list, r, b, b[s], false, s, true, ALL_SQUARES)
    ensures Net(r, w) == Net(list, w) + Change(b, b[s := NoPiece], w)
  {
    NetScan(list, r, b, b[s], false, s, true, ALL_SQUARES, w);
    AllRaysRecorded(b, s, w);
    RemoveDelta(b, s, w);
    hide Outgoing, Incoming, Recorded, Discovers, Net, Change;
  }

  /** put_piece: a full scan of the board after the piece has arrived. */
  lemma NetPut(list: seq<DirtyThreat>, r: seq<DirtyThreat>, b: Board, pc: Piece, s: Square, w: DirtyThreat)
    requires b[s] == NoPiece && pc.Piece? && Appended(list, r, b[s := pc], pc, true, s, true, ALL_SQUARES)
    ensures Net(r, w) == Net(list, w) + Change(b, b[s := pc], w)
  {
    var b' := b[s := pc];
    NetScan(list, r, b', pc, true, s, true, ALL_SQUARES, w);
    AllRaysRecorded(b', s, w);
    RemoveDelta(b', s, w);
    assert b'[s := NoPiece] == b;
    hide Outgoing, Incoming, Recorded, Discovers, Net, Threat;
  }

  /** swap_piece: two direct scans of the board after the swap; no ray opens or closes. */
  lemma NetSwap(list: seq<DirtyThreat>, mid: seq<DirtyThreat>, r: seq<DirtyThreat>, b: Board, pc: Piece, s: Square,
                w: DirtyThreat)
    requires b[s].Piece? && pc.Piece?
    requires Appended(list, mid, b[s := pc], b[s], false, s, false, ALL_SQUARES)
    requires Appended(mid, r, b[s := pc], pc, true, s, false, ALL_SQUARES)
    ensures Net(r, w) == Net(list, w) + Change(b, b[s := pc], w)
  {
    var b' := b[s := pc];
    NetScan(list, mid, b', b[s], false, s, false, ALL_SQUARES, w);
    NetScan(mid, r, b', pc, true, s, false, ALL_SQUARES, w);
    assert Occupied(b') == Occupied(b);
    HitsElsewhere(b[s], s, Occupied(b));
    HitsElsewhere(pc, s, Occupied(b));
    hide Hits, Net, Occupied;
  }

  /** The two scans of move_piece mask the same discoveries: a slider whose ray covers both
      squares sees the mover before and after, and would see the same piece behind it. */
  lemma MaskedAlike(b: Board, from: Square, to: Square, w: DirtyThreat)
    requires b[from].Piece? && b[to] == NoPiece && from != to
    requires Clear(from, to, Occupied(b))
    requires OnRay(w.pcSq, from, to)
    requires Discovers(b, from, w)
    ensures var b' := b[from := NoPiece][to := b[from]];
            OnRay(w.pcSq, to, from) && Discovers(b', to, w)
  {
    hide *;
    var a, t := w.pcSq, w.threatenedSq;
    DiscoveryShape(b, from, to, w);
    if Inside(a, to, from) {
      SeenNearer(a, to, from, t, Occupied(b));
    } else {
      OnRayFurther(a, from, to);
      SeenFurther(a, from, to, t, Occupied(b));
    }
    DiscoversMoved(b, from, to, w);
  }

  lemma DiscoveryShape(b: Board, from: Square, to: Square, w: DirtyThreat)
    requires Discovers(b, from, w) && b[from].Piece? && b[to] == NoPiece
    ensures var a, t, occ := w.pcSq, w.threatenedSq, Occupied(b);
            && Inside(a, from, t) && t in occ && a in occ && to !in occ && t != to && a != to && a != from && t != from
            && Clear(a, from, occ) && Clear(from, t, occ)
  {
    hide RookLine, BishopLine, Clear;
    InsideEnds(w.pcSq, from, w.threatenedSq);
    hide Inside;
  }

  lemma InsideEnds(a: Square, x: Square, b: Square)
    requires Inside(a, x, b)
    ensures a != x && x != b
  {
  }

  lemma OnRayFurther(a: Square, from: Square, to: Square)
    requires OnRay(a, from, to) && from != to
    ensures Inside(a, to, from) || Inside(a, from, to)
  {
    hide Inside;
  }

  /** What the slider sees through `to` once from is empty and `to` is taken, the lines unchanged. */
  ghost predicate Passable(a: Square, from: Square, to: Square, t: Square, occ: Bitboard) {
    && Inside(a, to, t) && (RookLine(a, to) <==> RookLine(a, from)) && (BishopLine(a, to) <==> BishopLine(a, from))
    && (forall x: Square :: Inside(to, x, t) || Inside(a, x, to) ==> x == from || (x !in occ && x != to))
  }

  /** The mover steps towards the slider. */
  lemma SeenNearer(a: Square, to: Square, from: Square, t: Square, occ: Bitboard)
    requires Inside(a, to, from) && Inside(a, from, t) && Clear(a, from, occ) && Clear(from, t, occ)
    ensures Passable(a, from, to, t, occ) && OnRay(a, to, from)
  {
    hide RookLine, BishopLine;
    InsideKind(a, to, from);
    BeyondNearer(a, to, from, t);
    forall x: Square | Inside(to, x, t) || Inside(a, x, to)
      ensures x == from || (x !in occ && x != to)
    {
      RayCover(a, to, from, t, x);
    }
    hide Inside;
  }

  /** Or away from it, short of what stands behind. */
  lemma SeenFurther(a: Square, from: Square, to: Square, t: Square, occ: Bitboard)
    requires Inside(a, from, to) && Inside(a, from, t) && t != to && t in occ && to !in occ
    requires Clear(a, from, occ) && Clear(from, t, occ) && Clear(from, to, occ)
    ensures Passable(a, from, to, t, occ) && OnRay(a, to, from)
  {
    hide RookLine, BishopLine;
    InsideBeyond(a, from, t, to);
    assert !Inside(from, t, to);
    InsideKind(a, from, to);
    BeyondFurther(a, from, to, t);
    forall x: Square | Inside(to, x, t) || Inside(a, x, to)
      ensures x == from || (x !in occ && x != to)
    {
      RayCover2(a, from, to, t, x);
    }
    hide Inside;
  }

  lemma DiscoversMoved(b: Board, from: Square, to: Square, w: DirtyThreat)
    requires Discovers(b, from, w) && b[from].Piece? && b[to] == NoPiece && from != to
    requires var a, t := w.pcSq, w.threatenedSq;
             Passable(a, from, to, t, Occupied(b)) && a != from && a != to && t != from && t != to
    ensures Discovers(b[from := NoPiece][to := b[from]], to, w)
  {
    hide *;
    var b' := b[from := NoPiece][to := b[from]];
    var a, t := w.pcSq, w.threatenedSq;
    OccupiedMoved(b, from, to);
    DiscoversIs(b, from, w);
    DiscoversIs(b', to, w);
    PassableClear(a, from, to, t, Occupied(b), Occupied(b'));
    SliderHits(w.pc, a, from, to, Occupied(b), Occupied(b'));
  }

  lemma OccupiedMoved(b: Board, from: Square, to: Square)
    requires b[from].Piece? && from != to
    ensures Occupied(b[from := NoPiece][to := b[from]]) == Occupied(b) - {from} + {to}
  {
  }

  lemma DiscoversIs(b: Board, s: Square, w: DirtyThreat)
    ensures Discovers(b, s, w) <==>
              && w.pc.Piece? && b[w.pcSq] == w.pc && Slides(w.pc.kind) && Hits(w.pc, w.pcSq, s, Occupied(b))
              && w.threatenedPc.Piece? && b[w.threatenedSq] == w.threatenedPc && Feature(w.pc.kind, w.threatenedPc.kind)
              && Inside(w.pcSq, s, w.threatenedSq) && Clear(s, w.threatenedSq, Occupied(b))
  {
    hide Inside, Hits, Clear, Occupied;
  }

  lemma PassableClear(a: Square, from: Square, to: Square, t: Square, occ: Bitboard, occ': Bitboard)
    requires Passable(a, from, to, t, occ) && occ' == occ - {from} + {to} && from != to
    ensures Clear(a, to, occ') && Clear(to, t, occ') && Inside(a, to, t)
    ensures (RookLine(a, to) <==> RookLine(a, from)) && (BishopLine(a, to) <==> BishopLine(a, from))
  {
    hide RookLine, BishopLine, Inside;
  }

  lemma SliderHits(pc: Piece, a: Square, from: Square, to: Square, occ: Bitboard, occ': Bitboard)
    requires pc.Piece? && Slides(pc.kind) && Hits(pc, a, from, occ) && Clear(a, to, occ')
    requires (RookLine(a, to) <==> RookLine(a, from)) && (BishopLine(a, to) <==> BishopLine(a, from))
    ensures Hits(pc, a, to, occ')
  {
    hide RookLine, BishopLine, Clear;
  }

  lemma BeyondNearer(a: Square, to: Square, from: Square, t: Square)
    requires Inside(a, to, from) && Inside(a, from, t)
    ensures Inside(a, to, t)
  {
    InsideTrans(a, to, from, t);
  }

  lemma RayCover(a: Square, to: Square, from: Square, t: Square, x: Square)
    requires Inside(a, to, from) && Inside(a, from, t)
    requires Inside(to, x, t) || Inside(a, x, to)
    ensures x != to && (x == from || Inside(a, x, from) || Inside(from, x, t))
  {
    Coords(a); Coords(to); Coords(from); Coords(t); Coords(x);
    hide File, Rank;
  }

  lemma BeyondFurther(a: Square, from: Square, to: Square, t: Square)
    requires Inside(a, from, to) && Inside(from, to, t)
    ensures Inside(a, to, t)
  {
    Coords(a); Coords(to); Coords(from); Coords(t);
    hide File, Rank;
  }

  lemma RayCover2(a: Square, from: Square, to: Square, t: Square, x: Square)
    requires Inside(a, from, to) && Inside(from, to, t)
    requires Inside(to, x, t) || Inside(a, x, to)
    ensures x != to && (x == from || Inside(a, x, from) || Inside(from, x, t))
  {
    Coords(a); Coords(to); Coords(from); Coords(t); Coords(x);
    hide File, Rank;
  }

  /** move_piece: both halves scanned with from and to masked out of the rays. */
  lemma NetMove(list: seq<DirtyThreat>, mid: seq<DirtyThreat>, r: seq<DirtyThreat>, b: Board, from: Square, to: Square,
                w: DirtyThreat)
    requires b[from].Piece? && b[to] == NoPiece && from != to && Clear(from, to, Occupied(b))
    requires Appended(list, mid, b, b[from], false, from, true, {from, to})
    requires Appended(mid, r, b[from := NoPiece][to := b[from]], b[from], true, to, true, {from, to})
    ensures Net(r, w) == Net(list, w) + Change(b, b[from := NoPiece][to := b[from]], w)
  {
    var b0 := b[from := NoPiece];
    var b' := b0[to := b[from]];
    NetScan(list, mid, b, b[from], false, from, true, {from, to}, w);
    NetScan(mid, r, b', b[from], true, to, true, {from, to}, w);
    RemoveDelta(b, from, w);
    RemoveDelta(b', to, w);
    assert b'[to := NoPiece] == b0;
    MaskedSame(b, from, to, w);
    RecordedMove(b, from, from, to, w);
    RecordedMove(b', to, to, from, w);
    assert {to, from} == {from, to};
    hide Outgoing, Incoming, Discovers, Net, Threat, Recorded, Clear, Occupied, OnRay;
  }

  lemma MaskedSame(b: Board, from: Square, to: Square, w: DirtyThreat)
    requires b[from].Piece? && b[to] == NoPiece && from != to && Clear(from, to, Occupied(b))
    ensures var b' := b[from := NoPiece][to := b[from]];
            (Discovers(b, from, w) && OnRay(w.pcSq, from, to)) <==> (Discovers(b', to, w) && OnRay(w.pcSq, to, from))
  {
    var b' := b[from := NoPiece][to := b[from]];
    ClearSym(from, to, Occupied(b));
    assert Occupied(b') == Occupied(b) - {from} + {to};
    assert Clear(to, from, Occupied(b')) by {
      forall x: Square
        ensures Inside(to, x, from) ==> x != to
      {
        if Inside(to, x, from) {
          InsideDistinct(to, x, from);
        }
      }
      hide Inside;
    }
    var b0: Board := b'[to := NoPiece];
    assert b0[from := b'[to]] == b;
    hide Discovers, OnRay, Clear;
    if Discovers(b, from, w) && OnRay(w.pcSq, from, to) {
      MaskedAlike(b, from, to, w);
    }
    if Discovers(b', to, w) && OnRay(w.pcSq, to, from) {
      MaskedAlike(b', to, from, w);
    }
  }

  /** Under the move's own mask, exactly the discoveries whose ray misses the other square stay. */
  lemma RecordedMove(b: Board, s: Square, x: Square, y: Square, w: DirtyThreat)
    requires x == s
    ensures Recorded(b, s, {x, y}, w) <==> Discovers(b, s, w) && !OnRay(w.pcSq, s, y)
  {
    RayHolds(w.pcSq, s, x, y);
    DiscoversRay(b, s, w);
    hide Discovers, OnRay, RayPassBB;
  }

  lemma RayHolds(a: Square, s: Square, x: Square, y: Square)
    ensures RayPassBB(a, s) * {x, y} == {x, y} <==> OnRay(a, s, x) && OnRay(a, s, y)
  {
    hide OnRay;
    assert OnRay(a, s, x) <==> x in RayPassBB(a, s);
    assert OnRay(a, s, y) <==> y in RayPassBB(a, s);
    assert x in {x, y} && y in {x, y};
  }

  lemma DiscoversRay(b: Board, s: Square, w: DirtyThreat)
    ensures Discovers(b, s, w) ==> OnRay(w.pcSq, s, s)
  {
    if Discovers(b, s, w) {
      InsideKind(w.pcSq, s, w.threatenedSq);
    }
    hide RookLine, BishopLine, Inside;
  }
}
