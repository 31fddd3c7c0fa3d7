/** The accumulator's piece delta balances: what it removes and what it adds are exactly the pieces
    the move takes off the board and puts on it, each on its square. */
module PieceDelta {
  import opened Squares
  import opened Types
  import opened Board
  import opened Rules
  import opened Play
  import opened Keys
  import opened Chains

  type Placed = (Square, Piece)

  /** The pieces of a board, each with its square. */
  function PiecesOn(b: Board): multiset<Placed> {
    multiset(set s: Square | b[s].Piece? :: (s, b[s]))
  }

  /** What the accumulator subtracts for a move. */
  function Gone(dp: DirtyPiece): multiset<Placed> {
    (if dp.from.Some? then multiset{(dp.from.value, dp.pc)} else multiset{}) +
    (if dp.removeSq.Some? then multiset{(dp.removeSq.value, dp.removePc)} else multiset{})
  }

  /** And what it adds. */
  function Come(dp: DirtyPiece): multiset<Placed> {
    (if dp.to.Some? then multiset{(dp.to.value, dp.pc)} else multiset{}) +
    (if dp.addSq.Some? then multiset{(dp.addSq.value, dp.addPc)} else multiset{})
  }

  predicate Balances(b: Board, dp: DirtyPiece, b': Board) {
    PiecesOn(b') + Gone(dp) == PiecesOn(b) + Come(dp)
  }

  function Here(b: Board, x: Placed): nat {
    if x.1.Piece? && b[x.0] == x.1 then 1 else 0
  }

  lemma PieceHere(b: Board, x: Placed)
    ensures PiecesOn(b)[x] == Here(b, x)
  {
    var pieces := set s: Square | b[s].Piece? :: (s, b[s]);
    assert (x.0, b[x.0]) in pieces <==> b[x.0].Piece?;
    assert x in pieces ==> x == (x.0, b[x.0]);
  }

  lemma BalancesBy(b: Board, dp: DirtyPiece, b': Board)
    requires forall x: Placed :: Here(b', x) + Gone(dp)[x] == Here(b, x) + Come(dp)[x]
    ensures Balances(b, dp, b')
  {
    forall x: Placed
      ensures (PiecesOn(b') + Gone(dp))[x] == (PiecesOn(b) + Come(dp))[x]
    {
      PieceHere(b, x);
      PieceHere(b', x);
    }
    hide PiecesOn, Here, Gone, Come;
  }

  /** The delta pos_do_move writes balances against the move, castling's shared squares included. */
  lemma DirtyBalances(p: Pos, m: Move)
    requires WellFormed(p) && PseudoLegal(p, m)
    ensures Balances(p.board, DirtyOf(p.board, p.side, m), After(p.board, p.side, m))
    ensures var dp := DirtyOf(p.board, p.side, m);
            dp.pc == p.board[m.from] && dp.from == Some(m.from) && (dp.to.None? <==> m.kind == Promotion)
  {
    if m.kind == Castling {
      CastlingSquares(p, m);
      TargetsOnBackRank(CastlingRight(p.side, m));
      CastlingBalances(p.board, p.side, m);
      hide WellFormed, PseudoLegal, After, Balances;
    } else {
      AfterSteps(p, m);
      MoverIs(p, m);
      hide WellFormed, PseudoLegal, Balances;
      PlainBalances(p.board, p.side, m);
    }
  }

  lemma PlainBalances(b: Board, us: Color, m: Move)
    requires m.kind != Castling && b[m.from].Piece?
    requires var c := CaptureSquare(m);
             && c != m.from && (c != m.to ==> b[m.to] == NoPiece) && m.from != m.to
             && After(b, us, m) == b[c := NoPiece][m.from := NoPiece][m.to := Arrives(b, us, m)]
    ensures Balances(b, DirtyOf(b, us, m), After(b, us, m))
  {
    var dp, b' := DirtyOf(b, us, m), After(b, us, m);
    PlainLists(b, us, m);
    hide Here, Gone, Come, DirtyOf, After, CaptureSquare, Arrives, Balances;
    forall x: Placed
      ensures Here(b', x) + Gone(dp)[x] == Here(b, x) + Come(dp)[x]
    {
      OneBalances(b, m.from, CaptureSquare(m), m.to, Arrives(b, us, m), x);
    }
    BalancesBy(b, dp, b');
  }

  lemma PlainLists(b: Board, us: Color, m: Move)
    requires m.kind != Castling && b[m.from].Piece?
    ensures var dp, c := DirtyOf(b, us, m), CaptureSquare(m);
            && Gone(dp) == multiset{(m.from, b[m.from])} + (if b[c].Piece? then multiset{(c, b[c])} else multiset{})
            && Come(dp) == multiset{(m.to, Arrives(b, us, m))} && Arrives(b, us, m).Piece?
  {
    hide CaptureSquare;
  }

  /** One pair, on a move from one square to another that empties c on the way. */
  lemma OneBalances(b: Board, from: Square, c: Square, to: Square, arrives: Piece, x: Placed)
    requires c != from && (c != to ==> b[to] == NoPiece) && from != to && b[from].Piece? && arrives.Piece?
    ensures var b' := b[c := NoPiece][from := NoPiece][to := arrives];
            var gone := multiset{(from, b[from])} + (if b[c].Piece? then multiset{(c, b[c])} else multiset{});
            Here(b', x) + gone[x] == Here(b, x) + multiset{(to, arrives)}[x]
  {
    if x.0 == from {
    } else if x.0 == to {
    } else if x.0 == c {
    }
  }

  lemma CastlingBalances(b: Board, us: Color, m: Move)
    requires m.kind == Castling && m.from != m.to && b[m.from] == Piece(us, King) && b[m.to] == Piece(us, Rook)
    requires var r := CastlingRight(us, m);
             && KingTarget(r) != RookTarget(r)
             && forall x: Square :: x == KingTarget(r) || x == RookTarget(r) ==>
                  x == m.from || x == m.to || b[x] == NoPiece
    ensures Balances(b, DirtyOf(b, us, m), After(b, us, m))
  {
    var dp, b' := DirtyOf(b, us, m), After(b, us, m);
    forall x: Placed
      ensures Here(b', x) + Gone(dp)[x] == Here(b, x) + Come(dp)[x]
    {
      hide KingTarget, RookTarget, CastlingRight;
    }
    hide Here, Gone, Come, DirtyOf, After, CastlingRight, KingTarget, RookTarget, Balances;
    BalancesBy(b, dp, b');
  }
}
