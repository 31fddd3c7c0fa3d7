/** The twenty moves of the opening position. */
module FirstMoves {
  import opened Squares
  import opened Types
  import opened Board
  import opened Rules
  import opened Opening
  import opened Perft

  /** Each pawn one square or two, each knight two ways. */
  predicate FirstMove(m: Move) {
    && m.kind == Normal && m.promo == Knight
    && (|| (8 <= m.from < 16 && (m.to == m.from + 8 || m.to == m.from + 16))
        || (m.from == 1 && (m.to == 16 || m.to == 18))
        || (m.from == 6 && (m.to == 21 || m.to == 23)))
  }

  // ----- nothing else moves -----

  lemma Crowd(s: Square)
    ensures StartBoard()[s] == StartPiece(s) && (s in Occupied(StartBoard()) <==> Rank(s) <= 1 || Rank(s) >= 6)
    ensures IsColor(StartBoard(), White, s) <==> Rank(s) <= 1
    ensures IsColor(StartBoard(), Black, s) <==> Rank(s) >= 6
  {
    StartAt(s);
    hide StartBoard, HomeKind;
  }

  /** The pawns shut in whatever moves along a line. */
  lemma ShutIn(s: Square, t: Square)
    requires Rank(s) == 0 && Rank(t) >= 2 && (RookLine(s, t) || BishopLine(s, t))
    ensures !Clear(s, t, Occupied(StartBoard()))
  {
    var step := if File(t) > File(s) then 1 else if File(t) < File(s) then -1 else 0;
    Coords(s);
    Coords(t);
    var x := MakeSquare(File(s) + step, 1);
    Crowd(x);
    assert Inside(s, x, t);
    hide StartBoard, Occupied, Inside, RookLine, BishopLine;
  }

  lemma OnlyKnights(s: Square, t: Square)
    requires Rank(s) == 0 && Moves(StartBoard(), White, s, t)
    ensures (s == 1 && (t == 16 || t == 18)) || (s == 6 && (t == 21 || t == 23))
  {
    Crowd(s);
    Crowd(t);
    Coords(s);
    Coords(t);
    if RookLine(s, t) || BishopLine(s, t) {
      ShutIn(s, t);
    }
    hide StartBoard, Occupied, Clear, RookLine, BishopLine, IsColor;
  }

  lemma OnlyPushes(s: Square, t: Square)
    requires Rank(s) == 1 && Moves(StartBoard(), White, s, t)
    ensures 8 <= s < 16 && (t == s + 8 || t == s + 16)
  {
    Crowd(s);
    Crowd(t);
    Coords(s);
    hide StartBoard, Occupied, IsColor;
  }

  lemma WhiteTargets(r: Right)
    requires r.color == White
    ensures r in HOME_ROOKS && HOME_ROOKS[r] == if r.wing == KingSide then 7 else 0
    ensures KingTarget(r) == if r.wing == KingSide then 6 else 2
  {
    RightsHeld(r);
  }

  /** A bishop stands between the king and g1, the queen between it and c1. */
  lemma PathShut(r: Right)
    requires r.color == White
    ensures r in HOME_ROOKS
    ensures var x: Square := if r.wing == KingSide then 5 else 3;
            CastlingPath(r, 4, HOME_ROOKS[r], x) && StartBoard()[x] != NoPiece
  {
    WhiteTargets(r);
    var x: Square := if r.wing == KingSide then 5 else 3;
    StartAt(x);
    hide StartBoard, KingTarget, RookTarget, HomeKind;
    assert Inside(4, x, KingTarget(r));
    hide Inside;
  }

  lemma NoCastling(k: Square, rook: Square, r: Right)
    requires r.color == White
    ensures !CanCastle(StartPos(), k, rook, r)
  {
    PathShut(r);
    HomeKing(White, 4);
    hide StartBoard, CastlingPath, Attacked, Span;
  }

  lemma OnlyFirst(m: Move)
    requires PseudoLegal(StartPos(), m)
    ensures FirstMove(m)
  {
    match m.kind {
      case Normal =>
        FromHome(m);
        if Rank(m.from) == 0 {
          OnlyKnights(m.from, m.to);
        } else {
          OnlyPushes(m.from, m.to);
        }
      case Promotion =>
        FromHome(m);
        if Rank(m.from) == 0 {
          OnlyKnights(m.from, m.to);
        } else {
          OnlyPushes(m.from, m.to);
        }
      case EnPassant =>
      case Castling => NoCastling(m.from, m.to, CastlingRight(White, m));
    }
    hide StartBoard, Moves, CanCastle;
  }

  lemma FromHome(m: Move)
    requires Moves(StartBoard(), White, m.from, m.to)
    ensures Rank(m.from) <= 1
  {
    Crowd(m.from);
    hide StartBoard, PawnPush, PawnDouble, PawnCapture, Hits;
  }

  // ----- and all of these do -----

  lemma FirstLegal(m: Move)
    requires FirstMove(m)
    ensures Legal(StartPos(), m)
  {
    FirstPseudo(m);
    FirstQuiet(m);
    hide StartBoard, PseudoLegal, InCheck, HasKing, FirstMove, After;
  }

  lemma FirstPseudo(m: Move)
    requires FirstMove(m)
    ensures PseudoLegal(StartPos(), m)
  {
    Crowd(m.from);
    Crowd(m.to);
    Coords(m.from);
    Coords(m.to);
    if m.to == m.from + 16 {
      Crowd(m.from + 8);
      Coords(m.from + 8);
    }
    hide StartBoard, Occupied;
  }

  /** Black's pieces are still at home, too far from the king. */
  lemma FirstQuiet(m: Move)
    requires FirstMove(m)
    ensures var b' := After(StartBoard(), White, m); HasKing(b', White) && !InCheck(b', White)
  {
    var b' := After(StartBoard(), White, m);
    forall s: Square
      ensures StartBoard()[s] == StartPiece(s)
    {
      StartAt(s);
    }
    Coords(m.from);
    Coords(m.to);
    assert IsKing(b', White, 4) by {
      HomeKing(White, 4);
      hide StartBoard;
    }
    forall a: Square
      ensures !Attacker(b', Black, a, 4, Occupied(b'))
    {
      hide StartBoard, Hits;
      if IsColor(b', Black, a) {
        Coords(a);
        FarAway(b'[a], a, 4, Occupied(b'));
      }
    }
    hide StartBoard, Attacker, FirstMove, After;
  }

  /** The opening position allows exactly these moves. */
  lemma FirstMovesAre(m: Move)
    ensures Legal(StartPos(), m) <==> FirstMove(m)
  {
    if FirstMove(m) {
      FirstLegal(m);
    }
    if Legal(StartPos(), m) {
      OnlyFirst(m);
    }
    hide StartBoard, PseudoLegal, FirstMove;
  }

  // ----- their number -----

  function NthFirst(i: nat): Move
    requires i < 20
  {
    if i < 8 then NormalMove(i + 8, i + 16)
    else if i < 16 then NormalMove(i, i + 16)
    else if i == 16 then NormalMove(1, 16)
    else if i == 17 then NormalMove(1, 18)
    else if i == 18 then NormalMove(6, 21)
    else NormalMove(6, 23)
  }

  lemma NthDiffers(i: nat, j: nat)
    requires i < j < 20
    ensures NthFirst(i) != NthFirst(j)
  {
  }

  function Firsts(n: nat): set<Move>
    requires n <= 20
  {
    if n == 0 then {} else Firsts(n - 1) + {NthFirst(n - 1)}
  }

  predicate IsNth(m: Move, i: nat) {
    i < 20 && NthFirst(i) == m
  }

  lemma {:induction false} FirstsHave(n: nat, m: Move)
    requires n <= 20
    ensures m in Firsts(n) <==> exists i: nat :: i < n && IsNth(m, i)
  {
    hide NthFirst;
    if n > 0 {
      FirstsHave(n - 1, m);
      assert m == NthFirst(n - 1) <==> IsNth(m, n - 1);
    }
  }

  lemma {:induction false} FirstsSize(n: nat)
    requires n <= 20
    ensures |Firsts(n)| == n
  {
    hide NthFirst;
    if n > 0 {
      FirstsSize(n - 1);
      var m := NthFirst(n - 1);
      FirstsHave(n - 1, m);
      if m in Firsts(n - 1) {
        var i: nat :| i < n - 1 && IsNth(m, i);
        NthDiffers(i, n - 1);
      }
    }
  }

  lemma FirstsMember(m: Move, n: nat)
    requires n == 20
    ensures FirstMove(m) <==> m in Firsts(n)
  {
    hide *;
    FirstsHave(n, m);
    if FirstMove(m) {
      NthBack(m);
    }
    forall i: nat | IsNth(m, i)
      ensures FirstMove(m)
    {
      NthIs(m, i);
    }
  }

  lemma NthIs(m: Move, i: nat)
    requires IsNth(m, i)
    ensures FirstMove(m)
  {
  }

  lemma NthBack(m: Move)
    requires FirstMove(m)
    ensures IsNth(m, NthOf(m)) && NthOf(m) < 20
  {
  }

  function NthOf(m: Move): (i: nat)
    requires FirstMove(m)
    ensures i < 20
  {
    if m.from == 1 then (if m.to == 16 then 16 else 17)
    else if m.from == 6 then (if m.to == 21 then 18 else 19)
    else if m.to == m.from + 8 then m.from - 8
    else m.from
  }

  lemma LegalCount(n: nat)
    requires n == 20
    ensures |LegalSet(StartPos())| == n
  {
    hide *;
    forall m
      ensures m in LegalSet(StartPos()) <==> m in Firsts(n)
    {
      LegalMember(StartPos(), m);
      FirstMovesAre(m);
      FirstsMember(m, n);
    }
    assert LegalSet(StartPos()) == Firsts(n);
    FirstsSize(n);
  }

  /** The tree walk's first level: twenty moves. */
  lemma TwentyMoves()
    ensures |LegalSet(StartPos())| == 20 && Games(StartPos(), 1) == 20
  {
    hide *;
    LegalCount(20);
    GamesOfOne(StartPos(), LegalSet(StartPos()));
    GamesIs(StartPos());
  }

  lemma GamesIs(p: Pos)
    ensures Games(p, 1) == GamesBy(p, LegalSet(p), 0)
  {
    hide LegalSet, GamesBy;
  }
}
