/** The tree walk over make and unmake: it counts the games the rules allow. */
module Perft {
  import opened Squares
  import opened Types
  import opened Board
  import opened Rules
  import opened MoveGen
  import opened CheckRule
  import opened CastleCheck
  import opened Exactness
  import opened Chains
  import Position

  // ----- what is counted -----

  ghost const ALL_MOVES: set<Move> :=
    set kind: MoveKind, from: Square, to: Square, promo: Promo :: Move(kind, from, to, promo)

  ghost function LegalSet(p: Pos): set<Move> {
    set m | m in ALL_MOVES && Legal(p, m)
  }

  /** The number of ways to play d legal moves from p. */
  ghost function Games(p: Pos, d: nat): nat
    decreases d, 0
  {
    if d == 0 then 1 else GamesBy(p, LegalSet(p), d - 1)
  }

  /** The number of ways to play one of `moves` and then d more. */
  ghost function GamesBy(p: Pos, moves: set<Move>, d: nat): nat
    decreases d, 1, |moves|
  {
    if moves == {} then 0 else
      var m :| m in moves;
      Games(Next(p, m), d) + GamesBy(p, moves - {m}, d)
  }

  /** In whatever order the first moves are taken. */
  lemma {:induction false} GamesSplit(p: Pos, moves: set<Move>, m: Move, d: nat)
    requires m in moves
    ensures GamesBy(p, moves, d) == Games(Next(p, m), d) + GamesBy(p, moves - {m}, d)
    decreases |moves|
  {
    hide Games, Next;
    var x: Move :| x in moves && GamesBy(p, moves, d) == Games(Next(p, x), d) + GamesBy(p, moves - {x}, d);
    if x != m {
      GamesSplit(p, moves - {x}, m, d);
      GamesSplit(p, moves - {m}, x, d);
      assert moves - {x} - {m} == moves - {m} - {x};
    }
  }

  lemma LegalMember(p: Pos, m: Move)
    ensures m in LegalSet(p) <==> Legal(p, m)
  {
    assert Move(m.kind, m.from, m.to, m.promo) in ALL_MOVES;
  }

  /** A list that holds each legal move once. */
  ghost predicate Lists(p: Pos, list: seq<Move>) {
    forall m :: Count(list, m) == Bit(Legal(p, m))
  }

  function Taken(list: seq<Move>, i: nat): set<Move>
    requires i <= |list|
  {
    set m | m in list[..i]
  }

  /** One more entry of the list is one more first move. */
  lemma TakenMore(p: Pos, list: seq<Move>, i: nat, d: nat)
    requires Lists(p, list) && i < |list|
    ensures Legal(p, list[i])
    ensures GamesBy(p, Taken(list, i + 1), d) == GamesBy(p, Taken(list, i), d) + Games(Next(p, list[i]), d)
    ensures |Taken(list, i + 1)| == |Taken(list, i)| + 1
  {
    var m := list[i];
    assert list == list[..i] + [m] + list[i + 1..];
    assert Count(list, m) == multiset(list[..i])[m] + 1 + multiset(list[i + 1..])[m];
    assert Count(list, m) == Bit(Legal(p, m));
    assert m !in list[..i];
    assert list[..i + 1] == list[..i] + [m];
    assert Taken(list, i + 1) == Taken(list, i) + {m};
    assert Taken(list, i + 1) - {m} == Taken(list, i);
    hide Legal, Next, Games;
    GamesSplit(p, Taken(list, i + 1), m, d);
  }

  lemma TakenAll(p: Pos, list: seq<Move>)
    requires Lists(p, list)
    ensures Taken(list, |list|) == LegalSet(p)
  {
    assert list[..|list|] == list;
    forall m
      ensures m in Taken(list, |list|) <==> m in LegalSet(p)
    {
      assert Count(list, m) == Bit(Legal(p, m));
      assert m in multiset(list) <==> m in list;
      LegalMember(p, m);
    }
    hide Legal, LegalSet;
  }

  /** With no move to follow, each first move counts once. */
  lemma {:induction false} GamesOfOne(p: Pos, moves: set<Move>)
    ensures GamesBy(p, moves, 0) == |moves|
    decreases |moves|
  {
    if moves != {} {
      var m :| m in moves;
      GamesSplit(p, moves, m, 0);
      GamesOfOne(p, moves - {m});
    }
    hide Next;
  }

  lemma {:induction false} TakenSize(p: Pos, list: seq<Move>, i: nat)
    requires Lists(p, list) && i <= |list|
    ensures |Taken(list, i)| == i
  {
    if i > 0 {
      TakenSize(p, list, i - 1);
      TakenMore(p, list, i - 1, 0);
    }
    hide Lists, Legal, Next;
  }

  // ----- the walk -----

  /** pos_gives_check, as pos_do_move's callers pass it. */
  method ChecksOf(pos: Position.Position, m: Move) returns (r: bool)
    requires pos.Valid() && Legal(pos.Abs(), m)
    ensures r == ChecksAfter(pos.Abs(), m)
  {
    hide *;
    pos.Top();
    pos.Seen();
    GivesCheckExact(pos.z, pos.Abs(), pos.Snap(), m);
    r := GivesCheck(pos.Snap(), m);
    ChecksAfterIs(pos.Abs(), m);
  }

  lemma ChecksAfterIs(p: Pos, m: Move)
    requires HasKing(After(p.board, p.side, m), Flip(p.side))
    ensures ChecksAfter(p, m) == InCheck(After(p.board, p.side, m), Flip(p.side))
  {
    hide HasKing, InCheck, After;
  }

  method LegalMoves(pos: Position.Position) returns (list: seq<Move>)
    requires pos.Valid()
    ensures Lists(pos.Abs(), list)
  {
    hide *;
    pos.Top();
    pos.Seen();
    list := GenerateLegal(pos.z, pos.Abs(), pos.Snap());
    ListsIs(pos.Abs(), list);
  }

  lemma ListsIs(p: Pos, list: seq<Move>)
    ensures Lists(p, list) <==> forall m :: Count(list, m) == Bit(Legal(p, m))
  {
    hide Legal;
  }

  /** perft: every legal line of the given length is walked once, and the position is given back
      as it was. Below the root the last ply is counted without being made. */
  method Perft(pos: Position.Position, dts: Position.DirtyThreats, depth: int, root: bool) returns (total: nat)
    requires pos.Valid()
    modifies pos`board, pos`byType, pos`byColor, pos`pieceCount, pos`sideToMove, pos`gamePly, pos`states, pos`trail,
             pos`words, dts
    ensures pos.Valid() && pos.Abs() == old(pos.Abs())
    ensures pos.states == old(pos.states) && pos.trail == old(pos.trail) && pos.words == old(pos.words)
    ensures total == Games(pos.Abs(), if depth <= 1 then 1 else depth)
    decreases depth
  {
    hide *;
    pos.Top();
    ghost var p := pos.Abs();
    var list := LegalMoves(pos);
    ListTotal(p, list);
    if depth <= 1 && !root {
      return |list|;
    }
    total := 0;
    var i := 0;
    while i < |list|
      invariant 0 <= i <= |list|
      invariant pos.states == old(pos.states) && pos.Valid() && pos.Abs() == p
      invariant pos.trail == old(pos.trail) && pos.words == old(pos.words)
      invariant total == GamesBy(p, Taken(list, i), if depth <= 1 then 0 else depth - 1)
    {
      var n := 1;
      TakenMore(p, list, i, if depth <= 1 then 0 else depth - 1);
      if depth > 1 {
        n := PlyOf(pos, dts, list[i], depth);
      } else {
        NoPly(Next(p, list[i]));
      }
      total := total + n;
      i := i + 1;
    }
    GamesAll(p, if depth <= 1 then 0 else depth - 1);
  }

  /** Make, walk, unmake. */
  method PlyOf(pos: Position.Position, dts: Position.DirtyThreats, m: Move, depth: int) returns (n: nat)
    requires pos.Valid() && Legal(pos.Abs(), m) && depth > 1
    modifies pos`board, pos`byType, pos`byColor, pos`pieceCount, pos`sideToMove, pos`gamePly, pos`states, pos`trail,
             pos`words, dts
    ensures pos.Valid() && pos.Abs() == old(pos.Abs())
    ensures pos.states == old(pos.states) && pos.trail == old(pos.trail) && pos.words == old(pos.words)
    ensures n == Games(Next(pos.Abs(), m), depth - 1)
    decreases depth, 0
  {
    hide *;
    pos.Top();
    var check := ChecksOf(pos, m);
    var dp := pos.DoMove(m, check, dts);
    n := Perft(pos, dts, depth - 1, false);
    pos.UndoMove(m);
  }

  lemma ListTotal(p: Pos, list: seq<Move>)
    requires Lists(p, list)
    ensures |list| == Games(p, 1) && Taken(list, |list|) == LegalSet(p) && Taken(list, 0) == {} &&
            forall d: nat :: GamesBy(p, {}, d) == 0
  {
    TakenSize(p, list, |list|);
    TakenAll(p, list);
    GamesOfOne(p, LegalSet(p));
    hide Lists, LegalSet, Legal;
  }

  lemma NoPly(p: Pos)
    ensures Games(p, 0) == 1
  {
  }

  lemma GamesAll(p: Pos, d: nat)
    ensures Games(p, d + 1) == GamesBy(p, LegalSet(p), d)
  {
    hide LegalSet;
  }
}
