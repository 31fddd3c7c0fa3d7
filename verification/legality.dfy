/** pos_legal: the direct test of a normal move word, and the list scan for the rest. */
module Legality {
  import opened Squares
  import opened Types
  import opened Board
  import opened Rules
  import opened Attacks
  import opened Pins
  import opened Derived
  import opened Views
  import opened MoveGen
  import opened LegalMoves
  import opened Exactness

  /** The word with its promotion bits zeroed: the direct test of a normal move ignores them. */
  function Plain(m: Move): Move {
    if m.kind == Normal then m.(promo := Knight) else m
  }

  /** A pawn's normal move, as the direct test spells it. */
  predicate PawnTest(v: View, from: Square, to: Square)
    requires |v.byType| == 7 && |v.byColor| == 2
  {
    var us := v.side;
    var push := if us == White then 8 else -8;
    && to !in RankBB(7) + RankBB(0)
    && (|| to in SetOfPawnAttacks(us, {from}) * PiecesC(v, Flip(us))
        || (from + push == to && v.board[to] == NoPiece)
        || (from + 2 * push == to && RelativeRank(us, from) == 1 && v.board[to] == NoPiece &&
             v.board[to - push] == NoPiece))
  }

  /** The direct test, given the threat set a king move needs. */
  predicate DirectTest(v: View, attacked: Bitboard, from: Square, to: Square)
    requires |v.byType| == 7 && |v.byColor| == 2 && |v.st.blockers| == 2 && PiecesCP(v, v.side, King) != {}
  {
    var us := v.side;
    var pc := v.board[from];
    var ksq := KingSquare(v, us);
    && pc.Piece? && pc.color == us
    && to !in PiecesC(v, us)
    && (if pc.kind == Pawn then PawnTest(v, from, to) else to in AttacksBB(pc.kind, from, Pieces(v)))
    && if pc.kind == King then to !in attacked else
         && (v.st.checkers != {} ==> !MoreThanOne(v.st.checkers) && to in BetweenBB(ksq, Lsb(v.st.checkers)))
         && (from !in v.st.blockers[ColorIndex(us)] || ksq in LineBB(from, to))
  }

  method PosLegal(ghost z: Zobrist, ghost p: Pos, v: View, m: Move) returns (legal: bool)
    requires WellFormed(p) && Represents(z, p, v)
    ensures legal <==> Legal(p, Plain(m))
  {
    ghost var word := Plain(m);
    assert m.kind != Normal ==> word == m;
    hide *;
    if m.kind != Normal {
      var list := GenerateLegal(z, p, v);
      assert Count(list, m) == Bit(Legal(p, m));
      CountIsMembership(list, m, Legal(p, m));
      legal := m in list;
    } else {
      SceneHolds(z, p, v);
      GenerableReadable(v);
      var attacked := AllThreatsForKing(z, p, v);
      legal := DirectTest(v, attacked, m.from, m.to);
      DirectTestExact(p, v, KingSquare(v, v.side), attacked, m);
    }
  }

  lemma CountIsMembership(list: seq<Move>, m: Move, legal: bool)
    requires Count(list, m) == Bit(legal)
    ensures m in list <==> legal
  {
  }

  method AllThreatsForKing(ghost z: Zobrist, ghost p: Pos, v: View) returns (attacked: Bitboard)
    requires WellFormed(p) && Represents(z, p, v)
    ensures |v.byType| == 7 && |v.byColor| == 2 && PiecesCP(v, v.side, King) != {}
    ensures attacked == AllThreatsBB(v.board, Flip(v.side), KingSquare(v, v.side))
  {
    SceneHolds(z, p, v);
    GenerableReadable(v);
    hide WellFormed, Represents, Scene, KingSquare, AllThreatsBB, KingOf, HasKing, PiecesCP, IsKing, TypesSynced,
         ColorsSynced;
    attacked := AllThreats(v);
  }

  lemma PawnTestMeans(b: Board, us: Color, k: Square, v: View, from: Square, to: Square)
    requires Reads(b, us, k, v) && PawnsInside(b) && b[from] == Piece(us, Pawn) && !IsColor(b, us, to)
    ensures |v.byType| == 7 && |v.byColor| == 2
    ensures PawnTest(v, from, to) <==> Moves(b, us, from, to) && RelativeRank(us, from) != 6
  {
    ReadsSizes(b, us, k, v);
    assert PiecesC(v, Flip(us)) == OfColor(b, Flip(us)) by { hide AttackersBB, Blocker, IsKing; }
    PawnShift(us, from, to);
    if Moves(b, us, from, to) {
      PawnRanks(b, us, from, to);
    }
    Coords(from); Coords(to);
    assert from + Up(us) == to || from + 2 * Up(us) == to ==> 0 <= from + Up(us) < 64;
    assert to in RankBB(7) + RankBB(0) <==> Rank(to) == 7 || Rank(to) == 0;
    hide Reads, File, Rank, SetOfPawnAttacks, RankBB, PawnStep;
  }

  lemma PawnShift(us: Color, from: Square, to: Square)
    ensures to in SetOfPawnAttacks(us, {from}) <==> PawnStep(us, from, to)
  {
    PawnThreatMember(us, {from}, to);
    hide SetOfPawnAttacks, PawnStep;
  }

  /** The direct test is NormalLegal. */
  lemma DirectTestExact(p: Pos, v: View, k: Square, attacked: Bitboard, m: Move)
    requires WellFormed(p) && Scene(p, v, k) && m.kind == Normal
    requires |v.byType| == 7 && |v.byColor| == 2 && |v.st.blockers| == 2 && PiecesCP(v, v.side, King) != {}
    requires KingSquare(v, v.side) == k && attacked == AllThreatsBB(p.board, Flip(p.side), k)
    ensures DirectTest(v, attacked, m.from, m.to) <==> Legal(p, Plain(m))
  {
    var b, us := p.board, p.side;
    NormalLegal(p, Plain(m), k);
    PawnsStayInside(p);
    CheckMask(b, us, k, v, m.to);
    ReadsSizes(b, us, k, v);
    DirectShape(b, us, k, v, m);
    DirectSafe(b, us, k, v, attacked, m);
    KingUniqueHere(b, us, k, m.from);
    hide WellFormed, Reads, Moves, SafeMover, Threatened, Legal, PawnTest, AllThreatsBB, KingSquare, IsKing, Attacker,
         Span,
         Occupied, RelativeRank, AttacksBB, MoreThanOne, StageTarget, PinFree;
  }

  lemma PawnsStayInside(p: Pos)
    requires WellFormed(p)
    ensures PawnsInside(p.board)
  {
  }

  lemma KingUniqueHere(b: Board, us: Color, k: Square, s: Square)
    requires IsKing(b, us, k)
    ensures IsColor(b, us, s) ==> (b[s].kind == King <==> s == k)
  {
  }

  /** How the piece moves. */
  lemma DirectShape(b: Board, us: Color, k: Square, v: View, m: Move)
    requires Reads(b, us, k, v) && PawnsInside(b)
    ensures |v.byType| == 7 && |v.byColor| == 2
    ensures (&& IsColor(b, us, m.from) && m.to !in PiecesC(v, us)
             && if b[m.from].kind == Pawn then PawnTest(v, m.from, m.to)
               else m.to in AttacksBB(b[m.from].kind, m.from, Pieces(v)))
            <==> Moves(b, us, m.from, m.to) && (b[m.from].kind == Pawn ==> RelativeRank(us, m.from) != 6)
  {
    ReadsSizes(b, us, k, v);
    assert PiecesC(v, us) == OfColor(b, us) && Pieces(v) == Occupied(b) by { hide AttackersBB, Blocker, IsKing; }
    if IsColor(b, us, m.from) && !IsColor(b, us, m.to) {
      if b[m.from].kind == Pawn {
        PawnTestMeans(b, us, k, v, m.from, m.to);
      } else {
        ColourFree(b[m.from].kind, us, m.from, m.to, Occupied(b));
      }
    }
    hide Reads, PawnTest, Hits, Occupied, PawnPush, PawnDouble, PawnCapture, RelativeRank;
  }

  /** Whether the king is safe. */
  lemma DirectSafe(b: Board, us: Color, k: Square, v: View, attacked: Bitboard, m: Move)
    requires Reads(b, us, k, v) && |v.byType| == 7 && |v.byColor| == 2
    requires attacked == AllThreatsBB(b, Flip(us), k)
    ensures |v.st.blockers| == 2
    ensures m.to in attacked <==> Threatened(b, Flip(us), k, m.to)
    ensures m.from != k && m.to != k && m.from != m.to ==>
              (SafeMover(b, us, k, m.from, m.to) <==>
               && (v.st.checkers != {} ==> !MoreThanOne(v.st.checkers) && m.to in BetweenBB(k, Lsb(v.st.checkers)))
               && (m.from !in v.st.blockers[ColorIndex(us)] || k in LineBB(m.from, m.to)))
  {
    ReadsSizes(b, us, k, v);
    CheckMask(b, us, k, v, m.to);
    assert v.st.blockers[ColorIndex(us)] == BlockersBB(b, Flip(us), k);
    BlockerListed(b, Flip(us), k, m.from);
    OnLineSym(k, m.from, m.to);
    OnLineSym(m.from, m.to, k);
    OnLineSym(m.from, k, m.to);
    assert k in LineBB(m.from, m.to) <==> OnLine(m.from, m.to, k);
    hide Reads, Threatened, Blocker, BlockersBB, OnLine, LineBB, BetweenBB, Attacker, Span, Occupied, MoreThanOne;
  }
}
