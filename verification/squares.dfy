/** Squares of the board and the relations between them: the specification layer's geometry.

    A square is the source's own index, rank-major from a1. Everything a slider can do is
    stated with one ternary relation, "x lies strictly between a and b on a line", and one
    collinearity relation; the attack tables are defined from them. */
module Squares {

  type Square = s: int | 0 <= s < 64

  type Bitboard = set<Square>

  function File(s: Square): (f: int)
    ensures 0 <= f < 8
  {
    s % 8
  }

  function Rank(s: Square): (r: int)
    ensures 0 <= r < 8
  {
    s / 8
  }

  function MakeSquare(file: int, rank: int): (s: Square)
    requires 0 <= file < 8 && 0 <= rank < 8
    ensures File(s) == file && Rank(s) == rank
  {
    8 * rank + file
  }

  lemma Coords(s: Square)
    ensures s == 8 * Rank(s) + File(s)
  {
  }

  predicate Strictly(i: int, j: int, k: int) {
    i < j < k || k < j < i
  }

  /** x lies strictly between a and b on a rank, file or diagonal. */
  predicate Inside(a: Square, x: Square, b: Square) {
    || (File(a) == File(b) == File(x) && Strictly(Rank(a), Rank(x), Rank(b)))
    || (Rank(a) == Rank(b) == Rank(x) && Strictly(File(a), File(x), File(b)))
    || (File(a) - Rank(a) == File(b) - Rank(b) == File(x) - Rank(x) && Strictly(File(a), File(x), File(b)))
    || (File(a) + Rank(a) == File(b) + Rank(b) == File(x) + Rank(x) && Strictly(File(a), File(x), File(b)))
  }

  /** x lies on the full line through the distinct squares a and b. */
  predicate OnLine(a: Square, b: Square, x: Square) {
    && a != b
    && (|| File(a) == File(b) == File(x)
        || Rank(a) == Rank(b) == Rank(x)
        || File(a) - Rank(a) == File(b) - Rank(b) == File(x) - Rank(x)
        || File(a) + Rank(a) == File(b) + Rank(b) == File(x) + Rank(x))
  }

  predicate RookLine(a: Square, b: Square) {
    a != b && (File(a) == File(b) || Rank(a) == Rank(b))
  }

  predicate BishopLine(a: Square, b: Square) {
    a != b && (File(a) - Rank(a) == File(b) - Rank(b) || File(a) + Rank(a) == File(b) + Rank(b))
  }

  function Abs(i: int): nat {
    if i < 0 then -i else i
  }

  predicate KnightStep(a: Square, b: Square) {
    || (Abs(File(a) - File(b)) == 1 && Abs(Rank(a) - Rank(b)) == 2)
    || (Abs(File(a) - File(b)) == 2 && Abs(Rank(a) - Rank(b)) == 1)
  }

  predicate KingStep(a: Square, b: Square) {
    a != b && Abs(File(a) - File(b)) <= 1 && Abs(Rank(a) - Rank(b)) <= 1
  }

  /** No occupied square strictly between a and b. */
  predicate Clear(a: Square, b: Square, occ: Bitboard) {
    forall x: Square :: Inside(a, x, b) ==> x !in occ
  }

  function Distance(a: Square, b: Square): nat {
    var df, dr := Abs(File(a) - File(b)), Abs(Rank(a) - Rank(b));
    if df < dr then dr else df
  }

  // ----- quantifier-free geometry, each a fact about at most four squares -----

  lemma InsideSym(a: Square, x: Square, b: Square)
    ensures Inside(a, x, b) <==> Inside(b, x, a)
  {
  }

  lemma InsideDistinct(a: Square, x: Square, b: Square)
    requires Inside(a, x, b)
    ensures a != x && x != b && a != b
  {
  }

  /** The line's kind is shared by every pair of squares on it. */
  lemma InsideKind(a: Square, x: Square, b: Square)
    requires Inside(a, x, b)
    ensures RookLine(a, b) <==> RookLine(a, x)
    ensures BishopLine(a, b) <==> BishopLine(a, x)
    ensures RookLine(a, b) || BishopLine(a, b)
    ensures !(RookLine(a, b) && BishopLine(a, b))
  {
    Coords(a); Coords(x); Coords(b);
    hide File, Rank;
  }

  lemma InsideLine(a: Square, x: Square, b: Square)
    requires Inside(a, x, b)
    ensures OnLine(a, x, b) && OnLine(a, b, x) && OnLine(x, b, a)
  {
    Coords(a); Coords(x); Coords(b);
    hide File, Rank;
  }

  lemma InsideTrans(a: Square, y: Square, x: Square, b: Square)
    requires Inside(a, x, b) && Inside(a, y, x)
    ensures Inside(a, y, b) && Inside(y, x, b)
  {
    Coords(a); Coords(x); Coords(y); Coords(b);
    hide File, Rank;
  }

  /** Two squares between a and b are ordered. */
  lemma InsideOrder(a: Square, x: Square, y: Square, b: Square)
    requires Inside(a, x, b) && Inside(a, y, b) && x != y
    ensures Inside(a, x, y) || Inside(a, y, x)
    ensures Inside(a, x, y) ==> Inside(x, y, b) && !Inside(a, y, x)
  {
    Coords(a); Coords(x); Coords(y); Coords(b);
    hide File, Rank;
  }

  /** Two squares seen from k past the same square t are on one ray. */
  lemma InsideFan(k: Square, t: Square, a: Square, b: Square)
    requires Inside(k, t, a) && Inside(k, t, b) && a != b
    ensures Inside(k, a, b) || Inside(k, b, a)
  {
    Coords(k); Coords(t); Coords(a); Coords(b);
    hide File, Rank;
  }

  lemma InsideSplit(a: Square, x: Square, b: Square, y: Square)
    requires Inside(a, x, b) && Inside(a, y, b)
    ensures y == x || Inside(a, y, x) || Inside(x, y, b)
  {
    Coords(a); Coords(x); Coords(y); Coords(b);
    hide File, Rank;
  }

  lemma InsideDistance(a: Square, x: Square, b: Square)
    requires Inside(a, x, b)
    ensures Distance(a, x) < Distance(a, b) && Distance(x, b) < Distance(a, b)
  {
    Coords(a); Coords(x); Coords(b);
    hide File, Rank;
  }

  /** A piece on f between k and a that moves along the line and passes over neither
      stays between them, or captures a. */
  lemma PinRay(k: Square, f: Square, a: Square, t: Square)
    requires Inside(k, f, a) && OnLine(k, f, t)
    requires t != f && t != k && !Inside(f, k, t) && !Inside(f, a, t)
    ensures t == a || Inside(k, t, a)
  {
    Coords(k); Coords(f); Coords(a); Coords(t);
    hide File, Rank;
  }

  lemma OnLineSym(a: Square, b: Square, x: Square)
    ensures OnLine(a, b, x) <==> OnLine(b, a, x)
    ensures a != b && x != a && x != b ==> (OnLine(a, b, x) <==> OnLine(a, x, b))
  {
    Coords(a); Coords(b); Coords(x);
    hide File, Rank;
  }

  lemma KnightOffLine(a: Square, b: Square)
    requires KnightStep(a, b)
    ensures !RookLine(a, b) && !BishopLine(a, b) && a != b
    ensures forall x: Square :: !OnLine(a, b, x) && !Inside(a, x, b)
  {
  }

  lemma KingStepClear(a: Square, b: Square)
    requires KingStep(a, b)
    ensures forall x: Square :: !Inside(a, x, b)
    ensures RookLine(a, b) || BishopLine(a, b)
  {
  }

  lemma ClearSym(a: Square, b: Square, occ: Bitboard)
    ensures Clear(a, b, occ) <==> Clear(b, a, occ)
  {
    hide Inside;
    forall x: Square
      ensures Inside(a, x, b) <==> Inside(b, x, a)
    {
      InsideSym(a, x, b);
    }
  }

  /** Walking from a towards b, the first occupied square met, or b itself. */
  lemma FirstHit(a: Square, b: Square, occ: Bitboard) returns (y: Square)
    ensures y == b || (Inside(a, y, b) && y in occ)
    ensures Clear(a, y, occ)
    decreases Distance(a, b)
  {
    hide Inside, Distance;
    if Clear(a, b, occ) {
      y := b;
    } else {
      var x: Square :| Inside(a, x, b) && x in occ;
      InsideDistance(a, x, b);
      y := FirstHit(a, x, occ);
      if y != x {
        InsideTrans(a, y, x, b);
      }
    }
  }
}
