/** The subtract, reverse and xor form of the slider attacks, lane by lane, and the six-bit rank
    lookup, against the ray cast. */
module Hyperbola {
  import opened Squares
  import opened Types
  import opened Attacks
  import opened WordArithmetic

  datatype Line = FileLine | DiagLine | AntiLine | RankLine

  /** The lines through s, s itself left out. */
  predicate OnMask(line: Line, s: Square, t: Square) {
    t != s &&
    match line
    case FileLine => File(t) == File(s)
    case RankLine => Rank(t) == Rank(s)
    case DiagLine => File(t) - Rank(t) == File(s) - Rank(s)
    case AntiLine => File(t) + Rank(t) == File(s) + Rank(s)
  }

  function LineMask(line: Line, s: Square): Bitboard {
    set t: Square | OnMask(line, s, t)
  }

  /** Twice the bit of s: nothing when it leaves the word. */
  function Doubled(s: Square): Bitboard {
    if s < 63 then {s + 1} else {}
  }

  /** Where a bit goes when the word is reversed: every bit of it, or only its bytes. */
  function Image(full: bool, t: Square): (r: Square) {
    if full then 63 - t else MakeSquare(File(t), 7 - Rank(t))
  }

  function Reversed(full: bool, w: Bitboard): Bitboard {
    set t: Square | Image(full, t) in w
  }

  lemma ImageTwice(full: bool, t: Square)
    ensures Image(full, Image(full, t)) == t
  {
    Coords(t);
  }

  /** One lane of both_attacks_bb. The doubled bit that is subtracted on the way back is the full
      reversal's, whichever reversal the lane uses. */
  function Lane(line: Line, full: bool, s: Square, occ: Bitboard): Bitboard {
    var mask := LineMask(line, s);
    var o := occ * mask;
    var forth := Minus(o, Doubled(s));
    var back := Reversed(full, Minus(Reversed(full, o), Doubled(63 - s)));
    Xor(forth, back) * mask
  }

  /** What a lane should be. */
  function LineAttacks(line: Line, s: Square, occ: Bitboard): Bitboard {
    set t: Square | OnMask(line, s, t) && Clear(s, t, occ)
  }

  /** Along a line, index order is line order, and the reversed index runs the other way. A byte
      reversal keeps that on every line but the rank. */
  lemma LineOrder(line: Line, full: bool, s: Square, i: Square, x: Square)
    requires OnMask(line, s, i) && (line == RankLine ==> full)
    ensures Image(full, i) >= 64 - s <==> i < s
    ensures Inside(s, x, i) ==> OnMask(line, s, x)
    ensures OnMask(line, s, x) && i > s ==> (s < x < i <==> Inside(s, x, i))
    ensures OnMask(line, s, x) && i < s ==> (64 - s <= Image(full, x) < Image(full, i) <==> Inside(s, x, i))
  {
    Coords(s); Coords(i); Coords(x); Coords(Image(full, i)); Coords(Image(full, x));
    hide File, Rank;
  }

  /** The forward run: from the square after s up to the first blocker. */
  lemma Forth(line: Line, full: bool, s: Square, occ: Bitboard, i: Square)
    requires OnMask(line, s, i) && (line == RankLine ==> full)
    ensures var o := occ * LineMask(line, s);
            (i in Minus(o, Doubled(s))) != (i in o) <==> i > s && Clear(s, i, occ)
  {
    var o := occ * LineMask(line, s);
    if s < 63 {
      MinusRun(o, s + 1, i);
    } else {
      MinusNothing(o);
    }
    hide Minus;
    forall x: Square
      ensures i > s ==> (x in o && s + 1 <= x < i <==> x in occ && Inside(s, x, i))
    {
      LineOrder(line, full, s, i, x);
      hide Inside, Image;
    }
    hide Inside, LineMask, OnMask;
  }

  /** The backward run, seen in the reversed word. */
  lemma Back(line: Line, full: bool, s: Square, occ: Bitboard, i: Square)
    requires OnMask(line, s, i) && (line == RankLine ==> full)
    ensures var o := occ * LineMask(line, s);
            (i in Reversed(full, Minus(Reversed(full, o), Doubled(63 - s)))) != (i in o) <==> i < s && Clear(s, i, occ)
  {
    var o := occ * LineMask(line, s);
    var i' := Image(full, i);
    ImageTwice(full, i);
    if s > 0 {
      MinusRun(Reversed(full, o), 64 - s, i');
    } else {
      MinusNothing(Reversed(full, o));
    }
    LineOrder(line, full, s, i, i);
    BackClear(line, full, s, occ, i);
    hide Minus, Inside, LineMask, OnMask, Image, Clear;
  }

  lemma BackClear(line: Line, full: bool, s: Square, occ: Bitboard, i: Square)
    requires OnMask(line, s, i) && (line == RankLine ==> full)
    ensures var w := Reversed(full, occ * LineMask(line, s));
            i < s ==> ((forall j: Square :: 64 - s <= j < Image(full, i) ==> j !in w) <==> Clear(s, i, occ))
  {
    var w := Reversed(full, occ * LineMask(line, s));
    if i < s {
      forall j: Square | 64 - s <= j < Image(full, i)
        ensures j in w ==> Image(full, j) in occ && Inside(s, Image(full, j), i)
      {
        BackInside(line, full, s, occ, i, j);
      }
      forall x: Square | Inside(s, x, i) && x in occ
        ensures Image(full, x) in w && 64 - s <= Image(full, x) < Image(full, i)
      {
        InsideBack(line, full, s, occ, i, x);
      }
    }
    hide Inside, LineMask, OnMask, Image, Reversed;
  }

  /** A bit of the reversed word below the image of i comes from a square between s and i. */
  lemma BackInside(line: Line, full: bool, s: Square, occ: Bitboard, i: Square, j: Square)
    requires OnMask(line, s, i) && (line == RankLine ==> full) && i < s && 64 - s <= j < Image(full, i)
    ensures j in Reversed(full, occ * LineMask(line, s)) ==> Image(full, j) in occ && Inside(s, Image(full, j), i)
  {
    ImageTwice(full, j);
    LineOrder(line, full, s, i, Image(full, j));
    hide Inside, Image;
  }

  lemma InsideBack(line: Line, full: bool, s: Square, occ: Bitboard, i: Square, x: Square)
    requires OnMask(line, s, i) && (line == RankLine ==> full) && i < s && Inside(s, x, i) && x in occ
    ensures Image(full, x) in Reversed(full, occ * LineMask(line, s)) && 64 - s <= Image(full, x) < Image(full, i)
  {
    ImageTwice(full, x);
    LineOrder(line, full, s, i, x);
    hide Inside, Image;
  }

  /** Every lane is the ray cast both ways along its line. */
  lemma LaneExact(line: Line, full: bool, s: Square, occ: Bitboard)
    requires line == RankLine ==> full
    ensures Lane(line, full, s, occ) == LineAttacks(line, s, occ)
  {
    forall i: Square
      ensures i in Lane(line, full, s, occ) <==> i in LineAttacks(line, s, occ)
    {
      if OnMask(line, s, i) {
        Forth(line, full, s, occ, i);
        Back(line, full, s, occ, i);
        assert i != s;
      }
      hide Minus, Clear, OnMask, Reversed, Doubled;
    }
    hide Lane, LineAttacks;
  }

  // ----- the rank, where a byte reversal moves nothing -----

  predicate BitFrom(w: set<int>, n: int, t: int) {
    t - n in w
  }

  /** A word shifted by n, upwards when n is positive. */
  function Shift(w: set<int>, n: int): Bitboard {
    set t: Square | BitFrom(w, n, t)
  }

  /** RankAttacks[file][occ6]: the first rank's attacks, from the six inner bits. */
  function RankTable(file: int, occ6: set<int>): Bitboard
    requires 0 <= file < 8
  {
    AttacksBB(Rook, file, Shift(occ6, 1)) * RankBB(0)
  }

  /** `(occupied >> (shift + 1)) & 0x3f`. */
  function InnerBits(occ: Bitboard, shift: int): Bitboard {
    Shift(occ, -(shift + 1)) * {0, 1, 2, 3, 4, 5}
  }

  /** The table entry shifted back up to the rank of s. */
  function RankLookup(s: Square, occ: Bitboard): Bitboard {
    var shift := 8 * Rank(s);
    Shift(RankTable(File(s), InnerBits(occ, shift)), shift)
  }

  /** The two edge squares carry no information: nothing lies beyond them. */
  lemma RankExact(s: Square, occ: Bitboard)
    ensures RankLookup(s, occ) == LineAttacks(RankLine, s, occ)
  {
    var shift := 8 * Rank(s);
    var inner := Shift(InnerBits(occ, shift), 1);
    forall t: Square
      ensures t in RankLookup(s, occ) <==> t in LineAttacks(RankLine, s, occ)
    {
      RankMember(s, occ, inner, t);
      hide LineAttacks, RankTable, InnerBits;
    }
    hide RankLookup, LineAttacks;
  }

  lemma RankMember(s: Square, occ: Bitboard, inner: Bitboard, t: Square)
    requires inner == Shift(InnerBits(occ, 8 * Rank(s)), 1)
    ensures t - 8 * Rank(s) in RankTable(File(s), InnerBits(occ, 8 * Rank(s))) <==> t in LineAttacks(RankLine, s, occ)
  {
    var shift := 8 * Rank(s);
    Coords(s); Coords(t);
    if 0 <= t - shift < 8 {
      var t0: Square := t - shift;
      Coords(t0);
      RankClear(s, occ, inner, t, t0);
      assert t0 in RankTable(File(s), InnerBits(occ, shift)) <==>
             RookLine(File(s), t0) && Clear(File(s), t0, inner) && Rank(t0) == 0;
    }
    hide File, Rank, Clear, InnerBits;
  }

  lemma RankClear(s: Square, occ: Bitboard, inner: Bitboard, t: Square, t0: Square)
    requires inner == Shift(InnerBits(occ, 8 * Rank(s)), 1)
    requires Rank(t) == Rank(s) && t0 == File(t)
    ensures Clear(File(s), t0, inner) <==> Clear(s, t, occ)
    ensures RookLine(File(s), t0) <==> t != s
  {
    var shift := 8 * Rank(s);
    Coords(s); Coords(t); Coords(t0); Coords(File(s));
    forall x: Square
      ensures Inside(s, x, t) ==>
              0 <= x - shift < 8 && Inside(File(s), x - shift, t0) && (x - shift in inner <==> x in occ)
    {
      RankDown(s, occ, inner, t, t0, x);
    }
    forall y: Square
      ensures Inside(File(s), y, t0) ==> y + shift < 64 && Inside(s, y + shift, t) && (y in inner <==> y + shift in occ)
    {
      RankUp(s, occ, inner, t, t0, y);
    }
    hide Inside, File, Rank, InnerBits;
  }

  /** Squares strictly inside a rank, moved to the first one. */
  lemma RankDown(s: Square, occ: Bitboard, inner: Bitboard, t: Square, t0: Square, x: Square)
    requires inner == Shift(InnerBits(occ, 8 * Rank(s)), 1)
    requires Rank(t) == Rank(s) && t0 == File(t)
    ensures var shift := 8 * Rank(s);
            Inside(s, x, t) ==>
              0 <= x - shift < 8 && Inside(File(s), x - shift, t0) && (x - shift in inner <==> x in occ)
  {
    Coords(s); Coords(t); Coords(t0); Coords(File(s));
    if Inside(s, x, t) {
      Coords(x); Coords(x - 8 * Rank(s));
    }
    hide File, Rank;
  }

  lemma RankUp(s: Square, occ: Bitboard, inner: Bitboard, t: Square, t0: Square, y: Square)
    requires inner == Shift(InnerBits(occ, 8 * Rank(s)), 1)
    requires Rank(t) == Rank(s) && t0 == File(t)
    ensures var shift := 8 * Rank(s);
            Inside(File(s), y, t0) ==> y + shift < 64 && Inside(s, y + shift, t) && (y in inner <==> y + shift in occ)
  {
    Coords(s); Coords(t); Coords(t0); Coords(File(s));
    if Inside(File(s), y, t0) {
      Coords(y); Coords(y + 8 * Rank(s));
    }
    hide File, Rank;
  }

  // ----- both attack sets -----

  /** both_attacks_bb without the affine instruction: three reversed lanes and the rank lookup. */
  function BothByBytes(s: Square, occ: Bitboard): DualAttacks {
    DualAttacks(Lane(DiagLine, false, s, occ) + Lane(AntiLine, false, s, occ),
                Lane(FileLine, false, s, occ) + RankLookup(s, occ))
  }

  /** And with it: the full reversal lets the rank join as the fourth lane. */
  function BothByBits(s: Square, occ: Bitboard): DualAttacks {
    DualAttacks(Lane(DiagLine, true, s, occ) + Lane(AntiLine, true, s, occ),
                Lane(FileLine, true, s, occ) + Lane(RankLine, true, s, occ))
  }

  /** Both tiers are the ray cast, on every square and every occupancy. */
  lemma BothExact(s: Square, occ: Bitboard)
    ensures BothByBytes(s, occ) == BothAttacksBB(s, occ) && BothByBits(s, occ) == BothAttacksBB(s, occ)
  {
    LaneExact(DiagLine, false, s, occ);
    LaneExact(AntiLine, false, s, occ);
    LaneExact(FileLine, false, s, occ);
    LaneExact(DiagLine, true, s, occ);
    LaneExact(AntiLine, true, s, occ);
    LaneExact(FileLine, true, s, occ);
    LaneExact(RankLine, true, s, occ);
    RankExact(s, occ);
    LinesExact(s, occ);
    hide Lane, RankLookup, LineAttacks, AttacksBB;
  }

  lemma LinesExact(s: Square, occ: Bitboard)
    ensures LineAttacks(DiagLine, s, occ) + LineAttacks(AntiLine, s, occ) == AttacksBB(Bishop, s, occ)
    ensures LineAttacks(FileLine, s, occ) + LineAttacks(RankLine, s, occ) == AttacksBB(Rook, s, occ)
  {
    hide Clear, File, Rank;
  }
}
