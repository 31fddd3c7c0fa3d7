/** The ray casts and the tables built from them. */
module Rays {
  import opened Squares
  import opened Types
  import opened Rules
  import opened Attacks
  import MoveGen

  datatype Direction = Direction(df: int, dr: int)

  /** The index offset of a direction. */
  function Offset(d: Direction): int {
    d.df + 8 * d.dr
  }

  /** safe_step: guarded on the file distance as well as on the index. */
  function SafeStep(s: Square, delta: int): Option<Square> {
    var to := s + delta;
    if to < 0 || to >= 64 then None
    else
      var df := File(to) - File(s);
      if df < -2 || df > 2 then None else Some(to)
  }

  /** For the steps the tables use, it is the step by file and rank, when that stays on the board. */
  lemma SafeStepIs(s: Square, d: Direction)
    requires -2 <= d.df <= 2 && -2 <= d.dr <= 2
    ensures var f, r := File(s) + d.df, Rank(s) + d.dr;
            SafeStep(s, Offset(d)) == if 0 <= f < 8 && 0 <= r < 8 then Some(MakeSquare(f, r)) else None
  {
    Coords(s);
    var to := s + Offset(d);
    var f, r := File(s) + d.df, Rank(s) + d.dr;
    assert to == f + 8 * r;
    if 0 <= to < 64 {
      Coords(to);
    }
  }

  // ----- one ray -----

  predicate Unit(d: Direction) {
    -1 <= d.df <= 1 && -1 <= d.dr <= 1 && (d.df != 0 || d.dr != 0)
  }

  function Times(sign: int, k: int): int {
    if sign == 1 then k else if sign == -1 then -k else 0
  }

  /** t is k steps from s in direction d. */
  predicate At(s: Square, d: Direction, k: int, t: Square) {
    File(t) == File(s) + Times(d.df, k) && Rank(t) == Rank(s) + Times(d.dr, k)
  }

  predicate OnDirection(s: Square, d: Direction, t: Square) {
    Distance(s, t) >= 1 && At(s, d, Distance(s, t), t)
  }

  /** The squares the ray from s in direction d reaches, the first blocker included. */
  function RayBB(s: Square, d: Direction, occ: Bitboard): Bitboard {
    set t: Square | OnDirection(s, d, t) && Clear(s, t, occ)
  }

  /** Between s and a square k steps away lie the squares of the ray nearer than that. */
  lemma InsideAt(s: Square, d: Direction, t: Square, x: Square)
    requires Unit(d) && OnDirection(s, d, t)
    ensures Inside(s, x, t) <==> OnDirection(s, d, x) && Distance(s, x) < Distance(s, t)
  {
    Coords(s); Coords(t); Coords(x);
    hide File, Rank;
  }

  lemma AtIs(s: Square, d: Direction, k: int, t: Square)
    requires Unit(d) && k >= 1
    ensures At(s, d, k, t) <==> OnDirection(s, d, t) && Distance(s, t) == k
  {
    Coords(s); Coords(t);
    hide File, Rank;
  }

  /** One more step along the ray, when the board allows it. */
  lemma NextAt(s: Square, d: Direction, k: int, sq: Square)
    requires Unit(d) && k >= 0 && At(s, d, k, sq)
    ensures SafeStep(sq, Offset(d)).Some? ==> At(s, d, k + 1, SafeStep(sq, Offset(d)).value)
    ensures SafeStep(sq, Offset(d)) == None ==> forall t: Square :: OnDirection(s, d, t) ==> Distance(s, t) <= k
  {
    SafeStepIs(sq, d);
    Coords(s); Coords(sq);
    var f, r := File(sq) + d.df, Rank(sq) + d.dr;
    if 0 <= f < 8 && 0 <= r < 8 {
      Coords(MakeSquare(f, r));
    } else {
      forall t: Square | OnDirection(s, d, t)
        ensures Distance(s, t) <= k
      {
        Coords(t);
        hide File, Rank;
      }
    }
  }

  lemma FarFirst(s: Square, d: Direction, t: Square, x: Square, occ: Bitboard)
    requires Unit(d) && OnDirection(s, d, t) && OnDirection(s, d, x) && x in occ && Distance(s, x) < Distance(s, t)
    ensures !Clear(s, t, occ)
  {
    InsideAt(s, d, t, x);
    hide Inside, OnDirection, Distance;
  }

  /** Everything nearer than t is empty. */
  lemma NearEmpty(s: Square, d: Direction, t: Square, occ: Bitboard)
    requires Unit(d) && OnDirection(s, d, t)
    requires forall x: Square :: OnDirection(s, d, x) && Distance(s, x) < Distance(s, t) ==> x !in occ
    ensures Clear(s, t, occ)
  {
    forall x: Square | Inside(s, x, t)
      ensures x !in occ
    {
      InsideAt(s, d, t, x);
    }
    hide Inside, OnDirection, Distance;
  }

  /** The inner loop of sliding_attack. */
  method CastRay(s: Square, d: Direction, occ: Bitboard, attacks0: Bitboard) returns (attacks: Bitboard)
    requires Unit(d)
    ensures attacks == attacks0 + RayBB(s, d, occ)
  {
    attacks := attacks0;
    var sq := s;
    ghost var k := 0;
    ghost var got: Bitboard := {};
    NothingNearer(s, d);
    hide *;
    while true
      invariant 0 <= k < 8 && At(s, d, k, sq) && Unit(d)
      invariant RayTo(s, d, occ, k, got) && attacks == attacks0 + got
      decreases 8 - k
    {
      NextAt(s, d, k, sq);
      var next := SafeStep(sq, Offset(d));
      if next == None {
        RayEnds(s, d, occ, k, got);
        break;
      }
      sq := next.value;
      RayGrows(s, d, occ, k, sq, got);
      got := got + {sq};
      attacks := attacks + {sq};
      k := k + 1;
      if sq in occ {
        break;
      }
    }
  }

  /** The first k squares of the ray are empty, and they are what has been collected. */
  ghost predicate RayTo(s: Square, d: Direction, occ: Bitboard, k: int, got: Bitboard) {
    && (forall x: Square :: OnDirection(s, d, x) && Distance(s, x) <= k ==> x !in occ)
    && got == set t: Square | OnDirection(s, d, t) && Distance(s, t) <= k
  }

  lemma NothingNearer(s: Square, d: Direction)
    requires Unit(d)
    ensures At(s, d, 0, s) && forall occ :: RayTo(s, d, occ, 0, {})
  {
    forall t: Square
      ensures !(OnDirection(s, d, t) && Distance(s, t) <= 0)
    {
    }
    hide OnDirection, Distance;
  }

  lemma RayEnds(s: Square, d: Direction, occ: Bitboard, k: int, got: Bitboard)
    requires Unit(d) && RayTo(s, d, occ, k, got) && forall t: Square :: OnDirection(s, d, t) ==> Distance(s, t) <= k
    ensures got == RayBB(s, d, occ)
  {
    forall t: Square | OnDirection(s, d, t)
      ensures Clear(s, t, occ)
    {
      NearEmpty(s, d, t, occ);
    }
    hide OnDirection, Distance, Clear;
  }

  lemma RayGrows(s: Square, d: Direction, occ: Bitboard, k: int, sq: Square, got: Bitboard)
    requires Unit(d) && k >= 0 && RayTo(s, d, occ, k, got) && At(s, d, k + 1, sq)
    ensures k + 1 < 8
    ensures sq !in occ ==> RayTo(s, d, occ, k + 1, got + {sq})
    ensures sq in occ ==> got + {sq} == RayBB(s, d, occ)
  {
    AtIs(s, d, k + 1, sq);
    Coords(s); Coords(sq);
    assert Distance(s, sq) < 8 by { hide File, Rank; }
    forall t: Square
      ensures OnDirection(s, d, t) && Distance(s, t) == k + 1 <==> t == sq
    {
      AtIs(s, d, k + 1, t);
      Coords(t);
      hide File, Rank;
    }
    hide OnDirection, Distance, At;
    forall t: Square
      ensures OnDirection(s, d, t) && Distance(s, t) <= k + 1 ==> Clear(s, t, occ)
      ensures sq in occ && OnDirection(s, d, t) && Distance(s, t) > k + 1 ==> !Clear(s, t, occ)
    {
      if OnDirection(s, d, t) && Distance(s, t) <= k + 1 {
        NearEmpty(s, d, t, occ);
      }
      if sq in occ && OnDirection(s, d, t) && Distance(s, t) > k + 1 {
        FarFirst(s, d, t, sq, occ);
      }
    }
    hide Clear;
  }

  // ----- sliders -----

  const NORTH := Direction(0, 1)
  const EAST := Direction(1, 0)
  const SOUTH := Direction(0, -1)
  const WEST := Direction(-1, 0)
  const NORTH_EAST := Direction(1, 1)
  const SOUTH_EAST := Direction(1, -1)
  const SOUTH_WEST := Direction(-1, -1)
  const NORTH_WEST := Direction(-1, 1)

  const ROOK_DIRS := [NORTH, EAST, SOUTH, WEST]
  const BISHOP_DIRS := [NORTH_EAST, SOUTH_EAST, SOUTH_WEST, NORTH_WEST]

  lemma RookDirections(s: Square, t: Square)
    ensures RookLine(s, t) <==>
            OnDirection(s, NORTH, t) || OnDirection(s, EAST, t) || OnDirection(s, SOUTH, t) || OnDirection(s, WEST, t)
  {
    Coords(s); Coords(t);
    hide File, Rank;
  }

  lemma BishopDirections(s: Square, t: Square)
    ensures BishopLine(s, t) <==>
              OnDirection(s, NORTH_EAST, t) || OnDirection(s, SOUTH_EAST, t) || OnDirection(s, SOUTH_WEST, t) ||
                OnDirection(s, NORTH_WEST, t)
  {
    Coords(s); Coords(t);
    hide File, Rank;
  }

  /** sliding_attack: four ray casts are the attack set. */
  method SlidingAttack(kind: PieceType, s: Square, occ: Bitboard) returns (attacks: Bitboard)
    requires kind == Rook || kind == Bishop
    ensures attacks == AttacksBB(kind, s, occ)
  {
    var dirs := if kind == Rook then ROOK_DIRS else BISHOP_DIRS;
    attacks := CastRay(s, dirs[0], occ, {});
    attacks := CastRay(s, dirs[1], occ, attacks);
    attacks := CastRay(s, dirs[2], occ, attacks);
    attacks := CastRay(s, dirs[3], occ, attacks);
    FourRays(s, occ);
    hide RayBB, AttacksBB;
  }

  /** The four rays of each slider make up its attack set. */
  lemma FourRays(s: Square, occ: Bitboard)
    ensures RayBB(s, NORTH, occ) + RayBB(s, EAST, occ) + RayBB(s, SOUTH, occ) + RayBB(s, WEST, occ) ==
            AttacksBB(Rook, s, occ)
    ensures RayBB(s, NORTH_EAST, occ) + RayBB(s, SOUTH_EAST, occ) + RayBB(s, SOUTH_WEST, occ) +
            RayBB(s, NORTH_WEST, occ)
            == AttacksBB(Bishop, s, occ)
  {
    forall t: Square
      ensures RookLine(s, t) <==>
              OnDirection(s, NORTH, t) || OnDirection(s, EAST, t) || OnDirection(s, SOUTH, t) || OnDirection(s, WEST, t)
      ensures BishopLine(s, t) <==>
                OnDirection(s, NORTH_EAST, t) || OnDirection(s, SOUTH_EAST, t) || OnDirection(s, SOUTH_WEST, t) ||
                  OnDirection(s, NORTH_WEST, t)
    {
      RookDirections(s, t);
      BishopDirections(s, t);
    }
    hide OnDirection, Clear, RookLine, BishopLine;
  }

  /** line_mask: both ways along a line, s excluded. */
  method LineMask(s: Square, d1: Direction, d2: Direction) returns (mask: Bitboard)
    requires Unit(d1) && Unit(d2)
    ensures mask == set t: Square | OnDirection(s, d1, t) || OnDirection(s, d2, t)
  {
    mask := CastRay(s, d1, {}, {});
    mask := CastRay(s, d2, {}, mask);
    hide OnDirection;
  }

  /** DiagBB and AntiDiagBB. */
  method Diagonals(s: Square) returns (diag: Bitboard, anti: Bitboard)
    ensures diag == DiagBB(s) && anti == AntiDiagBB(s)
  {
    diag := LineMask(s, NORTH_EAST, SOUTH_WEST);
    diag := diag + {s};
    anti := LineMask(s, NORTH_WEST, SOUTH_EAST);
    anti := anti + {s};
    forall t: Square
      ensures OnDirection(s, NORTH_EAST, t) || OnDirection(s, SOUTH_WEST, t) || t == s <==>
              File(t) - Rank(t) == File(s) - Rank(s)
      ensures OnDirection(s, NORTH_WEST, t) || OnDirection(s, SOUTH_EAST, t) || t == s <==>
              File(t) + Rank(t) == File(s) + Rank(s)
    {
      Coords(s); Coords(t);
      hide File, Rank;
    }
    hide OnDirection;
  }

  // ----- leapers -----

  const KNIGHT_STEPS := [17, 15, 10, 6, -6, -10, -15, -17]
  const KING_STEPS := [9, 8, 7, 1, -1, -7, -8, -9]

  predicate LandsBy(s: Square, steps: seq<int>, n: int, t: Square) {
    exists j :: 0 <= j < n && j < |steps| && SafeStep(s, steps[j]) == Some(t)
  }

  /** The leaper loops of attacks_init. */
  method Leaper(s: Square, steps: seq<int>) returns (attacks: Bitboard)
    ensures attacks == set t: Square | LandsBy(s, steps, |steps|, t)
  {
    attacks := {};
    var i := 0;
    while i < |steps|
      invariant 0 <= i <= |steps|
      invariant forall t: Square :: t in attacks <==> LandsBy(s, steps, i, t)
    {
      var k := SafeStep(s, steps[i]);
      if k != None {
        attacks := attacks + {k.value};
      }
      forall t: Square
        ensures LandsBy(s, steps, i + 1, t) <==> LandsBy(s, steps, i, t) || SafeStep(s, steps[i]) == Some(t)
      {
        hide SafeStep;
      }
      hide LandsBy;
      i := i + 1;
    }
  }

  lemma StepLands(s: Square, d: Direction, t: Square)
    requires -2 <= d.df <= 2 && -2 <= d.dr <= 2
    ensures SafeStep(s, Offset(d)) == Some(t) <==> File(t) == File(s) + d.df && Rank(t) == Rank(s) + d.dr
  {
    hide *;
    SafeStepIs(s, d);
    var f, r := File(s) + d.df, Rank(s) + d.dr;
    if 0 <= f < 8 && 0 <= r < 8 {
      SquareIs(f, r, t);
    }
  }

  lemma SquareIs(f: int, r: int, t: Square)
    requires 0 <= f < 8 && 0 <= r < 8
    ensures MakeSquare(f, r) == t <==> File(t) == f && Rank(t) == r
  {
    Coords(t);
  }

  /** The steps the knight's table lists are exactly its moves. */
  lemma KnightSteps(s: Square, t: Square)
    ensures LandsBy(s, KNIGHT_STEPS, 8, t) <==> KnightStep(s, t)
  {
    LandsByEach(s, KNIGHT_STEPS, t);
    StepLands(s, Direction(1, 2), t);
    StepLands(s, Direction(-1, 2), t);
    StepLands(s, Direction(2, 1), t);
    StepLands(s, Direction(-2, 1), t);
    StepLands(s, Direction(2, -1), t);
    StepLands(s, Direction(-2, -1), t);
    StepLands(s, Direction(1, -2), t);
    StepLands(s, Direction(-1, -2), t);
    hide SafeStep, LandsBy, File, Rank;
  }

  /** And the king's. */
  lemma KingSteps(s: Square, t: Square)
    ensures LandsBy(s, KING_STEPS, 8, t) <==> KingStep(s, t)
  {
    LandsByEach(s, KING_STEPS, t);
    StepLands(s, Direction(1, 1), t);
    StepLands(s, Direction(0, 1), t);
    StepLands(s, Direction(-1, 1), t);
    StepLands(s, Direction(1, 0), t);
    StepLands(s, Direction(-1, 0), t);
    StepLands(s, Direction(1, -1), t);
    StepLands(s, Direction(0, -1), t);
    StepLands(s, Direction(-1, -1), t);
    Coords(s); Coords(t);
    hide SafeStep, LandsBy, File, Rank;
  }

  lemma LandsByEach(s: Square, steps: seq<int>, t: Square)
    requires |steps| == 8
    ensures LandsBy(s, steps, 8, t) <==>
              || SafeStep(s, steps[0]) == Some(t) || SafeStep(s, steps[1]) == Some(t) ||
                 SafeStep(s, steps[2]) == Some(t)
              || SafeStep(s, steps[3]) == Some(t) || SafeStep(s, steps[4]) == Some(t) ||
                 SafeStep(s, steps[5]) == Some(t)
              || SafeStep(s, steps[6]) == Some(t) || SafeStep(s, steps[7]) == Some(t)
  {
    hide SafeStep;
  }

  method LeaperTables(s: Square) returns (knight: Bitboard, king: Bitboard)
    ensures knight == AttacksBB(Knight, s, {}) && king == AttacksBB(King, s, {})
  {
    knight := Leaper(s, KNIGHT_STEPS);
    king := Leaper(s, KING_STEPS);
    forall t: Square
      ensures t in knight <==> KnightStep(s, t)
      ensures t in king <==> KingStep(s, t)
    {
      KnightSteps(s, t);
      KingSteps(s, t);
      hide LandsBy, KnightStep, KingStep;
    }
    hide LandsBy, KnightStep, KingStep;
  }

  // ----- lines -----

  /** The two ends of a line block each other's view of everything but what is between them. */
  lemma MeetBetween(kind: PieceType, s1: Square, s2: Square, x: Square)
    requires kind == Rook || kind == Bishop
    requires s2 in AttacksBB(kind, s1, {})
    ensures x in AttacksBB(kind, s1, {s2}) * AttacksBB(kind, s2, {s1}) <==> Inside(s1, x, s2)
    ensures x in AttacksBB(kind, s1, {}) * AttacksBB(kind, s2, {}) + {s1, s2} <==> OnLine(s1, s2, x)
  {
    MeetMembers(kind, s1, s2, x);
    hide AttacksBB;
    if kind == Rook {
      MeetRook(s1, s2, x);
    } else {
      MeetBishop(s1, s2, x);
    }
    hide *;
  }

  predicate LineOf(kind: PieceType, a: Square, b: Square) {
    if kind == Rook then RookLine(a, b) else BishopLine(a, b)
  }

  lemma MeetMembers(kind: PieceType, s1: Square, s2: Square, x: Square)
    requires kind == Rook || kind == Bishop
    ensures x in AttacksBB(kind, s1, {s2}) <==> LineOf(kind, s1, x) && !Inside(s1, s2, x)
    ensures x in AttacksBB(kind, s2, {s1}) <==> LineOf(kind, s2, x) && !Inside(s2, s1, x)
    ensures x in AttacksBB(kind, s1, {}) <==> LineOf(kind, s1, x)
    ensures x in AttacksBB(kind, s2, {}) <==> LineOf(kind, s2, x)
    ensures s2 in AttacksBB(kind, s1, {}) <==> LineOf(kind, s1, s2)
  {
    hide RookLine, BishopLine, Inside;
  }

  lemma MeetRook(s1: Square, s2: Square, x: Square)
    requires RookLine(s1, s2)
    ensures RookLine(s1, x) && !Inside(s1, s2, x) && RookLine(s2, x) && !Inside(s2, s1, x) <==> Inside(s1, x, s2)
    ensures (RookLine(s1, x) && RookLine(s2, x)) || x == s1 || x == s2 <==> OnLine(s1, s2, x)
  {
    Coords(s1); Coords(s2); Coords(x);
    hide File, Rank;
  }

  lemma MeetBishop(s1: Square, s2: Square, x: Square)
    requires BishopLine(s1, s2)
    ensures BishopLine(s1, x) && !Inside(s1, s2, x) && BishopLine(s2, x) && !Inside(s2, s1, x) <==> Inside(s1, x, s2)
    ensures (BishopLine(s1, x) && BishopLine(s2, x)) || x == s1 || x == s2 <==> OnLine(s1, s2, x)
  {
    Coords(s1); Coords(s2); Coords(x);
    hide File, Rank;
  }

  /** One entry of BetweenBB and LineBB. */
  method BetweenAndLine(s1: Square, s2: Square) returns (between: Bitboard, line: Bitboard)
    ensures between == BetweenBB(s1, s2) && line == LineBB(s1, s2)
  {
    between := {s2};
    line := {};
    if s2 in AttacksBB(Bishop, s1, {}) {
      line := AttacksBB(Bishop, s1, {}) * AttacksBB(Bishop, s2, {}) + {s1, s2};
      between := AttacksBB(Bishop, s1, {s2}) * AttacksBB(Bishop, s2, {s1}) + {s2};
    }
    if s2 in AttacksBB(Rook, s1, {}) {
      line := AttacksBB(Rook, s1, {}) * AttacksBB(Rook, s2, {}) + {s1, s2};
      between := AttacksBB(Rook, s1, {s2}) * AttacksBB(Rook, s2, {s1}) + {s2};
    }
    forall x: Square
      ensures x in between <==> Span(s1, s2, x)
      ensures x in line <==> OnLine(s1, s2, x)
    {
      if s2 in AttacksBB(Bishop, s1, {}) {
        MeetBetween(Bishop, s1, s2, x);
      }
      if s2 in AttacksBB(Rook, s1, {}) {
        MeetBetween(Rook, s1, s2, x);
      }
      OffLine(s1, s2, x);
      hide AttacksBB, Inside, OnLine;
    }
    hide AttacksBB, Inside, OnLine;
  }

  lemma OffLine(s1: Square, s2: Square, x: Square)
    ensures s2 !in AttacksBB(Rook, s1, {}) && s2 !in AttacksBB(Bishop, s1, {}) ==>
            !Inside(s1, x, s2) && !OnLine(s1, s2, x)
  {
    assert s2 in AttacksBB(Rook, s1, {}) <==> RookLine(s1, s2);
    assert s2 in AttacksBB(Bishop, s1, {}) <==> BishopLine(s1, s2);
    hide AttacksBB;
    Coords(s1); Coords(s2); Coords(x);
    hide File, Rank;
  }

  // ----- pawns -----

  predicate LandsFrom(d: int, kept: Bitboard, t: Square) {
    0 <= t - d < 64 && t - d in kept
  }

  /** shift_bb as the source masks it: the file that would wrap is cleared first. */
  function MaskedShift(d: int, b: Bitboard): Bitboard
    requires d in {8, -8, 9, 7, -7, -9}
  {
    var kept := if d == 9 || d == -7 then b - FileBB(7) else if d == 7 || d == -9 then b - FileBB(0) else b;
    set t: Square | LandsFrom(d, kept, t)
  }

  /** Masking the file is the same as refusing the wrap. */
  lemma MaskedShiftIs(d: int, b: Bitboard)
    requires d in {8, -8, 9, 7, -7, -9}
    ensures MaskedShift(d, b) == ShiftBB(d, b)
  {
    var kept := if d == 9 || d == -7 then b - FileBB(7) else if d == 7 || d == -9 then b - FileBB(0) else b;
    forall t: Square
      ensures LandsFrom(d, kept, t) <==> ShiftedFrom(d, b, t)
    {
      if 0 <= t - d < 64 {
        var a: Square := t - d;
        WrapGuard(d, a, t);
        assert a in FileBB(7) <==> File(a) == 7;
        assert a in FileBB(0) <==> File(a) == 0;
      }
      hide File;
    }
  }

  /** A shift stays beside its file exactly when it does not leave from the file it would wrap at. */
  lemma WrapGuard(d: int, a: Square, t: Square)
    requires d in {8, -8, 9, 7, -7, -9} && t == a + d
    ensures Abs(File(t) - File(a)) <= 1 <==>
            !((d == 9 || d == -7) && File(a) == 7) && !((d == 7 || d == -9) && File(a) == 0)
  {
    Coords(a); Coords(t);
    hide File, Rank;
  }

  /** PawnAttacksBB, built from the one-square board. */
  lemma PawnTable(c: Color, s: Square)
    ensures SetOfPawnAttacks(c, {s}) == PawnAttacksBB(c, s)
  {
    forall t: Square
      ensures t in SetOfPawnAttacks(c, {s}) <==> PawnStep(c, s, t)
    {
      MoveGen.PawnThreatMember(c, {s}, t);
      hide SetOfPawnAttacks, PawnStep;
    }
    hide SetOfPawnAttacks, PawnStep;
  }
}
