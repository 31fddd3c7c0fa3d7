/** The table of full rays the threat scan reads: what threats_init writes. */
module RayPass {
  import opened Squares
  import opened Types
  import opened Attacks
  import opened Threats

  /** The squares a slider on s1 reaches on an empty board through s2: up to s2, s2, and beyond. */
  lemma PassExact(kind: PieceType, s1: Square, s2: Square, x: Square)
    requires kind == Rook || kind == Bishop
    requires s2 in AttacksBB(kind, s1, {})
    ensures x in AttacksBB(kind, s1, {}) * (AttacksBB(kind, s2, {s1}) + {s2}) <==> OnRay(s1, s2, x)
  {
    assert x in AttacksBB(kind, s2, {s1}) <==>
           (if kind == Rook then RookLine(s2, x) else BishopLine(s2, x)) && !Inside(s2, s1, x);
    assert if kind == Rook then RookLine(s1, s2) else BishopLine(s1, s2);
    assert x in AttacksBB(kind, s1, {}) <==> if kind == Rook then RookLine(s1, x) else BishopLine(s1, x);
    hide AttacksBB;
    Coords(s1); Coords(s2); Coords(x);
    hide File, Rank;
  }

  lemma NoPass(s1: Square, s2: Square)
    requires s2 !in AttacksBB(Rook, s1, {}) && s2 !in AttacksBB(Bishop, s1, {})
    ensures RayPassBB(s1, s2) == {}
  {
    assert s2 in AttacksBB(Rook, s1, {}) <==> RookLine(s1, s2);
    assert s2 in AttacksBB(Bishop, s1, {}) <==> BishopLine(s1, s2);
    hide AttacksBB;
    forall x: Square
      ensures !OnRay(s1, s2, x)
    {
      Coords(s1); Coords(s2); Coords(x);
      hide File, Rank;
    }
  }

  lemma PassIs(kind: PieceType, s1: Square, s2: Square)
    requires kind == Rook || kind == Bishop
    requires s2 in AttacksBB(kind, s1, {})
    ensures AttacksBB(kind, s1, {}) * (AttacksBB(kind, s2, {s1}) + {s2}) == RayPassBB(s1, s2)
  {
    forall x: Square
      ensures x in AttacksBB(kind, s1, {}) * (AttacksBB(kind, s2, {s1}) + {s2}) <==> OnRay(s1, s2, x)
    {
      PassExact(kind, s1, s2, x);
    }
    hide AttacksBB, OnRay;
  }

  /** threats_init: the table is stored transposed, by the square passed through first. */
  method ThreatsInit(table: array2<Bitboard>)
    requires table.Length0 == 64 && table.Length1 == 64
    modifies table
    ensures forall s1: Square, s2: Square :: table[s2, s1] == RayPassBB(s1, s2)
  {
    hide *;
    Clear(table);
    var s1 := 0;
    while s1 < 64
      invariant 0 <= s1 <= 64
      invariant forall a: Square, x: Square :: a < s1 ==> table[x, a] == RayPassBB(a, x)
      invariant forall a: Square, x: Square :: a >= s1 ==> table[x, a] == {}
    {
      PassFrom(table, s1, Bishop);
      PassFrom(table, s1, Rook);
      forall x: Square
        ensures table[x, s1] == RayPassBB(s1, x)
      {
        if x !in AttacksBB(Bishop, s1, {}) && x !in AttacksBB(Rook, s1, {}) {
          NoPass(s1, x);
        }
      }
      s1 := s1 + 1;
    }
  }

  method Clear(table: array2<Bitboard>)
    requires table.Length0 == 64 && table.Length1 == 64
    modifies table
    ensures forall s1: Square, s2: Square :: table[s2, s1] == {}
  {
    forall i, j | 0 <= i < 64 && 0 <= j < 64 {
      table[i, j] := {};
    }
  }

  /** One slider kind from one square. */
  method PassFrom(table: array2<Bitboard>, s1: Square, kind: PieceType)
    requires table.Length0 == 64 && table.Length1 == 64 && (kind == Rook || kind == Bishop)
    modifies table
    ensures forall x: Square :: table[x, s1] == if x in AttacksBB(kind, s1, {}) then RayPassBB(s1, x)
      else old(table[x, s1])
    ensures forall a: Square, x: Square :: a != s1 ==> table[x, a] == old(table[x, a])
  {
    hide *;
    var fromEmpty := AttacksBB(kind, s1, {});
    var s2 := 0;
    while s2 < 64
      invariant 0 <= s2 <= 64
      invariant forall x: Square :: table[x, s1] == if x < s2 && x in fromEmpty then RayPassBB(s1, x)
        else old(table[x, s1])
      invariant forall a: Square, x: Square :: a != s1 ==> table[x, a] == old(table[x, a])
    {
      if s2 in fromEmpty {
        PassIs(kind, s1, s2);
        table[s2, s1] := fromEmpty * (AttacksBB(kind, s2, {s1}) + {s2});
      }
      s2 := s2 + 1;
    }
  }
}
