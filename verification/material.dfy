/** The material the parser accepts is the material a game can reach: what losing pieces and
    promoting pawns can make of the opening's. */
module ArmyMaterial {
  import opened Types
  import opened Board
  import opened Fen

  /** How many pieces of each kind a side has, the king apart. */
  datatype Army = Army(pawns: nat, knights: nat, bishops: nat, rooks: nat, queens: nat)

  const OPENING_ARMY := Army(8, 2, 2, 2, 1)

  function ArmyOf(b: Board, c: Color): Army {
    Army(Count(b, c, Pawn), Count(b, c, Knight), Count(b, c, Bishop), Count(b, c, Rook), Count(b, c, Queen))
  }

  /** A piece is lost. */
  predicate Loses(a: Army, a': Army) {
    || (a.pawns > 0 && a' == a.(pawns := a.pawns - 1))
    || (a.knights > 0 && a' == a.(knights := a.knights - 1))
    || (a.bishops > 0 && a' == a.(bishops := a.bishops - 1))
    || (a.rooks > 0 && a' == a.(rooks := a.rooks - 1))
    || (a.queens > 0 && a' == a.(queens := a.queens - 1))
  }

  /** A pawn becomes another piece. */
  predicate Promotes(a: Army, a': Army) {
    a.pawns > 0 && var rest := a.(pawns := a.pawns - 1);
    || a' == rest.(knights := a.knights + 1)
    || a' == rest.(bishops := a.bishops + 1)
    || a' == rest.(rooks := a.rooks + 1)
    || a' == rest.(queens := a.queens + 1)
  }

  /** n such changes lead from the opening's army to a. */
  ghost predicate Reached(a: Army, n: nat)
    decreases n
  {
    if n == 0 then a == OPENING_ARMY
    else exists before: Army :: Reached(before, n - 1) && (Loses(before, a) || Promotes(before, a))
  }

  /** The parser's bound, of an army. */
  predicate Fits(a: Army) {
    a.pawns <= 8 && Over(a.knights, 2) + Over(a.bishops, 2) + Over(a.rooks, 2) + Over(a.queens, 1) <= 8 - a.pawns
  }

  function Missing(n: nat, of: nat): nat {
    if n < of then of - n else 0
  }

  /** How far an army is from the opening's. */
  function Distance(a: Army): nat {
    Missing(a.pawns, 8)
    + Missing(a.knights, 2) + Over(a.knights, 2) + Missing(a.bishops, 2) + Over(a.bishops, 2)
    + Missing(a.rooks, 2) + Over(a.rooks, 2) + Missing(a.queens, 1) + Over(a.queens, 1)
  }

  /** An army that fits comes from one that fits and is nearer to the opening's: the last promotion
      taken back, if there was one, else the last loss. */
  lemma Backwards(a: Army) returns (before: Army)
    requires Fits(a) && a != OPENING_ARMY
    ensures Fits(before) && (Loses(before, a) || Promotes(before, a)) && Distance(before) < Distance(a)
  {
    if a.knights > 2 || a.bishops > 2 || a.rooks > 2 || a.queens > 1 {
      before := Unpromoted(a);
    } else {
      before := Restored(a);
    }
  }

  lemma Unpromoted(a: Army) returns (before: Army)
    requires Fits(a) && (a.knights > 2 || a.bishops > 2 || a.rooks > 2 || a.queens > 1)
    ensures Fits(before) && Promotes(before, a) && Distance(before) < Distance(a)
  {
    var rest := a.(pawns := a.pawns + 1);
    before := if a.knights > 2 then rest.(knights := a.knights - 1)
    else if a.bishops > 2 then rest.(bishops := a.bishops - 1)
    else if a.rooks > 2 then rest.(rooks := a.rooks - 1)
    else rest.(queens := a.queens - 1);
  }

  lemma Restored(a: Army) returns (before: Army)
    requires Fits(a) && a != OPENING_ARMY && !(a.knights > 2 || a.bishops > 2 || a.rooks > 2 || a.queens > 1)
    ensures Fits(before) && Loses(before, a) && Distance(before) < Distance(a)
  {
    before := if a.pawns < 8 then a.(pawns := a.pawns + 1)
    else if a.knights < 2 then a.(knights := a.knights + 1)
    else if a.bishops < 2 then a.(bishops := a.bishops + 1)
    else if a.rooks < 2 then a.(rooks := a.rooks + 1)
    else a.(queens := a.queens + 1);
  }

  lemma {:induction false} FitsReached(a: Army) returns (n: nat)
    requires Fits(a)
    ensures Reached(a, n)
    decreases Distance(a)
  {
    if a == OPENING_ARMY {
      n := 0;
    } else {
      var before := Backwards(a);
      var m := FitsReached(before);
      n := m + 1;
    }
  }

  lemma {:induction false} ReachedFits(a: Army, n: nat)
    requires Reached(a, n)
    ensures Fits(a)
    decreases n
  {
    if n > 0 {
      var before: Army :| Reached(before, n - 1) && (Loses(before, a) || Promotes(before, a));
      ReachedFits(before, n - 1);
      hide *;
      if Loses(before, a) {
        LossFits(before, a);
      } else {
        PromotionFits(before, a);
      }
    }
  }

  lemma LossFits(a: Army, a': Army)
    requires Fits(a) && Loses(a, a')
    ensures Fits(a')
  {
  }

  lemma PromotionFits(a: Army, a': Army)
    requires Fits(a) && Promotes(a, a')
    ensures Fits(a')
  {
  }

  /** A side's material is accepted exactly when losses and promotions lead to it from eight pawns,
      two knights, two bishops, two rooks and a queen. */
  lemma MaterialReached(b: Board, c: Color)
    ensures MaterialFits(b, c) <==> exists n: nat :: Reached(ArmyOf(b, c), n)
  {
    var a := ArmyOf(b, c);
    assert MaterialFits(b, c) <==> Fits(a);
    hide MaterialFits, Fits, ArmyOf, Reached;
    if Fits(a) {
      var n := FitsReached(a);
      assert Reached(a, n);
    }
    forall n: nat | Reached(a, n)
      ensures Fits(a)
    {
      ReachedFits(a, n);
    }
  }
}
