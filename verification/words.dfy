/** 64-bit words as the set of their set bits: subtraction with its borrow, and what it does to
    the two masks the attack code subtracts. */
module WordArithmetic {
  import opened Squares

  function Pow2(n: nat): (r: nat)
    ensures r >= 1
  {
    if n == 0 then 1 else 2 * Pow2(n - 1)
  }

  /** The number the low n bits stand for. */
  function Value(a: Bitboard, n: nat): nat {
    if n == 0 then 0 else Value(a, n - 1) + if n - 1 in a then Pow2(n - 1) else 0
  }

  /** The borrow into bit i of a - b. */
  predicate Borrow(a: Bitboard, b: Bitboard, i: nat) {
    i > 0 &&
    if i - 1 in b && i - 1 !in a then true
    else if i - 1 in a && i - 1 !in b then false
    else Borrow(a, b, i - 1)
  }

  /** a - b, wrapping round at 64 bits. */
  function Minus(a: Bitboard, b: Bitboard): Bitboard {
    set i: Square | (i in a) != ((i in b) != Borrow(a, b, i))
  }

  /** Bit by bit, Minus is subtraction of the numbers, a power of two lent by the borrow. */
  lemma {:induction false} MinusValue(a: Bitboard, b: Bitboard, n: nat)
    requires n <= 64
    ensures Value(Minus(a, b), n) == Value(a, n) - Value(b, n) + if Borrow(a, b, n) then Pow2(n) else 0
  {
    if n > 0 {
      MinusValue(a, b, n - 1);
      var i: Square := n - 1;
      assert i in Minus(a, b) <==> (i in a) != ((i in b) != Borrow(a, b, i));
      hide Minus;
    }
  }

  /** Subtracting one bit runs a borrow up to the first set bit at or above it. */
  lemma {:induction false} BorrowRun(o: Bitboard, k: nat, i: nat)
    ensures k < 64 ==> (Borrow(o, {k}, i) <==> k < i && forall j :: k <= j < i ==> j !in o)
    ensures Borrow(o, {}, i) == false
  {
    if i > 0 {
      BorrowRun(o, k, i - 1);
    }
  }

  /** The bits of o - {k} that differ from o: from k up to the first set bit. */
  lemma MinusRun(o: Bitboard, k: Square, i: Square)
    ensures (i in Minus(o, {k})) != (i in o) <==> k <= i && forall j :: k <= j < i ==> j !in o
  {
    BorrowRun(o, k, i);
    hide Borrow;
  }

  lemma MinusNothing(o: Bitboard)
    ensures Minus(o, {}) == o
  {
    forall i: Square
      ensures i in Minus(o, {}) <==> i in o
    {
      BorrowRun(o, 0, i);
      hide Borrow;
    }
  }
}
