/** The pairs of the cuckoo table and the two slots each of them may stand in. */
module Homes {
  import opened Squares
  import opened Types
  import opened Derived
  import opened WordArithmetic

  const SLOTS: nat := 8192

  datatype Step = Step(s1: Square, s2: Square)

  /** One slot of the two parallel arrays. No move means the slot is empty. */
  datatype Pair = Pair(key: Key, move: Option<Step>)

  const EMPTY := Pair({}, None)

  // ----- the two slots of a key -----

  lemma {:induction false} ValueBound(a: Bitboard, n: nat)
    ensures Value(a, n) < Pow2(n)
  {
    if n > 0 {
      ValueBound(a, n - 1);
    }
  }

  lemma ThirteenBits()
    ensures Pow2(13) == SLOTS
  {
    assert Pow2(4) == 16;
    assert Pow2(8) == 256;
    assert Pow2(12) == 4096;
  }

  predicate BitAbove(key: Key, n: nat, i: Square) {
    i + n in key
  }

  /** key >> n. */
  function ShiftedDown(key: Key, n: nat): Key {
    set i: Square | BitAbove(key, n, i)
  }

  /** The low thirteen bits. */
  function H1(key: Key): (i: nat)
    ensures i < SLOTS
  {
    ValueBound(key, 13);
    ThirteenBits();
    Value(key, 13)
  }

  /** The thirteen bits from bit 16. */
  function H2(key: Key): (i: nat)
    ensures i < SLOTS
  {
    H1(ShiftedDown(key, 16))
  }

  // ----- what the slots hold -----

  predicate AtHome(p: Pair, i: nat) {
    if p.move.None? then p == EMPTY else i == H1(p.key) || i == H2(p.key)
  }

  /** Every stored pair stands in one of its key's two slots. */
  predicate Placed(slots: seq<Pair>) {
    |slots| == SLOTS && forall i :: 0 <= i < |slots| ==> AtHome(slots[i], i)
  }
}
