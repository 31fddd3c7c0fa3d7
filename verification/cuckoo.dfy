/** The cuckoo table of reversible one-piece moves: building it by displacement, and the two-probe
    lookup. */
module Cuckoo {
  import opened Squares
  import opened Types
  import opened Attacks
  import opened Derived
  import opened Homes
  import opened Displacement

  /** The first of the key's two slots to hold it; empty slots hold the zero key. */
  function Probe(slots: seq<Pair>, key: Key): Option<Pair>
    requires |slots| == SLOTS
  {
    if slots[H1(key)].key == key then Some(slots[H1(key)])
    else if slots[H2(key)].key == key then Some(slots[H2(key)])
    else None
  }

  /** Two probes find a key exactly when some stored pair has it, and then find such a pair. */
  lemma ProbeExact(slots: seq<Pair>, key: Key)
    requires Placed(slots) && key != {}
    ensures Probe(slots, key).Some? <==> exists p :: p in slots && p.key == key
    ensures Probe(slots, key).Some? ==>
              var p := Probe(slots, key).value; p in slots && p.key == key && p.move.Some?
  {
    hide H1, H2;
    forall p | p in slots && p.key == key
      ensures Probe(slots, key).Some?
    {
      var i :| 0 <= i < |slots| && slots[i] == p;
      assert AtHome(slots[i], i);
    }
    if Probe(slots, key).Some? {
      var p := Probe(slots, key).value;
      assert p == slots[H1(key)] || p == slots[H2(key)];
      assert AtHome(slots[H1(key)], H1(key)) && AtHome(slots[H2(key)], H2(key));
    }
  }

  // ----- the moves that can be taken back -----

  /** A piece move between s1 and s2 on an empty board; pawn moves cannot be taken back. */
  predicate Reversible(pc: Piece, s1: int, s2: int) {
    && pc.Piece? && pc.kind != Pawn && 0 <= s1 < s2 < 64
    && s2 in AttacksBB(pc.kind, s1, {})
  }

  function StepKey(z: Zobrist, pc: Piece, s1: int, s2: int): Key {
    Xor(Xor(z.psq(pc, s1), z.psq(pc, s2)), z.side)
  }

  function Entry(z: Zobrist, pc: Piece, s1: Square, s2: Square): Pair {
    Pair(StepKey(z, pc, s1, s2), Some(Step(s1, s2)))
  }

  /** The pairs of pc's moves from s1 to squares above s1 and below hi. */
  function Row(z: Zobrist, pc: Piece, s1: Square, hi: nat): multiset<Pair>
    requires hi <= 64
  {
    if hi <= s1 + 1 then multiset{}
    else Row(z, pc, s1, hi - 1) + if Reversible(pc, s1, hi - 1) then multiset{Entry(z, pc, s1, hi - 1)} else multiset{}
  }

  function Rows(z: Zobrist, pc: Piece, n: nat): multiset<Pair>
    requires n <= 64
  {
    if n == 0 then multiset{} else Rows(z, pc, n - 1) + Row(z, pc, n - 1, 64)
  }

  /** The pieces in the order the source lists them: the twelve of the encoding. */
  function Entries(z: Zobrist, n: nat): multiset<Pair>
    requires n <= 12
  {
    if n == 0 then multiset{} else Entries(z, n - 1) + Rows(z, NthPiece(n - 1), 64)
  }

  /** q is the pair of a reversible move of pc. */
  predicate EntryOf(z: Zobrist, q: Pair, pc: Piece, s1: Square, s2: Square) {
    Reversible(pc, s1, s2) && q == Entry(z, pc, s1, s2)
  }

  lemma {:induction false} RowMembers(z: Zobrist, pc: Piece, s1: Square, hi: nat, q: Pair)
    requires hi <= 64
    ensures q in Row(z, pc, s1, hi) <==> exists s2: Square :: s2 < hi && EntryOf(z, q, pc, s1, s2)
  {
    hide AttacksBB, StepKey;
    if hi > s1 + 1 {
      RowMembers(z, pc, s1, hi - 1, q);
      var t: Square := hi - 1;
      if EntryOf(z, q, pc, s1, t) {
        assert q in Row(z, pc, s1, hi);
      }
    }
  }

  predicate EntryFrom(z: Zobrist, q: Pair, pc: Piece, s1: Square) {
    exists s2: Square :: EntryOf(z, q, pc, s1, s2)
  }

  predicate EntryBy(z: Zobrist, q: Pair, pc: Piece) {
    exists s1: Square :: EntryFrom(z, q, pc, s1)
  }

  predicate EntryBelow(z: Zobrist, q: Pair, pc: Piece, n: nat) {
    exists s1: Square :: s1 < n && EntryFrom(z, q, pc, s1)
  }

  lemma EntryBelowMore(z: Zobrist, q: Pair, pc: Piece, n: nat)
    requires n < 64
    ensures EntryBelow(z, q, pc, n + 1) <==> EntryBelow(z, q, pc, n) || EntryFrom(z, q, pc, n)
  {
    hide EntryFrom;
    var r: Square := n;
    assert EntryFrom(z, q, pc, r) ==> r < n + 1 && EntryFrom(z, q, pc, r);
  }

  lemma {:induction false} RowsMembers(z: Zobrist, pc: Piece, n: nat, q: Pair)
    requires n <= 64
    ensures q in Rows(z, pc, n) <==> EntryBelow(z, q, pc, n)
  {
    if n > 0 {
      RowMembers(z, pc, n - 1, 64, q);
      assert q in Row(z, pc, n - 1, 64) <==> EntryFrom(z, q, pc, n - 1) by {
        hide EntryOf, Row;
      }
      RowsMembers(z, pc, n - 1, q);
      EntryBelowMore(z, q, pc, n - 1);
      hide EntryFrom, EntryBelow, Row, EntryOf;
      RowsMore(z, pc, n - 1);
    }
  }

  predicate EntryAmong(z: Zobrist, q: Pair, n: nat)
    requires n <= 12
  {
    exists i :: 0 <= i < n && EntryBy(z, q, NthPiece(i))
  }

  lemma EntryAmongMore(z: Zobrist, q: Pair, n: nat)
    requires n < 12
    ensures EntryAmong(z, q, n + 1) <==> EntryAmong(z, q, n) || EntryBy(z, q, NthPiece(n))
  {
    hide EntryBy, NthPiece;
  }

  lemma RowsBy(z: Zobrist, q: Pair, pc: Piece)
    ensures q in Rows(z, pc, 64) <==> EntryBy(z, q, pc)
  {
    RowsMembers(z, pc, 64, q);
    hide EntryFrom, Rows;
  }

  lemma {:induction false} EntriesMembers(z: Zobrist, n: nat, q: Pair)
    requires n <= 12
    ensures q in Entries(z, n) <==> EntryAmong(z, q, n)
  {
    if n > 0 {
      hide EntryAmong, EntryBy, NthPiece, Rows;
      EntriesMembers(z, n - 1, q);
      RowsBy(z, q, NthPiece(n - 1));
      EntryAmongMore(z, q, n - 1);
    }
  }

  /** The whole table: every reversible move of every piece, and nothing else. */
  lemma EntriesComplete(z: Zobrist, q: Pair)
    ensures q in Entries(z, 12) <==> exists pc: Piece, s1: Square, s2: Square :: EntryOf(z, q, pc, s1, s2)
  {
    EntriesMembers(z, 12, q);
    forall pc: Piece, s1: Square, s2: Square | EntryOf(z, q, pc, s1, s2)
      ensures EntryAmong(z, q, 12)
    {
      NthPieceSlot(Slot(pc), pc);
      hide EntryOf, Entries, NthPiece, Slot;
      assert EntryFrom(z, q, pc, s1);
      assert EntryBy(z, q, pc);
    }
    hide EntryOf, Entries, NthPiece;
  }

  /** The slots hold the pairs of the reversible moves, each once. */
  ghost predicate Built(z: Zobrist, slots: seq<Pair>) {
    Placed(slots) && forall q :: q != EMPTY ==> multiset(slots)[q] == Entries(z, 12)[q]
  }

  ghost predicate SomeStep(z: Zobrist, key: Key) {
    exists pc: Piece, s1: Square, s2: Square :: Reversible(pc, s1, s2) && StepKey(z, pc, s1, s2) == key
  }

  /** Whenever building ends, two probes decide whether a key is a reversible move's, and give
      back such a move. */
  lemma LookupExact(z: Zobrist, slots: seq<Pair>, key: Key)
    requires Built(z, slots) && key != {}
    ensures Probe(slots, key).Some? <==> SomeStep(z, key)
    ensures Probe(slots, key).Some? ==>
              var q := Probe(slots, key).value;
              q.move.Some? && exists pc :: EntryOf(z, q, pc, q.move.value.s1, q.move.value.s2)
  {
    ProbeExact(slots, key);
    forall q
      ensures q != EMPTY ==> (q in slots <==> exists pc: Piece, s1: Square, s2: Square :: EntryOf(z, q, pc, s1, s2))
    {
      EntriesComplete(z, q);
      assert q in slots <==> q in multiset(slots);
      hide EntryOf, Entries;
    }
    hide Placed, Probe, Entries, Reversible, StepKey;
    if Probe(slots, key).Some? {
      var q := Probe(slots, key).value;
      var pc: Piece, s1: Square, s2: Square :| EntryOf(z, q, pc, s1, s2);
      assert EntryOf(z, q, pc, q.move.value.s1, q.move.value.s2);
    }
    if SomeStep(z, key) {
      var pc: Piece, s1: Square, s2: Square :| Reversible(pc, s1, s2) && StepKey(z, pc, s1, s2) == key;
      assert EntryOf(z, Entry(z, pc, s1, s2), pc, s1, s2);
    }
  }

  // ----- building -----

  class CuckooTable {
    const keys: array<Key>
    const moves: array<Option<Step>>

    function Slots(): seq<Pair>
      requires keys.Length == moves.Length == SLOTS
      reads keys, moves
    {
      seq(SLOTS, i requires 0 <= i < SLOTS reads keys, moves => Pair(keys[i], moves[i]))
    }

    ghost predicate Valid()
      reads keys, moves
    {
      keys.Length == moves.Length == SLOTS && Placed(Slots())
    }

    constructor ()
      ensures fresh(keys) && fresh(moves) && Valid()
      ensures forall q :: q != EMPTY ==> multiset(Slots())[q] == 0
    {
      keys := new Key[SLOTS](_ => {});
      moves := new Option<Step>[SLOTS](_ => None);
      new;
      hide H1, H2;
      var slots := Slots();
      assert forall i :: 0 <= i < SLOTS ==> slots[i] == EMPTY;
      forall q | q != EMPTY
        ensures multiset(slots)[q] == 0
      {
        assert q !in slots;
      }
    }

    /** The pair in hand and the occupant of slot i change places. */
    method Swap(i: nat, key: Key, move: Option<Step>) returns (key': Key, move': Option<Step>)
      requires keys.Length == moves.Length == SLOTS && i < SLOTS
      modifies keys, moves
      ensures Slots() == old(Slots())[i := Pair(key, move)]
      ensures Pair(key', move') == old(Slots())[i]
    {
      key', move' := keys[i], moves[i];
      keys[i] := key;
      moves[i] := move;
    }

    /** Displace whatever occupies the slot and place it anew, until the displaced pair is the
        empty one. The code has no `budget`; one of LIMIT steps stands for none, since a walk still
        going after that many never ends. */
    method Insert(key0: Key, step: Step, budget: nat) returns (done: bool, ghost hand: Pair)
      requires Valid()
      modifies keys, moves
      ensures Valid()
      ensures multiset(Slots()) + multiset{hand} == multiset(old(Slots())) + multiset{Pair(key0, Some(step))}
      ensures done <==> hand == EMPTY
      ensures done ==> !Crowded(multiset(old(Slots())) + multiset{Pair(key0, Some(step))})
      ensures budget >= LIMIT && !done ==> Crowded(multiset(old(Slots())) + multiset{Pair(key0, Some(step))})
    {
      hide Placed, H1, H2, Displaced, Displace, Walking, Other, Crowded, LIMIT;
      var key, move := key0, Some(step);
      var i: nat := H1(key);
      var left: nat := budget;
      ghost var start := Walk(Slots(), Pair(key, move), i);
      StartWalks(start);
      DisplacedNone(start);
      done := false;
      while left > 0
        invariant left <= budget && move.Some? && i < SLOTS
        invariant keys.Length == moves.Length == SLOTS
        invariant Walk(Slots(), Pair(key, move), i) == Displaced(start, budget - left)
      {
        DisplacedOne(start, budget - left);
        DisplaceIs(Displaced(start, budget - left));
        OtherIs(Slots()[i], i);
        key, move := Swap(i, key, move);
        if move.None? {
          hand := Pair(key, move);
          EndsPlaced(start, budget - left + 1, Slots());
          return true, hand;
        }
        i := if i == H1(key) then H2(key) else H1(key);
        left := left - 1;
      }
      hand := Pair(key, move);
      StillWalking(start, budget);
    }

    /** repetition_init. */
    method Fill(z: Zobrist, budget: nat) returns (done: bool)
      requires Valid() && forall q :: q != EMPTY ==> multiset(Slots())[q] == 0
      modifies keys, moves
      ensures Valid() && (done ==> Built(z, Slots()))
      ensures budget >= LIMIT ==> (done <==> exists slots :: Built(z, slots))
    {
      hide Placed, Holds, Crowded, LIMIT, Built, One, Entry, Row, Rows, Entries, AttacksBB, StepKey, H1, H2;
      EntriesNone(z);
      BuiltIs(z, Slots());
      for p := 0 to 12
        invariant Valid() && Holds(Slots(), Entries(z, p))
      {
        var pc := NthPiece(p);
        EntriesMore(z, p);
        if pc.kind == Pawn {
          PawnRows(z, pc, 64);
          HoldsSame(Slots(), Entries(z, p), Entries(z, p + 1));
          continue;
        }
        RowsNone(z, pc);
        HoldsSame(Slots(), Entries(z, p), Entries(z, p) + Rows(z, pc, 0));
        for s1 := 0 to 64
          invariant Valid() && Holds(Slots(), Entries(z, p) + Rows(z, pc, s1))
        {
          RowNone(z, pc, s1);
          ghost var base := Entries(z, p) + Rows(z, pc, s1);
          HoldsSame(Slots(), base, base + Row(z, pc, s1, s1 + 1));
          for s2 := s1 + 1 to 64
            invariant Valid() && Holds(Slots(), base + Row(z, pc, s1, s2))
          {
            done := Enter(z, pc, s1, s2, budget, base + Row(z, pc, s1, s2));
            if !done {
              if budget >= LIMIT {
                NeverBuilt(z, p, s1, s2);
              }
              return false;
            }
            RowMore(z, pc, s1, s2);
            HoldsRegrouped(Slots(), base, Row(z, pc, s1, s2), One(z, pc, s1, s2));
          }
          RowsMore(z, pc, s1);
          HoldsRegrouped(Slots(), Entries(z, p), Rows(z, pc, s1), Row(z, pc, s1, 64));
        }
      }
      done := true;
      BuiltIs(z, Slots());
    }

    /** One pair of squares: the move is entered if the piece has it. */
    method Enter(z: Zobrist, pc: Piece, s1: Square, s2: Square, budget: nat, ghost base: multiset<Pair>)
      returns (done: bool)
      requires Valid() && pc.Piece? && pc.kind != Pawn && s1 < s2 && Holds(Slots(), base)
      modifies keys, moves
      ensures Valid() && (done ==> Holds(Slots(), base + One(z, pc, s1, s2)))
      ensures budget >= LIMIT && !done ==> Crowded(base + One(z, pc, s1, s2))
    {
      hide Placed, Holds, Crowded, LIMIT, One, Entry, AttacksBB, StepKey, H1, H2;
      OneIs(z, pc, s1, s2);
      done := true;
      if s2 in AttacksBB(pc.kind, s1, {}) {
        ghost var before := Slots();
        ghost var hand;
        done, hand := Insert(StepKey(z, pc, s1, s2), Step(s1, s2), budget);
        if done {
          HoldsMore(before, Slots(), base, Entry(z, pc, s1, s2));
        } else if budget >= LIMIT {
          HoldsCrowded(before, base, Entry(z, pc, s1, s2));
        }
      } else {
        HoldsSame(Slots(), base, base + multiset{});
      }
    }
  }

  /** The entry of a pair of squares, if the piece moves between them. */
  function One(z: Zobrist, pc: Piece, s1: Square, s2: Square): multiset<Pair> {
    if Reversible(pc, s1, s2) then multiset{Entry(z, pc, s1, s2)} else multiset{}
  }

  lemma OneIs(z: Zobrist, pc: Piece, s1: Square, s2: Square)
    requires pc.Piece? && pc.kind != Pawn && s1 < s2
    ensures One(z, pc, s1, s2) == if s2 in AttacksBB(pc.kind, s1, {}) then multiset{Entry(z, pc, s1, s2)}
      else multiset{}
    ensures Entry(z, pc, s1, s2) == Pair(StepKey(z, pc, s1, s2), Some(Step(s1, s2)))
  {
    hide AttacksBB, StepKey;
  }

  lemma BuiltIs(z: Zobrist, slots: seq<Pair>)
    ensures Built(z, slots) <==> Placed(slots) && Holds(slots, Entries(z, 12))
    ensures (forall q :: q != EMPTY ==> multiset(slots)[q] == 0) ==> Holds(slots, multiset{})
  {
    hide Placed, Entries;
  }

  lemma HoldsRegrouped(slots: seq<Pair>, a: multiset<Pair>, b: multiset<Pair>, c: multiset<Pair>)
    requires Holds(slots, a + b + c)
    ensures Holds(slots, a + (b + c))
  {
    assert a + b + c == a + (b + c);
  }

  ghost predicate Holds(slots: seq<Pair>, entries: multiset<Pair>) {
    forall q :: q != EMPTY ==> multiset(slots)[q] == entries[q]
  }

  lemma StartWalks(w: Walk)
    requires Placed(w.slots) && w.at == H1(w.hand.key) && w.hand.move.Some?
    ensures Walking(w) && |w.slots| == SLOTS && w.at < SLOTS
  {
    hide H1, H2;
  }

  lemma OtherIs(p: Pair, i: nat)
    ensures Other(p, i) == if i == H1(p.key) then H2(p.key) else H1(p.key)
  {
    hide H1, H2;
  }

  lemma EndsPlaced(w: Walk, n: nat, slots: seq<Pair>)
    requires Walking(w) && |w.slots| == SLOTS && w.at < SLOTS
    requires Displaced(w, n).hand.move.None? && Displaced(w, n).slots == slots
    ensures Placed(slots) && Displaced(w, n).hand == EMPTY
    ensures multiset(slots) + multiset{EMPTY} == multiset(w.slots) + multiset{w.hand}
    ensures !Crowded(multiset(w.slots) + multiset{w.hand})
  {
    hide *;
    DisplacedKeeps(w, n);
    WalkPlaces(w, n);
  }

  lemma StillWalking(w: Walk, n: nat)
    requires Walking(w) && |w.slots| == SLOTS && w.at < SLOTS && Displaced(w, n).hand.move.Some?
    ensures var v := Displaced(w, n);
            Placed(v.slots) && multiset(v.slots) + multiset{v.hand} == multiset(w.slots) + multiset{w.hand}
    ensures n >= LIMIT ==> Crowded(multiset(w.slots) + multiset{w.hand})
  {
    hide *;
    DisplacedKeeps(w, n);
    WalkExact(w);
    if n >= LIMIT && Displaced(w, LIMIT).hand.move.None? {
      DisplacedEnded(w, LIMIT, n);
    }
  }

  lemma HoldsCrowded(before: seq<Pair>, base: multiset<Pair>, p: Pair)
    requires Holds(before, base) && Crowded(multiset(before) + multiset{p})
    ensures Crowded(base + multiset{p})
  {
    CrowdedMore(multiset(before) + multiset{p}, base + multiset{p});
  }

  lemma {:induction false} RowGrows(z: Zobrist, pc: Piece, s1: Square, lo: nat, hi: nat)
    requires lo <= hi <= 64
    ensures Row(z, pc, s1, lo) <= Row(z, pc, s1, hi)
  {
    hide Reversible, Entry;
    if lo < hi {
      RowGrows(z, pc, s1, lo, hi - 1);
    }
  }

  lemma {:induction false} RowsGrow(z: Zobrist, pc: Piece, m: nat, n: nat)
    requires m <= n <= 64
    ensures Rows(z, pc, m) <= Rows(z, pc, n)
  {
    hide Row;
    if m < n {
      RowsGrow(z, pc, m, n - 1);
    }
  }

  lemma {:induction false} EntriesGrow(z: Zobrist, m: nat, n: nat)
    requires m <= n <= 12
    ensures Entries(z, m) <= Entries(z, n)
  {
    hide Rows;
    if m < n {
      EntriesGrow(z, m, n - 1);
    }
  }

  /** Moves entered one by one and found crowded leave no table that could hold them all. */
  lemma NeverBuilt(z: Zobrist, n: nat, s1: Square, s2: Square)
    requires n < 12 && s1 < s2
    requires var pc := NthPiece(n);
             Crowded(Entries(z, n) + Rows(z, pc, s1) + Row(z, pc, s1, s2) + One(z, pc, s1, s2))
    ensures !exists slots :: Built(z, slots)
  {
    hide Crowded, Row, Rows, Entries, One, Placed;
    var pc := NthPiece(n);
    var part := Entries(z, n) + Rows(z, pc, s1) + Row(z, pc, s1, s2) + One(z, pc, s1, s2);
    RowMore(z, pc, s1, s2);
    RowGrows(z, pc, s1, s2 + 1, 64);
    RowsMore(z, pc, s1);
    RowsGrow(z, pc, s1 + 1, 64);
    EntriesMore(z, n);
    EntriesGrow(z, n + 1, 12);
    PartOf(Entries(z, n), Rows(z, pc, s1), Row(z, pc, s1, s2 + 1), Row(z, pc, s1, 64), Rows(z, pc, 64), Entries(z, 12));
    assert part == Entries(z, n) + Rows(z, pc, s1) + Row(z, pc, s1, s2 + 1);
    forall slots | Built(z, slots)
      ensures false
    {
      PlacedNotCrowded(slots);
      CrowdedMore(part, multiset(slots));
    }
  }

  lemma PartOf(a: multiset<Pair>, b: multiset<Pair>, c: multiset<Pair>,
               d: multiset<Pair>, e: multiset<Pair>, f: multiset<Pair>)
    requires c <= d && b + d <= e && a + e <= f
    ensures a + b + c <= f
  {
    forall q
      ensures (a + b + c)[q] <= f[q]
    {
      assert c[q] <= d[q] && (b + d)[q] <= e[q] && (a + e)[q] <= f[q];
    }
  }

  lemma HoldsSame(slots: seq<Pair>, a: multiset<Pair>, b: multiset<Pair>)
    requires Holds(slots, a) && a == b
    ensures Holds(slots, b)
  {
  }

  lemma HoldsMore(before: seq<Pair>, after: seq<Pair>, entries: multiset<Pair>, p: Pair)
    requires Holds(before, entries) && multiset(after) + multiset{EMPTY} == multiset(before) + multiset{p}
    ensures Holds(after, entries + multiset{p})
  {
    forall q | q != EMPTY
      ensures multiset(after)[q] == (entries + multiset{p})[q]
    {
      assert (multiset(after) + multiset{EMPTY})[q] == (multiset(before) + multiset{p})[q];
    }
  }

  lemma {:induction false} PawnRow(z: Zobrist, pc: Piece, s1: Square, hi: nat)
    requires hi <= 64 && pc.Piece? && pc.kind == Pawn
    ensures Row(z, pc, s1, hi) == multiset{}
  {
    if hi > s1 + 1 {
      PawnRow(z, pc, s1, hi - 1);
    }
  }

  lemma {:induction false} PawnRows(z: Zobrist, pc: Piece, n: nat)
    requires n <= 64 && pc.Piece? && pc.kind == Pawn
    ensures Rows(z, pc, n) == multiset{}
  {
    if n > 0 {
      PawnRows(z, pc, n - 1);
      PawnRow(z, pc, n - 1, 64);
    }
  }

  lemma EntriesNone(z: Zobrist)
    ensures Entries(z, 0) == multiset{}
  {
  }

  lemma EntriesMore(z: Zobrist, n: nat)
    requires n < 12
    ensures Entries(z, n + 1) == Entries(z, n) + Rows(z, NthPiece(n), 64)
  {
    hide Rows;
  }

  lemma RowsNone(z: Zobrist, pc: Piece)
    ensures Rows(z, pc, 0) == multiset{}
  {
  }

  lemma RowsMore(z: Zobrist, pc: Piece, n: nat)
    requires n < 64
    ensures Rows(z, pc, n + 1) == Rows(z, pc, n) + Row(z, pc, n, 64)
  {
    hide Row;
  }

  lemma RowNone(z: Zobrist, pc: Piece, s1: Square)
    ensures Row(z, pc, s1, s1 + 1) == multiset{}
  {
  }

  lemma RowMore(z: Zobrist, pc: Piece, s1: Square, s2: Square)
    requires s1 < s2
    ensures Row(z, pc, s1, s2 + 1) ==
            Row(z, pc, s1, s2) + One(z, pc, s1, s2)
  {
    hide Reversible, Entry;
  }
}
