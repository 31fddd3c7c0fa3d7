/** The displacement walk of the cuckoo table: it ends exactly when the pairs can be placed at all,
    and then within a number of steps known beforehand. */
module Displacement {
  import opened Homes

  // ----- how many pairs a set of slots must take -----

  predicate HomesIn(p: Pair, t: set<nat>) {
    p.move.Some? && H1(p.key) in t && H2(p.key) in t
  }

  /** The pairs of the list that can go nowhere else. */
  function Bound(list: seq<Pair>, t: set<nat>): nat {
    if list == [] then 0 else Bound(list[..|list| - 1], t) + if HomesIn(list[|list| - 1], t) then 1 else 0
  }

  /** Some slots would have to take more pairs than they are. */
  ghost predicate Crowded(pairs: multiset<Pair>) {
    exists list: seq<Pair>, t: set<nat> :: Within(list, pairs) && Bound(list, t) > |t|
  }

  ghost predicate Within(list: seq<Pair>, pairs: multiset<Pair>) {
    forall q :: q != EMPTY ==> multiset(list)[q] <= pairs[q]
  }

  lemma {:induction false} BoundWithout(list: seq<Pair>, j: nat, t: set<nat>)
    requires j < |list|
    ensures Bound(list, t) == Bound(list[..j] + list[j + 1..], t) + if HomesIn(list[j], t) then 1 else 0
  {
    hide HomesIn;
    var last := |list| - 1;
    if j == last {
      assert list[..j] + list[j + 1..] == list[..last];
    } else {
      BoundWithout(list[..last], j, t);
      assert (list[..j] + list[j + 1..])[..last - 1] == list[..last][..j] + list[..last][j + 1..];
    }
  }

  lemma WithoutOne(list: seq<Pair>, j: nat)
    requires j < |list|
    ensures multiset(list) == multiset(list[..j] + list[j + 1..]) + multiset{list[j]}
  {
    assert list == list[..j] + [list[j]] + list[j + 1..];
  }

  /** A list whose pairs are all among another's has no more of them bound. */
  lemma {:induction false} BoundFewer(list: seq<Pair>, other: seq<Pair>, t: set<nat>)
    requires Within(list, multiset(other))
    ensures Bound(list, t) <= Bound(other, t)
  {
    if list != [] {
      var last := |list| - 1;
      var x := list[last];
      WithoutOne(list, last);
      assert list[..last] + list[last + 1..] == list[..last];
      if x == EMPTY || !HomesIn(x, t) {
        BoundFewer(list[..last], other, t);
      } else {
        assert multiset(list)[x] > 0;
        var j :| 0 <= j < |other| && other[j] == x;
        WithoutOne(other, j);
        BoundWithout(other, j, t);
        hide HomesIn, Within;
        WithinLess(list, list[..last], other, other[..j] + other[j + 1..], x);
        BoundFewer(list[..last], other[..j] + other[j + 1..], t);
      }
    }
  }

  lemma WithinLess(list: seq<Pair>, less: seq<Pair>, other: seq<Pair>, fewer: seq<Pair>, x: Pair)
    requires Within(list, multiset(other))
    requires multiset(list) == multiset(less) + multiset{x} && multiset(other) == multiset(fewer) + multiset{x}
    ensures Within(less, multiset(fewer))
  {
    forall q | q != EMPTY
      ensures multiset(less)[q] <= multiset(fewer)[q]
    {
      assert (multiset(less) + multiset{x})[q] <= (multiset(fewer) + multiset{x})[q];
    }
  }

  function Upto(t: set<nat>, n: nat): set<nat> {
    set i | i in t && i < n
  }

  lemma UptoMore(t: set<nat>, n: nat)
    ensures |Upto(t, n + 1)| == |Upto(t, n)| + if n in t then 1 else 0
  {
    assert Upto(t, n + 1) == if n in t then Upto(t, n) + {n} else Upto(t, n);
  }

  lemma {:induction false} UptoAll(t: set<nat>, n: nat)
    ensures |Upto(t, n)| <= |t|
  {
    assert t == Upto(t, n) + (t - Upto(t, n));
  }

  /** Placed pairs crowd no slots. */
  lemma {:induction false} PlacedBound(slots: seq<Pair>, t: set<nat>, n: nat)
    requires Placed(slots) && n <= |slots|
    ensures Bound(slots[..n], t) <= |Upto(t, n)|
  {
    if n > 0 {
      PlacedBound(slots, t, n - 1);
      UptoMore(t, n - 1);
      assert slots[..n][..n - 1] == slots[..n - 1];
      assert AtHome(slots[n - 1], n - 1);
      hide H1, H2;
    }
  }

  lemma PlacedNotCrowded(slots: seq<Pair>)
    requires Placed(slots)
    ensures !Crowded(multiset(slots))
  {
    hide H1, H2, HomesIn;
    forall list: seq<Pair>, t: set<nat> | Within(list, multiset(slots))
      ensures Bound(list, t) <= |t|
    {
      BoundFewer(list, slots, t);
      PlacedBound(slots, t, |slots|);
      assert slots[..|slots|] == slots;
      UptoAll(t, |slots|);
    }
  }

  /** Slots all of whose pairs are bound to them. */
  lemma {:induction false} FullBound(slots: seq<Pair>, t: set<nat>, n: nat)
    requires n <= |slots| && forall i :: i in t && i < |slots| ==> HomesIn(slots[i], t)
    ensures Bound(slots[..n], t) >= |Upto(t, n)|
  {
    hide HomesIn;
    if n > 0 {
      FullBound(slots, t, n - 1);
      UptoMore(t, n - 1);
      assert slots[..n][..n - 1] == slots[..n - 1];
    } else {
      assert Upto(t, 0) == {};
    }
  }

  /** With one more pair bound to them, they are crowded. */
  lemma FullCrowded(slots: seq<Pair>, t: set<nat>, x: Pair)
    requires (forall i :: i in t ==> i < |slots| && HomesIn(slots[i], t)) && HomesIn(x, t)
    ensures Crowded(multiset(slots) + multiset{x})
  {
    hide HomesIn;
    FullBound(slots, t, |slots|);
    assert slots[..|slots|] == slots && Upto(t, |slots|) == t;
    var list := slots + [x];
    assert list[..|list| - 1] == slots;
    assert multiset(list) == multiset(slots) + multiset{x};
    assert Within(list, multiset(slots) + multiset{x}) && Bound(list, t) > |t|;
  }

  lemma CrowdedMore(a: multiset<Pair>, b: multiset<Pair>)
    requires Crowded(a) && forall q :: q != EMPTY ==> a[q] <= b[q]
    ensures Crowded(b)
  {
    var list: seq<Pair>, t: set<nat> :| Within(list, a) && Bound(list, t) > |t|;
    assert Within(list, b);
    hide Bound;
  }

  // ----- the walk -----

  /** The table, the pair in hand and the slot it goes to. */
  datatype Walk = Walk(slots: seq<Pair>, hand: Pair, at: nat)

  function Other(p: Pair, i: nat): (j: nat)
    ensures j < SLOTS
  {
    if i == H1(p.key) then H2(p.key) else H1(p.key)
  }

  lemma OtherTwice(p: Pair, i: nat)
    requires p.move.Some? && AtHome(p, i)
    ensures Other(p, Other(p, i)) == i && AtHome(p, Other(p, i))
    ensures forall t: set<nat> :: i in t && Other(p, i) in t ==> HomesIn(p, t)
  {
    hide H1, H2;
  }

  predicate Walking(w: Walk) {
    |w.slots| == SLOTS && w.at < SLOTS && Placed(w.slots) && AtHome(w.hand, w.at) && w.hand.move.Some?
  }

  /** One displacement. */
  function Displace(w: Walk): Walk
    requires |w.slots| == SLOTS && w.at < SLOTS
  {
    var out := w.slots[w.at];
    Walk(w.slots[w.at := w.hand], out, Other(out, w.at))
  }

  lemma DisplaceKeeps(w: Walk)
    requires Walking(w)
    ensures var v := Displace(w);
            && |v.slots| == SLOTS && v.at < SLOTS && Placed(v.slots)
            && (v.hand.move.Some? ==> Walking(v)) && (v.hand.move.None? ==> v.hand == EMPTY)
            && multiset(v.slots) + multiset{v.hand} == multiset(w.slots) + multiset{w.hand}
  {
    assert AtHome(w.slots[w.at], w.at);
    if w.slots[w.at].move.Some? {
      OtherTwice(w.slots[w.at], w.at);
    }
    hide H1, H2, Other;
  }

  /** n displacements, or as many as it takes to come out with empty hands. */
  function Displaced(w: Walk, n: nat): (v: Walk)
    requires |w.slots| == SLOTS && w.at < SLOTS
    ensures |v.slots| == SLOTS && v.at < SLOTS
  {
    if n == 0 then w else
      var v := Displaced(w, n - 1);
      if v.hand.move.None? then v else Displace(v)
  }

  lemma {:induction false} DisplacedKeeps(w: Walk, n: nat)
    requires Walking(w)
    ensures var v := Displaced(w, n);
            && Placed(v.slots) && (v.hand.move.Some? ==> Walking(v)) && (v.hand.move.None? ==> v.hand == EMPTY)
            && multiset(v.slots) + multiset{v.hand} == multiset(w.slots) + multiset{w.hand}
  {
    hide AtHome, Placed, Displace;
    if n > 0 {
      DisplacedKeeps(w, n - 1);
      if Displaced(w, n - 1).hand.move.Some? {
        DisplaceKeeps(Displaced(w, n - 1));
      }
    } else {
      WalkingPlaced(w);
    }
  }

  lemma WalkingPlaced(w: Walk)
    requires Walking(w)
    ensures Placed(w.slots)
  {
  }

  lemma {:induction false} DisplacedAdd(w: Walk, n: nat, m: nat)
    requires |w.slots| == SLOTS && w.at < SLOTS
    ensures Displaced(w, n + m) == Displaced(Displaced(w, n), m)
  {
    hide Displace;
    if m > 0 {
      DisplacedAdd(w, n, m - 1);
    }
  }

  lemma {:induction false} DisplacedEnded(w: Walk, n: nat, m: nat)
    requires |w.slots| == SLOTS && w.at < SLOTS && n <= m && Displaced(w, n).hand.move.None?
    ensures Displaced(w, m).hand.move.None?
  {
    hide Displace;
    if n < m {
      DisplacedEnded(w, n, m - 1);
    }
  }

  // ----- outward: a path of slots not met before -----

  /** The pair carried to the m-th slot of the path: the first one, then what stood in the slot before. */
  function Carried(w: Walk, s: seq<nat>, m: nat): Pair
    requires m <= |s| && forall k :: 0 <= k < |s| ==> s[k] < |w.slots|
  {
    if m == 0 then w.hand else w.slots[s[m - 1]]
  }

  function NextSlot(w: Walk, s: seq<nat>): nat
    requires forall k :: 0 <= k < |s| ==> s[k] < |w.slots|
  {
    if s == [] then w.at else Other(w.slots[s[|s| - 1]], s[|s| - 1])
  }

  /** The walk from w goes through the slots of s, all different, all taken and none of them in stop. */
  ghost predicate Path(w: Walk, s: seq<nat>, stop: set<nat>) {
    && (forall k :: 0 <= k < |s| ==> s[k] < |w.slots| && s[k] !in stop && w.slots[s[k]].move.Some?)
    && (forall i, k :: 0 <= i < k < |s| ==> s[i] != s[k])
    && forall k :: 0 <= k < |s| ==> s[k] == NextSlot(w, s[..k])
  }

  /** Along the path each pair has moved up by one slot. */
  ghost predicate Outward(w: Walk, s: seq<nat>, v: Walk)
    requires forall k :: 0 <= k < |s| ==> s[k] < |w.slots|
  {
    && |v.slots| == |w.slots| && v.hand == Carried(w, s, |s|) && v.at == NextSlot(w, s)
    && (forall m :: 0 <= m < |s| ==> v.slots[s[m]] == Carried(w, s, m))
    && forall i :: 0 <= i < |w.slots| && i !in s ==> v.slots[i] == w.slots[i]
  }

  lemma PathNone(w: Walk, stop: set<nat>)
    ensures Path(w, [], stop) && Outward(w, [], w)
  {
  }

  lemma PathMore(w: Walk, s: seq<nat>, stop: set<nat>)
    requires Path(w, s, stop) && NextSlot(w, s) < |w.slots|
    requires NextSlot(w, s) !in s && NextSlot(w, s) !in stop && w.slots[NextSlot(w, s)].move.Some?
    ensures Path(w, s + [NextSlot(w, s)], stop)
  {
    var r := s + [NextSlot(w, s)];
    assert r[..|s|] == s;
    forall k | 0 <= k < |r|
      ensures r[k] == NextSlot(w, r[..k])
    {
      if k < |s| {
        assert r[..k] == s[..k];
      }
    }
    hide NextSlot;
  }

  lemma OutwardMore(w: Walk, s: seq<nat>, v: Walk)
    requires (forall k :: 0 <= k < |s| ==> s[k] < |w.slots|) && Outward(w, s, v)
    requires |w.slots| == SLOTS && NextSlot(w, s) < SLOTS && NextSlot(w, s) !in s
    ensures Outward(w, s + [NextSlot(w, s)], Displace(v))
  {
    hide Other;
    var i := NextSlot(w, s);
    var r := s + [i];
    OneMoved(w, s, v.slots, i, v.hand);
    var u := Displace(v);
    assert v.slots[i] == w.slots[i];
    assert u.hand == w.slots[i] == Carried(w, r, |r|);
    assert u.at == Other(w.slots[i], i) == NextSlot(w, r);
    assert u.slots == v.slots[i := v.hand];
    hide NextSlot, Carried, Displace;
  }

  lemma OneMoved(w: Walk, s: seq<nat>, now: seq<Pair>, i: nat, p: Pair)
    requires (forall k :: 0 <= k < |s| ==> s[k] < |w.slots|) && |now| == |w.slots| && i < |now| && i !in s
    requires p == Carried(w, s, |s|)
    requires forall m :: 0 <= m < |s| ==> now[s[m]] == Carried(w, s, m)
    requires forall k :: 0 <= k < |now| && k !in s ==> now[k] == w.slots[k]
    ensures var r, u := s + [i], now[i := p];
            && (forall m :: 0 <= m < |r| ==> u[r[m]] == Carried(w, r, m))
            && forall k :: 0 <= k < |u| && k !in r ==> u[k] == w.slots[k]
  {
    var r, u := s + [i], now[i := p];
    forall m | 0 <= m < |r|
      ensures u[r[m]] == Carried(w, r, m)
    {
      CarriedSame(w, s, r, m);
      hide Carried;
      if m < |s| {
        assert r[m] == s[m] && s[m] in s;
      }
    }
    hide Carried;
    assert forall k :: k in s ==> k in r;
  }

  lemma CarriedSame(w: Walk, s: seq<nat>, r: seq<nat>, m: nat)
    requires m <= |s| <= |r| && (forall k :: 0 <= k < |r| ==> r[k] < |w.slots|) && s == r[..|s|]
    ensures Carried(w, s, m) == Carried(w, r, m)
  {
  }

  /** The slots of a path. */
  function Met(s: seq<nat>): set<nat> {
    set k | 0 <= k < |s| :: s[k]
  }

  function Below(n: nat): (t: set<nat>)
    ensures |t| == n && forall i: nat :: i in t <==> i < n
  {
    if n == 0 then {} else Below(n - 1) + {n - 1}
  }

  lemma {:induction false} MetSize(s: seq<nat>)
    requires forall i, k :: 0 <= i < k < |s| ==> s[i] != s[k]
    ensures |Met(s)| == |s|
  {
    if s != [] {
      var r, x := s[..|s| - 1], s[|s| - 1];
      MetSize(r);
      forall y
        ensures y in Met(s) <==> y in Met(r) + {x}
      {
        if y in Met(r) {
          var k :| 0 <= k < |r| && r[k] == y;
          assert s[k] == y;
        }
      }
      assert Met(s) == Met(r) + {x};
    }
  }

  lemma PathShort(s: seq<nat>, n: nat)
    requires (forall k :: 0 <= k < |s| ==> s[k] < n) && forall i, k :: 0 <= i < k < |s| ==> s[i] != s[k]
    ensures |s| <= n
  {
    MetSize(s);
    SubsetCard(Met(s), Below(n));
  }

  lemma SubsetCard(a: set<nat>, b: set<nat>)
    requires a <= b
    ensures |a| <= |b|
  {
    assert b == a + (b - a);
  }

  /** The walk goes on along new slots until it finds an empty one, or comes to a slot it has met. */
  lemma {:induction false} Explore(w: Walk, s: seq<nat>, stop: set<nat>) returns (r: seq<nat>)
    requires Walking(w) && Path(w, s, stop) && Outward(w, s, Displaced(w, |s|)) && |s| <= SLOTS
    ensures Path(w, r, stop) && Outward(w, r, Displaced(w, |r|)) && |r| <= SLOTS
    ensures NextSlot(w, r) < SLOTS &&
            (NextSlot(w, r) in r || NextSlot(w, r) in stop || w.slots[NextSlot(w, r)].move.None?)
    decreases SLOTS - |s|
  {
    hide *;
    WalkingSizes(w);
    NextBound(w, s, stop);
    var i := NextSlot(w, s);
    if i in s || i in stop || w.slots[i].move.None? {
      r := s;
    } else {
      PathDistinct(w, s, stop);
      PathMore(w, s, stop);
      OutwardMore(w, s, Displaced(w, |s|));
      var longer := s + [i];
      PathDistinct(w, longer, stop);
      PathShort(longer, SLOTS);
      CarriedTaken(w, s, stop, Displaced(w, |s|));
      DisplacedOne(w, |s|);
      r := Explore(w, longer, stop);
    }
  }

  lemma WalkingSizes(w: Walk)
    requires Walking(w)
    ensures |w.slots| == SLOTS && w.at < SLOTS && Placed(w.slots) && AtHome(w.hand, w.at) && w.hand.move.Some?
  {
    hide Placed, AtHome;
  }

  lemma NextBound(w: Walk, s: seq<nat>, stop: set<nat>)
    requires |w.slots| == SLOTS && w.at < SLOTS && Path(w, s, stop)
    ensures (forall k :: 0 <= k < |s| ==> s[k] < |w.slots|) && NextSlot(w, s) < SLOTS
  {
    hide Other;
  }

  lemma PathDistinct(w: Walk, s: seq<nat>, stop: set<nat>)
    requires Path(w, s, stop)
    ensures (forall k :: 0 <= k < |s| ==> s[k] < |w.slots| && s[k] !in stop)
    ensures forall i, k :: 0 <= i < k < |s| ==> s[i] != s[k]
  {
    hide NextSlot;
  }

  lemma CarriedTaken(w: Walk, s: seq<nat>, stop: set<nat>, v: Walk)
    requires Path(w, s, stop) && Outward(w, s, v) && w.hand.move.Some?
    ensures v.hand.move.Some?
  {
    hide NextSlot;
  }

  lemma DisplacedOne(w: Walk, n: nat)
    requires |w.slots| == SLOTS && w.at < SLOTS
    ensures Displaced(w, n + 1) == if Displaced(w, n).hand.move.None? then Displaced(w, n)
      else Displace(Displaced(w, n))
  {
    hide Displace;
  }

  // ----- inward: back along the path once it has met itself -----

  /** What the m-th slot of the path holds when the walk, back at the j-th, has undone the slots
      from there down to the n-th. */
  function Undone(w: Walk, s: seq<nat>, j: nat, n: nat, m: nat): Pair
    requires m < |s| && forall k :: 0 <= k < |s| ==> s[k] < |w.slots|
  {
    if m == j then Carried(w, s, |s|) else if n <= m < j then w.slots[s[m]] else Carried(w, s, m)
  }

  /** The pairs go back to where they stood, one by one: the n-th pair carried outward is in hand
      again, on its way to its other slot. */
  ghost predicate Inward(w: Walk, s: seq<nat>, j: nat, n: nat, v: Walk)
    requires n <= j < |s| && forall k :: 0 <= k < |s| ==> s[k] < |w.slots|
  {
    && |v.slots| == |w.slots| && v.hand == Carried(w, s, n) && v.at == Other(Carried(w, s, n), s[n])
    && (forall m :: 0 <= m < |s| ==> v.slots[s[m]] == Undone(w, s, j, n, m))
    && forall i :: 0 <= i < |w.slots| && i !in s ==> v.slots[i] == w.slots[i]
  }

  lemma TurnBack(w: Walk, s: seq<nat>, j: nat, v: Walk)
    requires (forall k :: 0 <= k < |s| ==> s[k] < |w.slots|) && (forall i, k :: 0 <= i < k < |s| ==> s[i] != s[k])
    requires Outward(w, s, v) && j < |s| && NextSlot(w, s) == s[j] && |w.slots| == SLOTS
    ensures Inward(w, s, j, j, Displace(v))
  {
    hide Other, NextSlot;
    var u := Displace(v);
    assert u.slots == v.slots[s[j] := v.hand];
    hide Displace;
    forall m | 0 <= m < |s|
      ensures u.slots[s[m]] == Undone(w, s, j, j, m)
    {
      hide Carried;
      if m != j {
        assert s[m] != s[j];
      }
    }
    hide Carried, Undone;
  }

  /** The n-th pair carried came from the slot before. */
  lemma CarriedFrom(w: Walk, s: seq<nat>, stop: set<nat>, n: nat)
    requires Walking(w) && Path(w, s, stop) && 0 < n < |s|
    ensures forall k :: 0 <= k < |s| ==> s[k] < |w.slots|
    ensures Carried(w, s, n) == w.slots[s[n - 1]] && Other(Carried(w, s, n), s[n]) == s[n - 1]
    ensures forall t: set<nat> :: s[n - 1] in t && s[n] in t ==> HomesIn(Carried(w, s, n), t)
  {
    var p := w.slots[s[n - 1]];
    assert AtHome(p, s[n - 1]);
    OtherTwice(p, s[n - 1]);
    assert s[n] == NextSlot(w, s[..n]) == Other(p, s[n - 1]);
    hide Other, NextSlot, HomesIn, AtHome;
  }

  lemma InwardMore(w: Walk, s: seq<nat>, stop: set<nat>, j: nat, n: nat, v: Walk)
    requires Walking(w) && Path(w, s, stop) && n < j < |s|
    requires forall k :: 0 <= k < |s| ==> s[k] < |w.slots|
    requires Inward(w, s, j, n + 1, v)
    ensures Inward(w, s, j, n, Displace(v))
  {
    hide *;
    WalkingSizes(w);
    PathDistinct(w, s, stop);
    CarriedFrom(w, s, stop, n + 1);
    InwardIs(w, s, j, n + 1, v);
    InwardIs(w, s, j, n, Displace(v));
    UndoneIs(w, s, j, n);
    DisplaceIs(v);
    assert v.at == s[n] && v.hand == w.slots[s[n]];
    forall m | 0 <= m < |s|
      ensures Displace(v).slots[s[m]] == Undone(w, s, j, n, m)
    {
      if m != n {
        assert s[m] != s[n];
      }
    }
  }

  lemma InwardIs(w: Walk, s: seq<nat>, j: nat, n: nat, v: Walk)
    requires n <= j < |s| && forall k :: 0 <= k < |s| ==> s[k] < |w.slots|
    ensures Inward(w, s, j, n, v) <==>
              && |v.slots| == |w.slots| && v.hand == Carried(w, s, n) && v.at == Other(Carried(w, s, n), s[n])
              && (forall m :: 0 <= m < |s| ==> v.slots[s[m]] == Undone(w, s, j, n, m))
              && forall i :: 0 <= i < |w.slots| && i !in s ==> v.slots[i] == w.slots[i]
  {
    hide Carried, Other, Undone;
  }

  /** Undoing one slot more changes that one only. */
  lemma UndoneIs(w: Walk, s: seq<nat>, j: nat, n: nat)
    requires n < j < |s| && forall k :: 0 <= k < |s| ==> s[k] < |w.slots|
    ensures Undone(w, s, j, n + 1, n) == Carried(w, s, n) && Undone(w, s, j, n, n) == w.slots[s[n]]
    ensures forall m :: 0 <= m < |s| && m != n ==> Undone(w, s, j, n, m) == Undone(w, s, j, n + 1, m)
  {
    hide Carried;
  }

  lemma DisplaceIs(v: Walk)
    requires |v.slots| == SLOTS && v.at < SLOTS
    ensures Displace(v) == Walk(v.slots[v.at := v.hand], v.slots[v.at], Other(v.slots[v.at], v.at))
  {
    hide Other;
  }

  lemma {:induction false} TurnedBack(w: Walk, s: seq<nat>, stop: set<nat>, j: nat, n: nat)
    requires Walking(w) && Path(w, s, stop) && n <= j < |s|
    requires (forall k :: 0 <= k < |s| ==> s[k] < |w.slots|) && NextSlot(w, s) == s[j]
    requires |w.slots| == SLOTS && w.at < SLOTS && Outward(w, s, Displaced(w, |s|))
    ensures Inward(w, s, j, n, Displaced(w, |s| + 1 + j - n))
    decreases j - n
  {
    hide *;
    PathDistinct(w, s, stop);
    WalkingSizes(w);
    if n == j {
      CarriedTaken(w, s, stop, Displaced(w, |s|));
      TurnBack(w, s, j, Displaced(w, |s|));
      DisplacedOne(w, |s|);
    } else {
      TurnedBack(w, s, stop, j, n + 1);
      var v := Displaced(w, |s| + j - n);
      InwardMore(w, s, stop, j, n, v);
      InwardTaken(w, s, stop, j, n + 1, v);
      DisplacedOne(w, |s| + j - n);
    }
  }

  lemma InwardTaken(w: Walk, s: seq<nat>, stop: set<nat>, j: nat, n: nat, v: Walk)
    requires Path(w, s, stop) && n <= j < |s| && w.hand.move.Some?
    requires forall k :: 0 <= k < |s| ==> s[k] < |w.slots|
    requires Inward(w, s, j, n, v)
    ensures v.hand.move.Some?
  {
    hide NextSlot, Other, Undone;
  }

  // ----- the walk ends, or the slots it met are overfull -----

  /** Steps enough for every walk that ends at all. */
  const LIMIT: nat := 4 * SLOTS

  lemma LimitIs()
    ensures LIMIT == 4 * SLOTS && SLOTS > 0
  {
  }

  lemma FoundEmpty(w: Walk, s: seq<nat>, stop: set<nat>)
    requires |w.slots| == SLOTS && w.at < SLOTS && Path(w, s, stop) && w.hand.move.Some?
    requires (forall k :: 0 <= k < |s| ==> s[k] < |w.slots|) && Outward(w, s, Displaced(w, |s|))
    requires NextSlot(w, s) < SLOTS && w.slots[NextSlot(w, s)].move.None?
    ensures Displaced(w, |s| + 1).hand.move.None?
  {
    CarriedTaken(w, s, stop, Displaced(w, |s|));
    DisplacedOne(w, |s|);
    hide NextSlot, Other, Displaced;
  }

  /** The pairs met on the second way out stand between slots it has met. */
  lemma PathIn(b: Walk, r: seq<nat>, stop: set<nat>, t: set<nat>, k: nat)
    requires Walking(b) && Path(b, r, stop) && k < |r| && Met(r) <= t
    requires (forall i :: 0 <= i < |r| ==> r[i] < |b.slots|) && NextSlot(b, r) in t
    ensures HomesIn(b.slots[r[k]], t)
  {
    var p := b.slots[r[k]];
    assert r[k] in Met(r);
    assert AtHome(p, r[k]);
    OtherTwice(p, r[k]);
    assert Other(p, r[k]) == NextSlot(b, r[..k + 1]);
    if k + 1 < |r| {
      assert r[k + 1] == NextSlot(b, r[..k + 1]) && r[k + 1] in Met(r);
    } else {
      assert r[..k + 1] == r;
    }
    hide Other, NextSlot, HomesIn, AtHome;
  }

  /** So do those of the first, after it has turned back. */
  lemma LoopIn(w: Walk, s: seq<nat>, stop: set<nat>, j: nat, b: Walk, t: set<nat>, m: nat)
    requires Walking(w) && Path(w, s, stop) && m < |s| && j < |s| && Met(s) <= t
    requires (forall i :: 0 <= i < |s| ==> s[i] < |w.slots|) && NextSlot(w, s) == s[j]
    requires Inward(w, s, j, 0, b)
    ensures HomesIn(b.slots[s[m]], t)
  {
    assert forall i :: 0 <= i < |s| ==> s[i] in Met(s);
    hide Other, HomesIn, AtHome, Walking, NextSlot, Path;
    if m == j {
      LastIn(w, s, stop, j, t);
    } else if m < j {
      CarriedFrom(w, s, stop, m + 1);
    } else {
      CarriedFrom(w, s, stop, m);
    }
  }

  lemma LastIn(w: Walk, s: seq<nat>, stop: set<nat>, j: nat, t: set<nat>)
    requires Walking(w) && Path(w, s, stop) && j < |s|
    requires (forall i :: 0 <= i < |s| ==> s[i] < |w.slots| && s[i] in t) && NextSlot(w, s) == s[j]
    ensures HomesIn(Carried(w, s, |s|), t)
  {
    var p := w.slots[s[|s| - 1]];
    assert AtHome(p, s[|s| - 1]);
    OtherTwice(p, s[|s| - 1]);
    hide Other, HomesIn, AtHome;
  }

  /** Slots met twice over, with every pair among them bound to them. */
  lemma Overfull(w: Walk, s: seq<nat>, stop: set<nat>, j: nat, b: Walk, r: seq<nat>)
    requires Walking(w) && Path(w, s, stop) && j < |s| && Walking(b) && Path(b, r, Met(s))
    requires (forall i :: 0 <= i < |s| ==> s[i] < |w.slots|) && NextSlot(w, s) == s[j]
    requires (forall i :: 0 <= i < |r| ==> r[i] < |b.slots|) && (NextSlot(b, r) in r || NextSlot(b, r) in Met(s))
    requires Inward(w, s, j, 0, b)
    ensures Crowded(multiset(b.slots) + multiset{b.hand})
  {
    hide *;
    var t := Met(s) + Met(r);
    MetHas(s);
    MetHas(r);
    WalkingSizes(b);
    WalkingSizes(w);
    InwardStarts(w, s, stop, j, b);
    forall i | i in t
      ensures i < |b.slots| && HomesIn(b.slots[i], t)
    {
      if i in Met(r) {
        var k :| 0 <= k < |r| && r[k] == i;
        PathIn(b, r, Met(s), t, k);
      } else {
        var k :| 0 <= k < |s| && s[k] == i;
        LoopIn(w, s, stop, j, b, t, k);
      }
    }
    HandIn(w, b, r, Met(s), t);
    FullCrowded(b.slots, t, b.hand);
  }

  lemma MetHas(s: seq<nat>)
    ensures forall i :: i in Met(s) <==> exists k :: 0 <= k < |s| && s[k] == i
    ensures forall i :: i in Met(s) <==> i in s
  {
  }

  lemma InwardStarts(w: Walk, s: seq<nat>, stop: set<nat>, j: nat, b: Walk)
    requires Path(w, s, stop) && j < |s| && (forall i :: 0 <= i < |s| ==> s[i] < |w.slots|)
    requires Inward(w, s, j, 0, b)
    ensures |b.slots| == |w.slots| && b.hand == w.hand && s[0] == w.at && b.at == Other(w.hand, w.at)
  {
    assert s[0] == NextSlot(w, s[..0]);
    hide Other;
  }

  lemma HandIn(w: Walk, b: Walk, r: seq<nat>, stop: set<nat>, t: set<nat>)
    requires AtHome(w.hand, w.at) && w.hand.move.Some? && b.hand == w.hand && b.at == Other(w.hand, w.at) && w.at in t
    requires Path(b, r, stop) && Met(r) <= t && (forall i :: 0 <= i < |r| ==> r[i] < |b.slots|) && NextSlot(b, r) in t
    ensures HomesIn(b.hand, t)
  {
    OtherTwice(w.hand, w.at);
    hide Other, HomesIn, AtHome;
    if r != [] {
      assert r[0] == NextSlot(b, r[..0]);
      assert r[0] in Met(r);
    }
  }

  /** Putting one more pair among placed ones: unless some slots would have to take more pairs than
      they are, the displacing stops within LIMIT steps. */
  lemma WalkEnds(w: Walk)
    requires Walking(w) && |w.slots| == SLOTS && w.at < SLOTS
    ensures Displaced(w, LIMIT).hand.move.None? || Crowded(multiset(w.slots) + multiset{w.hand})
  {
    hide *;
    LimitIs();
    PathNone(w, {});
    DisplacedNone(w);
    var s := Explore(w, [], {});
    PathDistinct(w, s, {});
    WalkingSizes(w);
    if w.slots[NextSlot(w, s)].move.None? {
      FoundEmpty(w, s, {});
      DisplacedEnded(w, |s| + 1, LIMIT);
    } else {
      var j :| 0 <= j < |s| && s[j] == NextSlot(w, s);
      TurnedBack(w, s, {}, j, 0);
      var n := |s| + 1 + j;
      var b := Displaced(w, n);
      DisplacedKeeps(w, n);
      InwardTaken(w, s, {}, j, 0, b);
      PathNone(b, Met(s));
      DisplacedNone(b);
      var r := Explore(b, [], Met(s));
      PathDistinct(b, r, Met(s));
      WalkingSizes(b);
      if b.slots[NextSlot(b, r)].move.None? {
        FoundEmpty(b, r, Met(s));
        DisplacedAdd(w, n, |r| + 1);
        DisplacedEnded(w, n + |r| + 1, LIMIT);
      } else {
        Overfull(w, s, {}, j, b, r);
      }
    }
  }

  lemma DisplacedNone(w: Walk)
    requires |w.slots| == SLOTS && w.at < SLOTS
    ensures Displaced(w, 0) == w
  {
  }

  /** And only then: a walk that stops at all has placed everything. */
  lemma WalkPlaces(w: Walk, n: nat)
    requires Walking(w) && |w.slots| == SLOTS && w.at < SLOTS && Displaced(w, n).hand.move.None?
    ensures !Crowded(multiset(w.slots) + multiset{w.hand}) && Fits(multiset(w.slots) + multiset{w.hand})
  {
    hide *;
    DisplacedKeeps(w, n);
    var v := Displaced(w, n);
    PlacedFits(v.slots, multiset(w.slots) + multiset{w.hand});
    FitsNotCrowded(multiset(w.slots) + multiset{w.hand});
  }

  /** Some placing of the pairs, empty slots aside, there is. */
  ghost predicate Fits(pairs: multiset<Pair>) {
    exists slots: seq<Pair> :: Placed(slots) && forall q :: q != EMPTY ==> multiset(slots)[q] == pairs[q]
  }

  lemma PlacedFits(slots: seq<Pair>, pairs: multiset<Pair>)
    requires Placed(slots) && multiset(slots) + multiset{EMPTY} == pairs
    ensures Fits(pairs)
  {
    hide Placed;
    forall q | q != EMPTY
      ensures multiset(slots)[q] == pairs[q]
    {
      assert (multiset(slots) + multiset{EMPTY})[q] == pairs[q];
    }
  }

  lemma FitsNotCrowded(pairs: multiset<Pair>)
    requires Fits(pairs)
    ensures !Crowded(pairs)
  {
    var slots: seq<Pair> :| Placed(slots) && forall q :: q != EMPTY ==> multiset(slots)[q] == pairs[q];
    PlacedNotCrowded(slots);
    hide Placed, Crowded;
    if Crowded(pairs) {
      CrowdedMore(pairs, multiset(slots));
    }
  }

  /** The displacing of a pair entered among placed ones stops, after any number of steps at all,
      exactly when the pairs have some placing, which is when no slots are crowded; and then it has
      stopped after LIMIT steps. */
  lemma WalkExact(w: Walk)
    requires Walking(w) && |w.slots| == SLOTS && w.at < SLOTS
    ensures Displaced(w, LIMIT).hand.move.None? <==> Fits(multiset(w.slots) + multiset{w.hand})
    ensures Displaced(w, LIMIT).hand.move.None? <==> !Crowded(multiset(w.slots) + multiset{w.hand})
    ensures forall n: nat :: Displaced(w, n).hand.move.None? ==> Displaced(w, LIMIT).hand.move.None?
  {
    hide *;
    WalkEnds(w);
    if Displaced(w, LIMIT).hand.move.None? {
      WalkPlaces(w, LIMIT);
    } else if Fits(multiset(w.slots) + multiset{w.hand}) {
      FitsNotCrowded(multiset(w.slots) + multiset{w.hand});
    }
    forall n: nat | Displaced(w, n).hand.move.None?
      ensures Displaced(w, LIMIT).hand.move.None?
    {
      WalkPlaces(w, n);
    }
  }
}
