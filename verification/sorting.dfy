/** The move picker's two in-place insertion sorts. */
module Sorting {
  import opened Types

  datatype ExtMove = ExtMove(move: Move, value: int)

  // ----- what one insertion does -----

  /** x placed in a run, searching from the right: behind every entry worth at least as much. */
  function Place(run: seq<ExtMove>, x: ExtMove): (r: seq<ExtMove>)
    ensures |r| == |run| + 1
  {
    if run == [] || run[|run| - 1].value >= x.value then run + [x]
    else Place(run[..|run| - 1], x) + [run[|run| - 1]]
  }

  ghost predicate Descending(s: seq<ExtMove>) {
    forall i, j :: 0 <= i < j < |s| ==> s[i].value >= s[j].value
  }

  lemma {:induction false} PlaceKeeps(run: seq<ExtMove>, x: ExtMove)
    ensures multiset(Place(run, x)) == multiset(run) + multiset{x}
  {
    if run != [] && run[|run| - 1].value < x.value {
      PlaceKeeps(run[..|run| - 1], x);
      assert run == run[..|run| - 1] + [run[|run| - 1]];
    }
  }

  /** A floor under the run and x is a floor under the result. */
  lemma {:induction false} PlaceAbove(run: seq<ExtMove>, x: ExtMove, floor: int)
    requires x.value >= floor && forall i :: 0 <= i < |run| ==> run[i].value >= floor
    ensures forall i :: 0 <= i < |Place(run, x)| ==> Place(run, x)[i].value >= floor
  {
    if run != [] && run[|run| - 1].value < x.value {
      PlaceAbove(run[..|run| - 1], x, floor);
    }
  }

  lemma {:induction false} PlaceDescends(run: seq<ExtMove>, x: ExtMove)
    requires Descending(run)
    ensures Descending(Place(run, x))
  {
    if run != [] && run[|run| - 1].value < x.value {
      var rest, last := run[..|run| - 1], run[|run| - 1];
      PlaceDescends(rest, x);
      PlaceAbove(rest, x, last.value);
    }
  }

  // ----- what stability means -----

  /** The entries worth v, in the order they stand in s. */
  ghost function Of(s: seq<ExtMove>, v: int): seq<ExtMove> {
    if s == [] then [] else
      var last := s[|s| - 1];
      Of(s[..|s| - 1], v) + (if last.value == v then [last] else [])
  }

  ghost predicate SameOf(r: seq<ExtMove>, s: seq<ExtMove>) {
    forall v :: Of(r, v) == Of(s, v)
  }

  /** r is s put in descending order, equals keeping the order they had. */
  ghost predicate StableDescent(r: seq<ExtMove>, s: seq<ExtMove>) {
    Descending(r) && multiset(r) == multiset(s) && SameOf(r, s)
  }

  lemma {:induction false} OfAppend(s: seq<ExtMove>, t: seq<ExtMove>, v: int)
    ensures Of(s + t, v) == Of(s, v) + Of(t, v)
  {
    if t == [] {
      assert s + t == s;
    } else {
      OfAppend(s, t[..|t| - 1], v);
      assert (s + t)[..|s + t| - 1] == s + t[..|t| - 1];
    }
  }

  lemma OfSplit(s: seq<ExtMove>, k: nat, v: int)
    requires k <= |s|
    ensures Of(s, v) == Of(s[..k], v) + Of(s[k..], v)
  {
    hide Of;
    assert s == s[..k] + s[k..];
    OfAppend(s[..k], s[k..], v);
  }

  lemma {:induction false} OfNone(s: seq<ExtMove>, v: int)
    requires forall i :: 0 <= i < |s| ==> s[i].value != v
    ensures Of(s, v) == []
  {
    if s != [] {
      OfNone(s[..|s| - 1], v);
    }
  }

  lemma {:induction false} OfMember(s: seq<ExtMove>, v: int)
    requires Of(s, v) != []
    ensures exists i :: 0 <= i < |s| && s[i].value == v
  {
    if forall i :: 0 <= i < |s| ==> s[i].value != v {
      OfNone(s, v);
    }
  }

  lemma OfShorter(r: seq<ExtMove>, q: seq<ExtMove>)
    requires r != [] && q != [] && r[|r| - 1] == q[|q| - 1] && SameOf(r, q)
    ensures SameOf(r[..|r| - 1], q[..|q| - 1])
  {
    var last := r[|r| - 1];
    var front, back := r[..|r| - 1], q[..|q| - 1];
    forall v ensures Of(front, v) == Of(back, v) {
      var tail := if last.value == v then [last] else [];
      assert Of(r, v) == Of(front, v) + tail;
      assert Of(q, v) == Of(back, v) + tail;
      hide Of;
      SameFront(Of(front, v), Of(back, v), tail);
    }
  }

  lemma OfLast(s: seq<ExtMove>)
    requires s != []
    ensures Of(s, s[|s| - 1].value) != []
    ensures Of(s, s[|s| - 1].value)[|Of(s, s[|s| - 1].value)| - 1] == s[|s| - 1]
  {
  }

  lemma SameFront(s: seq<ExtMove>, t: seq<ExtMove>, tail: seq<ExtMove>)
    requires s + tail == t + tail
    ensures s == t
  {
    assert s == (s + tail)[..|s + tail| - |tail|] == t;
  }

  /** There is only one such arrangement. */
  lemma {:induction false} StableDescentUnique(r: seq<ExtMove>, q: seq<ExtMove>)
    requires Descending(r) && Descending(q) && SameOf(r, q)
    ensures r == q
  {
    if r != [] {
      OfLast(r);
    }
    if q != [] {
      OfLast(q);
    }
    if r != [] && q != [] {
      var x, y := r[|r| - 1], q[|q| - 1];
      assert Of(r, x.value) == Of(q, x.value) && Of(r, y.value) == Of(q, y.value);
      OfMember(q, x.value);
      OfMember(r, y.value);
      assert x.value == y.value;
      OfShorter(r, q);
      StableDescentUnique(r[..|r| - 1], q[..|q| - 1]);
    }
  }

  /** Placing x passes only entries worth less, so no two equals change places. */
  lemma {:induction false} PlaceStable(run: seq<ExtMove>, x: ExtMove, v: int)
    ensures Of(Place(run, x), v) == Of(run + [x], v)
  {
    if run != [] && run[|run| - 1].value < x.value {
      var rest, last := run[..|run| - 1], run[|run| - 1];
      PlaceStable(rest, x, v);
      OfAppend(Place(rest, x), [last], v);
      OfAppend(rest, [x], v);
      OfAppend(run, [x], v);
    }
  }

  // ----- sort_all -----

  /** The first n entries sorted, the rest untouched. */
  function SortedUpTo(s: seq<ExtMove>, n: nat): (r: seq<ExtMove>)
    requires n <= |s|
    ensures |r| == |s| && r[n..] == s[n..]
  {
    if n == 0 then s else
      var t := SortedUpTo(s, n - 1);
      assert t[n..] == t[n - 1..][1..] && s[n..] == s[n - 1..][1..];
      Place(t[..n - 1], t[n - 1]) + t[n..]
  }

  function Sorted(s: seq<ExtMove>): seq<ExtMove> {
    SortedUpTo(s, |s|)
  }

  lemma {:induction false} SortedUpToRight(s: seq<ExtMove>, n: nat)
    requires n <= |s|
    ensures Descending(SortedUpTo(s, n)[..n]) && multiset(SortedUpTo(s, n)) == multiset(s)
  {
    if n > 0 {
      SortedUpToRight(s, n - 1);
      var t := SortedUpTo(s, n - 1);
      var placed := Place(t[..n - 1], t[n - 1]);
      PlaceDescends(t[..n - 1], t[n - 1]);
      PlaceKeeps(t[..n - 1], t[n - 1]);
      assert SortedUpTo(s, n)[..n] == placed;
      TakenOut(t, n - 1);
      hide Descending, Place;
    }
  }

  lemma TakenOut(t: seq<ExtMove>, k: nat)
    requires k < |t|
    ensures multiset(t) == multiset(t[..k]) + multiset{t[k]} + multiset(t[k + 1..])
  {
    assert t == t[..k] + [t[k]] + t[k + 1..];
  }

  lemma PlacedStable(t: seq<ExtMove>, k: nat, v: int)
    requires k < |t|
    ensures Of(Place(t[..k], t[k]) + t[k + 1..], v) == Of(t, v)
  {
    hide *;
    assert t[..k] + [t[k]] == t[..k + 1];
    OfSplit(t, k + 1, v);
    PlaceStable(t[..k], t[k], v);
    OfAppend(Place(t[..k], t[k]), t[k + 1..], v);
  }

  lemma {:induction false} SortedUpToStable(s: seq<ExtMove>, n: nat, v: int)
    requires n <= |s|
    ensures Of(SortedUpTo(s, n), v) == Of(s, v)
  {
    if n > 0 {
      SortedUpToStable(s, n - 1, v);
      var t := SortedUpTo(s, n - 1);
      hide Of, Place;
      PlacedStable(t, n - 1, v);
    }
  }

  lemma SortedRight(s: seq<ExtMove>)
    ensures StableDescent(Sorted(s), s) && |Sorted(s)| == |s|
  {
    SortedUpToRight(s, |s|);
    assert SortedUpTo(s, |s|)[..|s|] == SortedUpTo(s, |s|);
    forall v ensures Of(Sorted(s), v) == Of(s, v) {
      SortedUpToStable(s, |s|, v);
    }
  }

  // ----- partial_insertion_sort -----

  /** The list after the first n entries have been scanned, and the index its sorted run ends at. */
  datatype Scan = Scan(list: seq<ExtMove>, end: nat)

  /** The turn at entry n: worth the limit, it joins the run and leaves its slot to the entry
      behind the run. */
  function ScanTurn(before: Scan, limit: int, n: nat): (r: Scan)
    requires before.end < n < |before.list|
    ensures |r.list| == |before.list| && r.end <= n && r.list[n + 1..] == before.list[n + 1..]
  {
    var t, end := before.list, before.end + 1;
    if t[n].value >= limit then
      var moved := t[n := t[end]];
      assert moved[n + 1..] == t[n + 1..];
      Scan(Place(moved[..end], t[n]) + moved[end + 1..], end)
    else before
  }

  function Scanned(s: seq<ExtMove>, limit: int, n: nat): (r: Scan)
    requires 1 <= n <= |s|
    ensures |r.list| == |s| && r.end < n && r.list[n..] == s[n..]
  {
    if n == 1 then Scan(s, 0) else
      var before := Scanned(s, limit, n - 1);
      assert before.list[n..] == before.list[n - 1..][1..] && s[n..] == s[n - 1..][1..];
      ScanTurn(before, limit, n - 1)
  }

  function PartlySorted(s: seq<ExtMove>, limit: int): seq<ExtMove> {
    if s == [] then [] else Scanned(s, limit, |s|).list
  }

  /** Nothing is lost, the run is in order, and everything scanned and left out of it is below
      the limit. */
  lemma {:induction false} ScannedRight(s: seq<ExtMove>, limit: int, n: nat)
    requires 1 <= n <= |s|
    ensures var r := Scanned(s, limit, n);
            && r.end + 1 <= |s| && multiset(r.list) == multiset(s) && Descending(r.list[..r.end + 1])
            && forall i :: r.end < i < n ==> r.list[i].value < limit
  {
    if n > 1 {
      ScannedRight(s, limit, n - 1);
      ScannedStep(s, limit, n - 1);
      var before := Scanned(s, limit, n - 1);
      hide Scanned, Place, Descending;
      if before.list[n - 1].value >= limit {
        ScanStep(before.list, before.end + 1, n, limit);
      }
    }
  }

  /** One qualifying entry joins the run. */
  lemma ScanStep(t: seq<ExtMove>, end: nat, n: nat, limit: int)
    requires 1 <= end < n <= |t| && Descending(t[..end]) && t[n - 1].value >= limit
    requires forall i :: end <= i < n - 1 ==> t[i].value < limit
    ensures var moved := t[n - 1 := t[end]];
            var r := Place(moved[..end], t[n - 1]) + moved[end + 1..];
            && multiset(r) == multiset(t) && Descending(r[..end + 1])
            && forall i :: end < i < n ==> r[i].value < limit
  {
    hide *;
    var x := t[n - 1];
    var moved := t[n - 1 := t[end]];
    MovedSlices(t, end, n);
    PlaceDescends(moved[..end], x);
    PlaceKeeps(moved[..end], x);
    MovedAside(t, n - 1, end);
    RunAndRest(Place(moved[..end], x), moved, end + 1);
  }

  lemma RunAndRest(run: seq<ExtMove>, s: seq<ExtMove>, k: nat)
    requires |run| == k <= |s|
    ensures var r := run + s[k..];
            r[..k] == run && multiset(r) == multiset(run) + multiset(s[k..]) && forall i :: k <= i < |s| ==>
              r[i] == s[i]
  {
  }

  /** The list around a qualifying entry, before and after the slot behind the run moves. */
  lemma MovedSlices(t: seq<ExtMove>, end: nat, n: nat)
    requires end < n <= |t|
    ensures var moved := t[n - 1 := t[end]];
            && t == t[..end] + (t[end..n - 1] + ([t[n - 1]] + t[n..]))
            && moved[..end] == t[..end] && moved[end + 1..] == moved[end + 1..n] + t[n..]
            && forall i :: end < i < n ==> moved[i] == t[if i == n - 1 then end else i]
  {
    assert t[end..] == t[end..n - 1] + ([t[n - 1]] + t[n..]);
    assert t == t[..end] + t[end..];
  }

  lemma OfAround(front: seq<ExtMove>, low: seq<ExtMove>, low': seq<ExtMove>, x: ExtMove, back: seq<ExtMove>, v: int)
    requires forall i :: 0 <= i < |low| ==> low[i].value != v
    requires forall i :: 0 <= i < |low'| ==> low'[i].value != v
    ensures Of(Place(front, x) + (low' + back), v) == Of(front + (low + ([x] + back)), v)
  {
    hide *;
    OfNone(low, v);
    OfNone(low', v);
    PlaceStable(front, x, v);
    OfAppend(Place(front, x), low' + back, v);
    OfAppend(low', back, v);
    OfAppend(front, [x], v);
    OfAppend([x], back, v);
    OfAppend(low, [x] + back, v);
    OfAppend(front, low + ([x] + back), v);
  }

  /** The entry swapped away is below the limit: equals at or above it keep their order. */
  lemma ScanStable(t: seq<ExtMove>, end: nat, n: nat, limit: int, v: int)
    requires 1 <= end < n <= |t| && v >= limit
    requires forall i :: end <= i < n - 1 ==> t[i].value < limit
    ensures var moved := t[n - 1 := t[end]];
            Of(Place(moved[..end], t[n - 1]) + moved[end + 1..], v) == Of(t, v)
  {
    hide *;
    MovedSlices(t, end, n);
    OfAround(t[..end], t[end..n - 1], t[n - 1 := t[end]][end + 1..n], t[n - 1], t[n..], v);
  }

  lemma {:induction false} ScannedStable(s: seq<ExtMove>, limit: int, n: nat, v: int)
    requires 1 <= n <= |s| && v >= limit
    ensures Of(Scanned(s, limit, n).list, v) == Of(s, v)
  {
    hide *;
    ScannedEnds(s, limit);
    if n > 1 {
      ScannedStable(s, limit, n - 1, v);
      ScannedRight(s, limit, n - 1);
      ScannedStep(s, limit, n - 1);
      var before := Scanned(s, limit, n - 1);
      if before.list[n - 1].value >= limit {
        ScanStable(before.list, before.end + 1, n, limit, v);
      }
    }
  }

  lemma MovedAside(t: seq<ExtMove>, k: nat, end: nat)
    requires end <= k < |t|
    ensures var moved := t[k := t[end]];
            multiset(t) == multiset(moved[..end]) + multiset{t[k]} + multiset(moved[end + 1..])
  {
    var moved := t[k := t[end]];
    TakenOut(moved, end);
    assert multiset(moved) == multiset(t) - multiset{t[k]} + multiset{t[end]};
    assert moved[end] == t[end];
  }

  lemma PartlySortedRight(s: seq<ExtMove>, limit: int)
    ensures StableRun(PartlySorted(s, limit), s, limit) && |PartlySorted(s, limit)| == |s|
  {
    if s == [] {
      assert RunOf([], limit, 0);
    } else {
      ScannedRight(s, limit, |s|);
      var r := Scanned(s, limit, |s|);
      assert RunOf(r.list, limit, r.end + 1);
      forall v | v >= limit ensures Of(r.list, v) == Of(s, v) {
        ScannedStable(s, limit, |s|, v);
      }
    }
  }

  /** The first `end` entries descend; everything behind them is below the limit. */
  ghost predicate RunOf(s: seq<ExtMove>, limit: int, end: int) {
    && 0 <= end <= |s| && Descending(s[..end])
    && forall i :: end <= i < |s| ==> s[i].value < limit
  }

  /** r is s with everything at or above the limit in front, descending, equals among it keeping
      the order they had. */
  ghost predicate StableRun(r: seq<ExtMove>, s: seq<ExtMove>, limit: int) {
    && multiset(r) == multiset(s)
    && (exists end :: RunOf(r, limit, end))
    && (forall v :: v >= limit ==> Of(r, v) == Of(s, v))
  }

  /** Under a limit nothing fails, the two sorts agree: what lets sort_all drop the test. */
  lemma {:induction false} SortsAgree(s: seq<ExtMove>, limit: int, n: nat)
    requires 1 <= n <= |s| && forall i :: 0 <= i < |s| ==> s[i].value >= limit
    ensures Scanned(s, limit, n) == Scan(SortedUpTo(s, n), n - 1)
  {
    hide *;
    SortedStart(s);
    if n == 1 {
      ScannedEnds(s, limit);
    } else {
      SortsAgree(s, limit, n - 1);
      var t := SortedUpTo(s, n - 1);
      SortedStep(s, n - 1);
      ScannedStep(s, limit, n - 1);
      assert t[n - 1..] == s[n - 1..];
      assert t[n - 1] == t[n - 1..][0] == s[n - 1];
      assert t[n - 1 := t[n - 1]] == t;
    }
  }

  lemma SortedStart(s: seq<ExtMove>)
    requires s != []
    ensures SortedUpTo(s, 0) == s && SortedUpTo(s, 1) == s
  {
    assert SortedUpTo(s, 1) == [] + [s[0]] + s[1..];
  }

  // ----- the loops -----

  /** base with the entries from lo replaced by mid. */
  function Splice(base: seq<ExtMove>, lo: nat, mid: seq<ExtMove>): (r: seq<ExtMove>)
    requires lo + |mid| <= |base|
    ensures |r| == |base| && r[lo..lo + |mid|] == mid
    ensures forall i :: 0 <= i < |base| && !(lo <= i < lo + |mid|) ==> r[i] == base[i]
  {
    base[..lo] + mid + base[lo + |mid|..]
  }

  lemma SpliceTwice(base: seq<ExtMove>, lo: nat, t: seq<ExtMove>, head: seq<ExtMove>)
    requires lo + |t| <= |base| && |head| <= |t|
    ensures Splice(Splice(base, lo, t), lo, head) == Splice(base, lo, head + t[|head|..])
  {
  }

  lemma SpliceAt(base: seq<ExtMove>, lo: nat, t: seq<ExtMove>, k: nat, x: ExtMove)
    requires lo + |t| <= |base| && k < |t|
    ensures Splice(base, lo, t)[lo + k] == t[k] && Splice(base, lo, t)[lo..lo + k] == t[..k]
    ensures Splice(base, lo, t)[lo + k := x] == Splice(base, lo, t[k := x])
  {
    assert Splice(base, lo, t)[lo..lo + |t|][k] == t[k];
    assert Splice(base, lo, t)[lo..lo + k] == Splice(base, lo, t)[lo..lo + |t|][..k];
  }

  lemma SpliceSame(base: seq<ExtMove>, lo: nat, count: nat)
    requires lo + count <= |base|
    ensures Splice(base, lo, base[lo..lo + count]) == base
  {
  }

  /** The inner ladder: x, taken from slot `at`, is sifted left into the run below it. */
  method Ladder(a: array<ExtMove>, lo: nat, at: nat, x: ExtMove)
    requires lo + at < a.Length
    modifies a
    ensures a[..] == Splice(old(a[..]), lo, Place(old(a[..])[lo..lo + at], x))
  {
    hide *;
    var insertAt := at;
    ghost var base := a[..];
    ghost var run := base[lo..lo + at];
    assert run[..at] == run && run[at..] == [];
    ShiftedNone(base, lo, at);
    while insertAt != 0 && a[lo + insertAt - 1].value < x.value
      invariant 0 <= insertAt <= at
      invariant Place(run, x) == Place(run[..insertAt], x) + run[insertAt..]
      invariant Shifted(a[..], base, lo, at, insertAt)
    {
      ShiftedOne(a[..], base, lo, at, insertAt);
      PlaceFurther(run, insertAt, x);
      a[lo + insertAt] := a[lo + insertAt - 1];
      insertAt := insertAt - 1;
    }
    ShiftedPlace(a[..], base, lo, at, insertAt, x);
    a[lo + insertAt] := x;
    PlaceHere(run, insertAt, x);
  }

  /** Of the run of `at` entries from lo, those from place k on have moved up by one. */
  ghost predicate Shifted(now: seq<ExtMove>, base: seq<ExtMove>, lo: nat, at: nat, k: int) {
    && |now| == |base| && lo + at < |base| && 0 <= k <= at
    && (forall i :: 0 <= i < lo + k || lo + at < i < |base| ==> now[i] == base[i])
    && (forall i :: lo + k < i <= lo + at ==> now[i] == base[i - 1])
  }

  lemma ShiftedNone(base: seq<ExtMove>, lo: nat, at: nat)
    requires lo + at < |base|
    ensures Shifted(base, base, lo, at, at)
  {
  }

  lemma ShiftedOne(now: seq<ExtMove>, base: seq<ExtMove>, lo: nat, at: nat, k: nat)
    requires Shifted(now, base, lo, at, k)
    ensures k > 0 ==> && now[lo + k - 1] == base[lo..lo + at][k - 1]
                      && Shifted(now[lo + k := now[lo + k - 1]], base, lo, at, k - 1)
  {
  }

  lemma ShiftedPlace(now: seq<ExtMove>, base: seq<ExtMove>, lo: nat, at: nat, k: nat, x: ExtMove)
    requires Shifted(now, base, lo, at, k)
    ensures var run := base[lo..lo + at];
            && now[lo + k := x] == Splice(base, lo, run[..k] + [x] + run[k..])
            && (k > 0 ==> now[lo + k - 1] == run[k - 1])
  {
    SpliceShifted(base, lo, at, k, x, now[lo + k := x]);
  }

  lemma SpliceIs(base: seq<ExtMove>, lo: nat, mid: seq<ExtMove>, r: seq<ExtMove>)
    requires lo + |mid| <= |base| && |r| == |base|
    requires forall i :: 0 <= i < |base| ==> r[i] == if lo <= i < lo + |mid| then mid[i - lo] else base[i]
    ensures r == Splice(base, lo, mid)
  {
  }

  /** x stands at place k of the run, what it passed has moved up by one. */
  lemma SpliceShifted(base: seq<ExtMove>, lo: nat, at: nat, k: nat, x: ExtMove, r: seq<ExtMove>)
    requires k <= at && lo + at < |base| == |r| && r[lo + k] == x
    requires forall i :: 0 <= i < lo + k || lo + at < i < |r| ==> r[i] == base[i]
    requires forall i :: lo + k < i <= lo + at ==> r[i] == base[i - 1]
    ensures var run := base[lo..lo + at]; r == Splice(base, lo, run[..k] + [x] + run[k..])
  {
    hide *;
    var run := base[lo..lo + at];
    var mid := run[..k] + [x] + run[k..];
    assert forall i :: 0 <= i < k ==> mid[i] == run[i];
    assert forall i :: k < i <= at ==> mid[i] == run[i - 1];
    SpliceIs(base, lo, mid, r);
  }

  /** The search passes one more entry. */
  lemma PlaceFurther(run: seq<ExtMove>, k: nat, x: ExtMove)
    requires 0 < k <= |run| && run[k - 1].value < x.value
    ensures Place(run[..k], x) + run[k..] == Place(run[..k - 1], x) + run[k - 1..]
  {
    assert run[..k][..k - 1] == run[..k - 1];
    assert run[k - 1..] == [run[k - 1]] + run[k..];
  }

  /** The search stops. */
  lemma PlaceHere(run: seq<ExtMove>, k: nat, x: ExtMove)
    requires k <= |run| && (k == 0 || run[k - 1].value >= x.value)
    ensures Place(run[..k], x) == run[..k] + [x]
  {
  }

  /** One turn of the scan: the ladder takes the entry at `scan` into the run before it. */
  method SortOne(a: array<ExtMove>, lo: nat, scan: nat, ghost base: seq<ExtMove>, ghost s: seq<ExtMove>)
    requires scan < |s| && lo + |s| <= |base| && a[..] == Splice(base, lo, SortedUpTo(s, scan))
    modifies a
    ensures a[..] == Splice(base, lo, SortedUpTo(s, scan + 1))
  {
    hide *;
    ghost var t := SortedUpTo(s, scan);
    SliceFacts(a, base, lo, t);
    SpliceAt(base, lo, t, scan, t[0]);
    var current := a[lo + scan];
    Ladder(a, lo, scan, current);
    SpliceTwice(base, lo, t, Place(t[..scan], current));
    SortedStep(s, scan);
  }

  lemma SliceFacts(a: array<ExtMove>, base: seq<ExtMove>, lo: nat, t: seq<ExtMove>)
    requires lo + |t| <= |base| && a[..] == Splice(base, lo, t)
    ensures a.Length == |base| && forall k :: lo <= k < lo + |t| ==> a[k] == t[k - lo]
  {
    hide *;
    assert a.Length == |a[..]| == |base|;
    forall k | lo <= k < lo + |t| ensures a[k] == t[k - lo] {
      SpliceAt(base, lo, t, k - lo, t[k - lo]);
      assert a[k] == a[..][k];
    }
  }

  /** sort_all, on count entries from lo. */
  method SortAll(a: array<ExtMove>, lo: nat, count: nat)
    requires lo + count <= a.Length
    modifies a
    ensures a[..] == Splice(old(a[..]), lo, Sorted(old(a[..])[lo..lo + count]))
    ensures StableDescent(a[..][lo..lo + count], old(a[..])[lo..lo + count])
  {
    ghost var base := a[..];
    ghost var s := base[lo..lo + count];
    hide *;
    SpliceSame(base, lo, count);
    SortedSlice(base, lo, count);
    SortedAll(s);
    if count != 0 {
      SortedStart(s);
      var scan := 1;
      while scan < count
        invariant 1 <= scan <= count
        invariant a[..] == Splice(base, lo, SortedUpTo(s, scan))
      {
        SortOne(a, lo, scan, base, s);
        scan := scan + 1;
      }
    }
  }

  lemma SortedSlice(base: seq<ExtMove>, lo: nat, count: nat)
    requires lo + count <= |base|
    ensures var s := base[lo..lo + count];
            |Sorted(s)| == count && StableDescent(Splice(base, lo, Sorted(s))[lo..lo + count], s)
  {
    hide *;
    SortedRight(base[lo..lo + count]);
  }

  lemma SortedAll(s: seq<ExtMove>)
    ensures Sorted(s) == SortedUpTo(s, |s|) && (s == [] ==> Sorted(s) == s)
  {
  }

  lemma SortedStep(s: seq<ExtMove>, n: nat)
    requires n < |s|
    ensures var t := SortedUpTo(s, n); SortedUpTo(s, n + 1) == Place(t[..n], t[n]) + t[n + 1..]
  {
  }

  lemma ScannedStep(s: seq<ExtMove>, limit: int, n: nat)
    requires 1 <= n < |s|
    ensures var t, end := Scanned(s, limit, n).list, Scanned(s, limit, n).end + 1;
            var moved := t[n := t[end]];
            Scanned(s, limit, n + 1) ==
            if t[n].value >= limit then Scan(Place(moved[..end], t[n]) + moved[end + 1..], end)
              else Scanned(s, limit, n)
  {
    ScannedTurn(s, limit, n);
    hide Scanned, Place;
  }

  lemma ScannedTurn(s: seq<ExtMove>, limit: int, n: nat)
    requires 1 <= n < |s|
    ensures Scanned(s, limit, n + 1) == ScanTurn(Scanned(s, limit, n), limit, n)
  {
    hide ScanTurn;
    var m := n + 1;
    assert m - 1 == n && m > 1;
  }

  /** One turn of the scan: an entry at or above the limit leaves its slot to the one behind the
      run, and the ladder takes it in. */
  method ScanOne(a: array<ExtMove>, lo: nat, limit: int, scan: nat, end: nat, ghost base: seq<ExtMove>,
                 ghost s: seq<ExtMove>) returns (newEnd: nat)
    requires 1 <= scan < |s| && lo + |s| <= |base| && end == Scanned(s, limit, scan).end
    requires a[..] == Splice(base, lo, Scanned(s, limit, scan).list)
    modifies a
    ensures newEnd == Scanned(s, limit, scan + 1).end
    ensures a[..] == Splice(base, lo, Scanned(s, limit, scan + 1).list)
  {
    hide *;
    ghost var t := Scanned(s, limit, scan).list;
    ScannedStep(s, limit, scan);
    SliceFacts(a, base, lo, t);
    newEnd := end;
    if a[lo + scan].value >= limit {
      newEnd := end + 1;
      Admit(a, lo, newEnd, scan, base, t);
    }
  }

  /** One qualifying entry: the slot behind the run moves to where it stood, and the ladder
      takes it into the run. */
  method Admit(a: array<ExtMove>, lo: nat, end: nat, scan: nat, ghost base: seq<ExtMove>, ghost t: seq<ExtMove>)
    requires 1 <= end <= scan < |t| && lo + |t| <= |base| && a[..] == Splice(base, lo, t)
    modifies a
    ensures var moved := t[scan := t[end]];
            a[..] == Splice(base, lo, Place(moved[..end], t[scan]) + moved[end + 1..])
  {
    hide *;
    SliceFacts(a, base, lo, t);
    SpliceAt(base, lo, t, scan, t[end]);
    var current := a[lo + scan];
    a[lo + scan] := a[lo + end];
    ghost var moved := t[scan := t[end]];
    assert a[..] == Splice(base, lo, moved);
    SpliceAt(base, lo, moved, end, t[0]);
    Ladder(a, lo, end, current);
    SpliceTwice(base, lo, moved, Place(moved[..end], current));
  }

  /** partial_insertion_sort, on count entries from lo. */
  method PartialInsertionSort(a: array<ExtMove>, lo: nat, count: nat, limit: int)
    requires lo + count <= a.Length
    modifies a
    ensures a[..] == Splice(old(a[..]), lo, PartlySorted(old(a[..])[lo..lo + count], limit))
    ensures StableRun(a[..][lo..lo + count], old(a[..])[lo..lo + count], limit)
  {
    ghost var base := a[..];
    ghost var s := base[lo..lo + count];
    hide *;
    SpliceSame(base, lo, count);
    PartlySlice(base, lo, count, limit);
    ScannedEnds(s, limit);
    if count != 0 {
      var sortedEnd := 0;
      var scan := 1;
      while scan < count
        invariant 1 <= scan <= count && sortedEnd == Scanned(s, limit, scan).end
        invariant a[..] == Splice(base, lo, Scanned(s, limit, scan).list)
      {
        sortedEnd := ScanOne(a, lo, limit, scan, sortedEnd, base, s);
        scan := scan + 1;
      }
    }
  }

  lemma PartlySlice(base: seq<ExtMove>, lo: nat, count: nat, limit: int)
    requires lo + count <= |base|
    ensures var s := base[lo..lo + count];
            && |PartlySorted(s, limit)| == count
            && StableRun(Splice(base, lo, PartlySorted(s, limit))[lo..lo + count], s, limit)
  {
    hide *;
    PartlySortedRight(base[lo..lo + count], limit);
  }

  lemma ScannedEnds(s: seq<ExtMove>, limit: int)
    ensures s == [] ==> PartlySorted(s, limit) == s
    ensures s != [] ==> Scanned(s, limit, 1) == Scan(s, 0) && PartlySorted(s, limit) == Scanned(s, limit, |s|).list
  {
  }
}
