/** The order moves come in, call by call, said of the moves alone: by what see_ge answers of them,
    how they score and where they stand in the generator's lists. */
module PickOrder {
  import opened Types
  import opened Sorting
  import opened MoveGen
  import opened MovePick

  // ----- which move may come before which -----

  /** The list that holds m. */
  function HomeList(setup: Setup, m: Move): seq<Move> {
    if setup.firstStage == EvasionStage then setup.evasions
    else if m in setup.captures then setup.captures else setup.quiets
  }

  function ScoreOf(setup: Setup, m: Move): int {
    if setup.firstStage == EvasionStage then setup.score(EvasionList, m)
    else if m in setup.captures then setup.score(CaptureList, m) else setup.score(QuietList, m)
  }

  /** A capture that does not lose more than an eighteenth of its score allows. */
  predicate Survives(setup: Setup, m: Move) {
    var score := setup.score(CaptureList, m);
    setup.seeGe(m, if score > 0 then -(score / 18) else -score / 18)
  }

  /** The part of a whole run m belongs to: the TT move, the captures that survive, the good quiets,
      the captures that do not, the other quiets. The other pickers have one list. */
  function Part(setup: Setup, m: Move): nat {
    if setup.tt == Some(m) then 0
    else if setup.firstStage != GoodCaptureStage then 1
    else if m in setup.captures then (if Survives(setup, m) then 1 else 3)
    else if setup.score(QuietList, m) > -14000 then 2
    else 4
  }

  /** m stands before n in the list. */
  ghost predicate Earlier(list: seq<Move>, m: Move, n: Move) {
    exists i, j :: 0 <= i < j < |list| && list[i] == m && list[j] == n
  }

  ghost predicate Ahead(setup: Setup, m: Move, n: Move) {
    || ScoreOf(setup, m) > ScoreOf(setup, n)
    || (ScoreOf(setup, m) == ScoreOf(setup, n) && Earlier(HomeList(setup, n), m, n))
  }

  /** m may come before n: it belongs to an earlier part, or to the same one and scores higher, or as
      much and was generated before. Quiets below the sorting limit come as the sort left them. */
  ghost predicate Before(setup: Setup, m: Move, n: Move) {
    || Part(setup, m) < Part(setup, n)
    || (Part(setup, m) == Part(setup, n) != 0
        && (Ahead(setup, m, n) || (Part(setup, n) % 2 == 0 && ScoreOf(setup, n) < -3560 * setup.depth)))
  }

  ghost predicate InTurn(setup: Setup, s: seq<Move>) {
    forall i, j :: 0 <= i < j < |s| ==> Before(setup, s[i], s[j])
  }

  /** The moves the picker owes: a usable TT move, and of the others those its lists hold, under
      ProbCut those see_ge lets past the threshold. */
  predicate Due(setup: Setup, usable: bool, m: Move) {
    if setup.tt == Some(m) then usable
    else match setup.firstStage
      case GoodCaptureStage => m in setup.captures || m in setup.quiets
      case EvasionStage => m in setup.evasions
      case ProbCutStage => m in setup.captures && setup.seeGe(m, setup.threshold)
      case _ => m in setup.captures
  }

  /** No list holds a move twice. */
  predicate Different(list: seq<Move>) {
    forall i, j :: 0 <= i < j < |list| ==> list[i] != list[j]
  }

  // ----- sorted lists -----

  /** Entries in order of value, equals as they stand in the list; below the limit anything goes. */
  ghost predicate Lined(s: seq<ExtMove>, list: seq<Move>, limit: Option<int>) {
    forall i, j :: 0 <= i < j < |s| && (limit.None? || s[j].value >= limit.value) ==> Leads(s[i], s[j], list)
  }

  ghost predicate Leads(x: ExtMove, y: ExtMove, list: seq<Move>) {
    x.value > y.value || (x.value == y.value && Earlier(list, x.move, y.move))
  }

  ghost predicate Follow(s: seq<ExtMove>, x: ExtMove, y: ExtMove) {
    exists i, j :: 0 <= i < j < |s| && s[i] == x && s[j] == y
  }

  lemma {:induction false} OfFollow(s: seq<ExtMove>, i: nat, j: nat)
    requires i < j < |s| && s[i].value == s[j].value
    ensures Follow(Of(s, s[i].value), s[i], s[j])
  {
    var v, last := s[i].value, |s| - 1;
    var front := Of(s[..last], v);
    if j == last {
      OfHas(s[..last], i);
      var a :| 0 <= a < |front| && front[a] == s[i];
      assert Of(s, v) == front + [s[j]];
      assert Of(s, v)[a] == s[i] && Of(s, v)[|front|] == s[j];
    } else {
      OfFollow(s[..last], i, j);
      var a, b :| 0 <= a < b < |front| && front[a] == s[i] && front[b] == s[j];
      assert Of(s, v)[a] == s[i] && Of(s, v)[b] == s[j];
    }
  }

  lemma {:induction false} OfHas(s: seq<ExtMove>, i: nat)
    requires i < |s|
    ensures s[i] in Of(s, s[i].value)
  {
    var last := |s| - 1;
    if i < last {
      OfHas(s[..last], i);
    }
  }

  lemma {:induction false} FollowOf(s: seq<ExtMove>, v: int, x: ExtMove, y: ExtMove)
    requires Follow(Of(s, v), x, y)
    ensures Follow(s, x, y)
  {
    var of := Of(s, v);
    var a, b :| 0 <= a < b < |of| && of[a] == x && of[b] == y;
    var last := |s| - 1;
    var front := Of(s[..last], v);
    if b < |front| {
      assert front[a] == x && front[b] == y;
      FollowOf(s[..last], v, x, y);
      var i, j :| 0 <= i < j < last && s[..last][i] == x && s[..last][j] == y;
      assert s[i] == x && s[j] == y;
    } else {
      assert front[a] == x;
      InOf(s[..last], v, x);
      var i :| 0 <= i < last && s[..last][i] == x;
      assert s[i] == x && s[last] == y;
    }
  }

  lemma {:induction false} InOf(s: seq<ExtMove>, v: int, x: ExtMove)
    requires x in Of(s, v)
    ensures x in s && x.value == v
  {
    var last := |s| - 1;
    if x in Of(s[..last], v) {
      InOf(s[..last], v, x);
    }
  }

  lemma FollowWords(setup: Setup, kind: ListKind, x: ExtMove, y: ExtMove)
    requires Follow(Scored(setup, kind), x, y)
    ensures Earlier(ListOf(setup, kind), x.move, y.move)
  {
    var s := Scored(setup, kind);
    var i, j :| 0 <= i < j < |s| && s[i] == x && s[j] == y;
    assert ListOf(setup, kind)[i] == x.move && ListOf(setup, kind)[j] == y.move;
  }

  lemma SortedLined(setup: Setup, kind: ListKind)
    ensures Lined(Sorted(Scored(setup, kind)), ListOf(setup, kind), None)
  {
    var s := Scored(setup, kind);
    var r := Sorted(s);
    SortedRight(s);
    hide Scored, Sorted, Of;
    forall i, j | 0 <= i < j < |r|
      ensures Leads(r[i], r[j], ListOf(setup, kind))
    {
      if r[i].value == r[j].value {
        OfFollow(r, i, j);
        FollowOf(s, r[i].value, r[i], r[j]);
        FollowWords(setup, kind, r[i], r[j]);
      }
    }
  }

  lemma QuietsLined(setup: Setup)
    ensures Lined(SortedQuiets(setup), setup.quiets, Some(-3560 * setup.depth))
  {
    var s, limit := Scored(setup, QuietList), -3560 * setup.depth;
    var r := SortedQuiets(setup);
    PartlySortedRight(s, limit);
    hide Scored, PartlySorted, Of;
    var end :| RunOf(r, limit, end);
    forall i, j | 0 <= i < j < |r| && r[j].value >= limit
      ensures Leads(r[i], r[j], setup.quiets)
    {
      assert r[..end][i] == r[i] && r[..end][j] == r[j];
      if r[i].value == r[j].value {
        OfFollow(r, i, j);
        FollowOf(s, r[i].value, r[i], r[j]);
        FollowWords(setup, QuietList, r[i], r[j]);
      }
    }
  }

  /** An entry of a list as it stands in the buffer. */
  predicate Entered(setup: Setup, kind: ListKind, e: ExtMove) {
    e.move in ListOf(setup, kind) && e.value == setup.score(kind, e.move)
  }

  lemma EntriesEntered(setup: Setup, kind: ListKind, s: seq<ExtMove>)
    requires multiset(s) == multiset(Scored(setup, kind))
    ensures forall e :: e in s ==> Entered(setup, kind, e)
  {
    forall e | e in s
      ensures Entered(setup, kind, e)
    {
      assert e in multiset(Scored(setup, kind));
      assert e in Scored(setup, kind);
    }
  }

  /** What a sieve keeps was there, in the same order. */
  lemma {:induction false} KeepFollow(setup: Setup, sieve: Sieve, s: seq<ExtMove>)
    ensures forall e :: e in Keep(setup, sieve, s) ==> e in s && Passes(setup, sieve, e)
    ensures forall i, j :: 0 <= i < j < |Keep(setup, sieve, s)| ==>
              Follow(s, Keep(setup, sieve, s)[i], Keep(setup, sieve, s)[j])
  {
    hide Passes;
    if s != [] {
      var rest := Keep(setup, sieve, s[1..]);
      var kept := Keep(setup, sieve, s);
      KeepFollow(setup, sieve, s[1..]);
      assert kept == if Passes(setup, sieve, s[0]) then [s[0]] + rest else rest;
      hide Keep;
      forall i, j | 0 <= i < j < |kept|
        ensures Follow(s, kept[i], kept[j])
      {
        var d := |kept| - |rest|;
        if i < d {
          assert kept[j] == rest[j - d] && kept[j] in s[1..];
          var b :| 0 <= b < |s[1..]| && s[1..][b] == kept[j];
          assert s[0] == kept[i] && s[b + 1] == kept[j];
        } else {
          assert kept[i] == rest[i - d] && kept[j] == rest[j - d];
          var a, b :| 0 <= a < b < |s[1..]| && s[1..][a] == kept[i] && s[1..][b] == kept[j];
          assert s[a + 1] == kept[i] && s[b + 1] == kept[j];
        }
      }
    }
  }

  lemma KeepLined(setup: Setup, sieve: Sieve, s: seq<ExtMove>, list: seq<Move>, limit: Option<int>)
    requires Lined(s, list, limit)
    ensures Lined(Keep(setup, sieve, s), list, limit)
  {
    KeepFollow(setup, sieve, s);
    var kept := Keep(setup, sieve, s);
    hide Keep, Passes, Leads;
    forall i, j | 0 <= i < j < |kept| && (limit.None? || kept[j].value >= limit.value)
      ensures Leads(kept[i], kept[j], list)
    {
      var a, b :| 0 <= a < b < |s| && s[a] == kept[i] && s[b] == kept[j];
    }
  }

  // ----- a fresh picker's list is in turn -----

  /** Entries of part k, all from one list. */
  ghost predicate OfPart(setup: Setup, kind: ListKind, s: seq<ExtMove>, k: nat) {
    forall e :: e in s ==>
      && Part(setup, e.move) == k && ScoreOf(setup, e.move) == e.value && HomeList(setup, e.move) == ListOf(setup, kind)
  }

  lemma WordsInTurn(setup: Setup, kind: ListKind, s: seq<ExtMove>, k: nat, limit: Option<int>)
    requires k != 0 && OfPart(setup, kind, s, k) && Lined(s, ListOf(setup, kind), limit)
    requires limit.None? || (k % 2 == 0 && limit.value == -3560 * setup.depth)
    ensures InTurn(setup, Words(s)) && forall m :: m in Words(s) ==> Part(setup, m) == k
  {
    hide Part, ScoreOf, HomeList, ListOf;
    forall i, j | 0 <= i < j < |s|
      ensures Before(setup, s[i].move, s[j].move)
    {
      assert s[i] in s && s[j] in s;
    }
    forall m | m in Words(s)
      ensures Part(setup, m) == k
    {
      var i :| 0 <= i < |s| && Words(s)[i] == m;
      assert s[i] in s;
    }
  }

  lemma TurnsJoin(setup: Setup, s: seq<Move>, t: seq<Move>)
    requires InTurn(setup, s) && InTurn(setup, t)
    requires forall m, n :: m in s && n in t ==> Part(setup, m) < Part(setup, n)
    ensures InTurn(setup, s + t)
  {
    hide Part, Ahead;
    forall i, j | 0 <= i < j < |s + t|
      ensures Before(setup, (s + t)[i], (s + t)[j])
    {
      if j < |s| {
        assert Before(setup, s[i], s[j]);
      } else if i >= |s| {
        assert Before(setup, t[i - |s|], t[j - |s|]);
      }
    }
  }

  lemma QuietNotCapture(setup: Setup, m: Move)
    requires Distinct(setup) && m in setup.quiets
    ensures m !in setup.captures
  {
    assert Count(setup.captures, m) + Count(setup.quiets, m) <= 1;
    MemberCounts(setup.captures, m);
    MemberCounts(setup.quiets, m);
  }

  lemma MemberCounts(list: seq<Move>, m: Move)
    ensures m in list <==> Count(list, m) > 0
  {
    assert m in list <==> m in multiset(list);
  }

  /** What the sieves of the main picker keep belongs to the four parts. */
  lemma MainParts(setup: Setup, captures: seq<ExtMove>, quiets: seq<ExtMove>)
    requires Distinct(setup) && setup.firstStage == GoodCaptureStage
    requires forall e :: e in captures ==> Entered(setup, CaptureList, e)
    requires forall e :: e in quiets ==> Entered(setup, QuietList, e)
    ensures OfPart(setup, CaptureList, Keep(setup, GoodCapture, captures), 1)
    ensures OfPart(setup, QuietList, Keep(setup, GoodQuiet, quiets), 2)
    ensures OfPart(setup, CaptureList, Keep(setup, BadCapture, captures), 3)
    ensures OfPart(setup, QuietList, Keep(setup, BadQuiet, quiets), 4)
  {
    hide *;
    PartsKept();
    SievePart(setup, CaptureList, GoodCapture, captures);
    SievePart(setup, QuietList, GoodQuiet, quiets);
    SievePart(setup, CaptureList, BadCapture, captures);
    SievePart(setup, QuietList, BadQuiet, quiets);
  }

  function PartKept(sieve: Sieve): nat {
    match sieve
    case GoodCapture => 1
    case GoodQuiet => 2
    case BadCapture => 3
    case BadQuiet => 4
    case _ => 1
  }

  lemma PartsKept()
    ensures PartKept(GoodCapture) == 1 && PartKept(GoodQuiet) == 2 && PartKept(BadCapture) == 3 &&
            PartKept(BadQuiet) == 4
  {
  }

  lemma SievePart(setup: Setup, kind: ListKind, sieve: Sieve, s: seq<ExtMove>)
    requires Distinct(setup) && setup.firstStage == GoodCaptureStage
    requires forall e :: e in s ==> Entered(setup, kind, e)
    requires sieve == GoodCapture || sieve == BadCapture || sieve == GoodQuiet || sieve == BadQuiet
    requires kind == if sieve == GoodCapture || sieve == BadCapture then CaptureList else QuietList
    ensures OfPart(setup, kind, Keep(setup, sieve, s), PartKept(sieve))
  {
    KeepFollow(setup, sieve, s);
    if kind == QuietList {
      forall m | m in setup.quiets
        ensures m !in setup.captures
      {
        QuietNotCapture(setup, m);
      }
    }
    hide Keep, Follow, Distinct;
  }

  /** The four lists, each in turn, one after the other. */
  lemma MainInTurn(setup: Setup)
    requires Distinct(setup) && setup.firstStage == GoodCaptureStage
    ensures InTurn(setup, FirstAgenda(setup, false))
    ensures forall m :: m in FirstAgenda(setup, false) ==> Part(setup, m) > 0
  {
    hide *;
    var captures, quiets := Sorted(Scored(setup, CaptureList)), SortedQuiets(setup);
    MainShape(setup);
    ListsAre(setup);
    SortedLined(setup, CaptureList);
    QuietsLined(setup);
    EntriesEntered(setup, CaptureList, captures);
    EntriesEntered(setup, QuietList, quiets);
    MainParts(setup, captures, quiets);
    var limit := Some(-3560 * setup.depth);
    KeepLined(setup, GoodCapture, captures, setup.captures, None);
    KeepLined(setup, BadCapture, captures, setup.captures, None);
    KeepLined(setup, GoodQuiet, quiets, setup.quiets, limit);
    KeepLined(setup, BadQuiet, quiets, setup.quiets, limit);
    var good, bad := Keep(setup, GoodCapture, captures), Keep(setup, BadCapture, captures);
    var goodQ, badQ := Keep(setup, GoodQuiet, quiets), Keep(setup, BadQuiet, quiets);
    WordsInTurn(setup, CaptureList, good, 1, None);
    WordsInTurn(setup, QuietList, goodQ, 2, limit);
    WordsInTurn(setup, CaptureList, bad, 3, None);
    WordsInTurn(setup, QuietList, badQ, 4, limit);
    WordsJoin(bad, badQ);
    TurnsJoin(setup, Words(bad), Words(badQ));
    TurnsJoin(setup, Words(goodQ), Words(bad + badQ));
    TurnsJoin(setup, Words(good), Words(goodQ) + Words(bad + badQ));
  }

  lemma ListsAre(setup: Setup)
    ensures ListOf(setup, CaptureList) == setup.captures && ListOf(setup, QuietList) == setup.quiets
    ensures ListOf(setup, EvasionList) == setup.evasions
    ensures multiset(Sorted(Scored(setup, CaptureList))) == multiset(Scored(setup, CaptureList))
    ensures multiset(Sorted(Scored(setup, EvasionList))) == multiset(Scored(setup, EvasionList))
    ensures multiset(SortedQuiets(setup)) == multiset(Scored(setup, QuietList))
  {
    SortedRight(Scored(setup, CaptureList));
    SortedRight(Scored(setup, EvasionList));
    PartlySortedRight(Scored(setup, QuietList), -3560 * setup.depth);
    hide Scored, Sorted, PartlySorted, Of, RunOf, Descending;
  }

  /** The other pickers' one list. */
  lemma PlainInTurn(setup: Setup)
    requires Distinct(setup) && Pickable(setup) && setup.firstStage != GoodCaptureStage
    ensures InTurn(setup, FirstAgenda(setup, false))
    ensures forall m :: m in FirstAgenda(setup, false) ==> Part(setup, m) > 0
  {
    hide *;
    var kind := if setup.firstStage == EvasionStage then EvasionList else CaptureList;
    var sieve := if setup.firstStage == ProbCutStage then ProbCutMove else AnyMove;
    var s := Sorted(Scored(setup, kind));
    PlainShape(setup, kind, sieve);
    ListsAre(setup);
    SortedLined(setup, kind);
    EntriesEntered(setup, kind, s);
    KeepLined(setup, sieve, s, ListOf(setup, kind), None);
    PlainPart(setup, kind, sieve, s);
    WordsInTurn(setup, kind, Keep(setup, sieve, s), 1, None);
  }

  lemma PlainShape(setup: Setup, kind: ListKind, sieve: Sieve)
    requires Pickable(setup) && setup.firstStage != GoodCaptureStage
    requires kind == if setup.firstStage == EvasionStage then EvasionList else CaptureList
    requires sieve == if setup.firstStage == ProbCutStage then ProbCutMove else AnyMove
    ensures FirstAgenda(setup, false) == Words(Keep(setup, sieve, Sorted(Scored(setup, kind))))
  {
    hide Words, Keep, Sorted, Scored;
  }

  lemma PlainPart(setup: Setup, kind: ListKind, sieve: Sieve, s: seq<ExtMove>)
    requires Pickable(setup) && setup.firstStage != GoodCaptureStage
    requires kind == if setup.firstStage == EvasionStage then EvasionList else CaptureList
    requires forall e :: e in s ==> Entered(setup, kind, e)
    ensures OfPart(setup, kind, Keep(setup, sieve, s), 1)
  {
    KeepFollow(setup, sieve, s);
    hide Keep, Follow;
    assert forall e :: e in Keep(setup, sieve, s) ==> setup.tt != Some(e.move);
    hide Passes;
  }

  // ----- the moves a fresh picker lists -----

  /** Under ProbCut the captures that pass the threshold, each as often as it is listed. */
  lemma ProbCutCounts(setup: Setup, m: Move)
    requires setup.firstStage == ProbCutStage
    ensures Count(FirstAgenda(setup, false), m) ==
            if setup.tt != Some(m) && setup.seeGe(m, setup.threshold) then Count(setup.captures, m) else 0
  {
    SortedRight(Scored(setup, CaptureList));
    ScoredWords(setup, CaptureList);
    hide Words, Keep, Sorted, Scored, Count, Descending;
    WordsCount(Sorted(Scored(setup, CaptureList)), Scored(setup, CaptureList), m);
    ThresholdCounts(setup, Sorted(Scored(setup, CaptureList)), m);
  }

  lemma {:induction false} ThresholdCounts(setup: Setup, s: seq<ExtMove>, m: Move)
    ensures Count(Words(Keep(setup, ProbCutMove, s)), m) ==
            if setup.tt != Some(m) && setup.seeGe(m, setup.threshold) then Count(Words(s), m) else 0
  {
    if s != [] {
      ThresholdCounts(setup, s[1..], m);
      KeepHead(setup, ProbCutMove, s);
      assert Words(s) == [s[0].move] + Words(s[1..]);
      hide Keep, Words;
    }
  }

  /** What a fresh picker has to return. */
  function Opening(setup: Setup, usable: bool): seq<Move>
    requires usable ==> setup.tt.Some?
  {
    (if usable then [setup.tt.value] else []) + FirstAgenda(setup, false)
  }

  /** Exactly the moves due, each once. */
  lemma OpeningDue(setup: Setup, usable: bool, m: Move)
    requires Distinct(setup) && Pickable(setup) && (usable ==> setup.tt.Some?)
    ensures Count(Opening(setup, usable), m) == Bit(Due(setup, usable, m))
  {
    var first := if usable then [setup.tt.value] else [];
    JoinCounts(first, FirstAgenda(setup, false), m);
    assert Count(setup.captures, m) + Count(setup.quiets, m) <= 1 && Count(setup.evasions, m) <= 1;
    assert m in setup.captures <==> Count(setup.captures, m) == 1 by { MemberCounts(setup.captures, m); }
    assert m in setup.quiets <==> Count(setup.quiets, m) == 1 by { MemberCounts(setup.quiets, m); }
    assert m in setup.evasions <==> Count(setup.evasions, m) == 1 by { MemberCounts(setup.evasions, m); }
    hide FirstAgenda, Distinct;
    if setup.firstStage == GoodCaptureStage {
      MainCounts(setup, m);
    } else if setup.firstStage == ProbCutStage {
      ProbCutCounts(setup, m);
    } else {
      PlainCounts(setup, m);
    }
  }

  lemma OpeningInTurn(setup: Setup, usable: bool)
    requires Distinct(setup) && Pickable(setup) && (usable ==> setup.tt.Some?)
    ensures InTurn(setup, Opening(setup, usable))
  {
    hide FirstAgenda, Distinct, Pickable, Before;
    if setup.firstStage == GoodCaptureStage {
      MainInTurn(setup);
    } else {
      PlainInTurn(setup);
    }
    var first := if usable then [setup.tt.value] else [];
    if usable {
      TurnsJoin(setup, first, FirstAgenda(setup, false));
    } else {
      assert first + FirstAgenda(setup, false) == FirstAgenda(setup, false);
    }
  }

  // ----- call by call -----

  /** What each call of a run returns. */
  function Results(setup: Setup, agenda: seq<Move>, calls: seq<Call>): (r: seq<Option<Move>>)
    ensures |r| == |calls|
    decreases calls
  {
    if calls == [] then []
    else if calls[0] == SkipCall then [None] + Results(setup, AfterSkip(setup, agenda), calls[1..])
    else if agenda == [] then [None] + Results(setup, agenda, calls[1..])
    else [Some(agenda[0])] + Results(setup, agenda[1..], calls[1..])
  }

  /** Moves come in turn, each at most once. */
  ghost predicate ComeInTurn(setup: Setup, r: seq<Option<Move>>) {
    forall i, j :: 0 <= i < j < |r| && r[i].Some? && r[j].Some? ==>
      r[i] != r[j] && Before(setup, r[i].value, r[j].value)
  }

  /** After a skip the main picker returns nothing but captures and the TT move. */
  ghost predicate SkipHolds(setup: Setup, calls: seq<Call>, r: seq<Option<Move>>)
    requires |r| == |calls|
  {
    setup.firstStage == GoodCaptureStage ==>
      forall i, j :: 0 <= i < j < |r| && calls[i] == SkipCall && r[j].Some? ==>
        r[j].value in setup.captures || r[j] == setup.tt
  }

  /** The call at j comes back empty although m is due and no skip has taken it off the list. */
  predicate Missing(setup: Setup, usable: bool, calls: seq<Call>, r: seq<Option<Move>>, j: nat, m: Move)
    requires j < |r| == |calls|
  {
    && calls[j] == NextCall && r[j] == None && Some(m) !in r[..j] && Due(setup, usable, m)
    && (m in setup.captures || setup.tt == Some(m) || setup.firstStage != GoodCaptureStage || SkipCall !in calls[..j])
  }

  /** When a call comes back empty, every capture due has come, and without a skip every move due. */
  ghost predicate AllCome(setup: Setup, usable: bool, calls: seq<Call>, r: seq<Option<Move>>)
    requires |r| == |calls|
  {
    forall j: nat, m :: j < |r| ==> !Missing(setup, usable, calls, r, j, m)
  }

  /** What a skip leaves of a list, in the same order. */
  lemma {:induction false} OnlyFollow(setup: Setup, s: seq<Move>)
    ensures forall m :: m in CapturesOnly(setup, s) <==> m in s && Stays(setup, m)
    ensures forall i, j :: 0 <= i < j < |CapturesOnly(setup, s)| ==>
              Earlier(s, CapturesOnly(setup, s)[i], CapturesOnly(setup, s)[j])
  {
    hide Stays;
    if s != [] {
      var rest, kept := CapturesOnly(setup, s[1..]), CapturesOnly(setup, s);
      OnlyFollow(setup, s[1..]);
      assert kept == if Stays(setup, s[0]) then [s[0]] + rest else rest;
      assert forall m :: m in s <==> m == s[0] || m in s[1..];
      hide CapturesOnly;
      forall i, j | 0 <= i < j < |kept|
        ensures Earlier(s, kept[i], kept[j])
      {
        var d := |kept| - |rest|;
        if i < d {
          assert kept[j] == rest[j - d] && kept[j] in s[1..];
          var b :| 0 <= b < |s[1..]| && s[1..][b] == kept[j];
          assert s[0] == kept[i] && s[b + 1] == kept[j];
        } else {
          assert kept[i] == rest[i - d] && kept[j] == rest[j - d];
          var a, b :| 0 <= a < b < |s[1..]| && s[1..][a] == kept[i] && s[1..][b] == kept[j];
          assert s[a + 1] == kept[i] && s[b + 1] == kept[j];
        }
      }
    }
  }

  ghost predicate Orderly(setup: Setup, s: seq<Move>) {
    Different(s) && InTurn(setup, s)
  }

  /** What one call leaves. */
  function Rest(setup: Setup, agenda: seq<Move>, call: Call): seq<Move> {
    if call == SkipCall then AfterSkip(setup, agenda) else if agenda == [] then [] else agenda[1..]
  }

  lemma RestOrderly(setup: Setup, agenda: seq<Move>, call: Call)
    requires Orderly(setup, agenda)
    ensures Orderly(setup, Rest(setup, agenda, call))
    ensures forall x :: x in Rest(setup, agenda, call) ==> x in agenda
  {
    hide Before;
    var rest := Rest(setup, agenda, call);
    OnlyFollow(setup, agenda);
    if call == SkipCall && setup.firstStage == GoodCaptureStage {
      OnlyOrderly(setup, agenda, rest);
    }
  }

  lemma OnlyOrderly(setup: Setup, agenda: seq<Move>, rest: seq<Move>)
    requires Orderly(setup, agenda)
    requires forall i, j :: 0 <= i < j < |rest| ==> Earlier(agenda, rest[i], rest[j])
    ensures Orderly(setup, rest)
  {
    hide Before;
    forall i, j | 0 <= i < j < |rest|
      ensures rest[i] != rest[j] && Before(setup, rest[i], rest[j])
    {
      assert Earlier(agenda, rest[i], rest[j]);
      var a, b :| 0 <= a < b < |agenda| && agenda[a] == rest[i] && agenda[b] == rest[j];
    }
  }

  lemma ResultsHead(setup: Setup, agenda: seq<Move>, calls: seq<Call>)
    requires calls != []
    ensures Results(setup, agenda, calls) ==
            [if calls[0] == SkipCall || agenda == [] then None else Some(agenda[0])] +
            Results(setup, Rest(setup, agenda, calls[0]), calls[1..])
  {
    hide AfterSkip;
  }

  lemma {:induction false} ResultsInTurn(setup: Setup, agenda: seq<Move>, calls: seq<Call>)
    requires Orderly(setup, agenda)
    ensures ComeInTurn(setup, Results(setup, agenda, calls))
    ensures forall x :: Some(x) in Results(setup, agenda, calls) ==> x in agenda
    decreases calls
  {
    if calls != [] {
      hide *;
      var left := Rest(setup, agenda, calls[0]);
      RestOrderly(setup, agenda, calls[0]);
      ResultsInTurn(setup, left, calls[1..]);
      ResultsHead(setup, agenda, calls);
      HeadInTurn(setup, agenda, calls[0], left);
      PrependInTurn(setup, if calls[0] == SkipCall || agenda == [] then None else Some(agenda[0]),
                    Results(setup, left, calls[1..]));
    }
  }

  lemma PrependInTurn(setup: Setup, head: Option<Move>, rest: seq<Option<Move>>)
    requires ComeInTurn(setup, rest)
    requires head.Some? ==> forall x :: Some(x) in rest ==> x != head.value && Before(setup, head.value, x)
    ensures ComeInTurn(setup, [head] + rest)
  {
    hide Before;
    var r := [head] + rest;
    forall i, j | 0 <= i < j < |r| && r[i].Some? && r[j].Some?
      ensures r[i] != r[j] && Before(setup, r[i].value, r[j].value)
    {
      assert r[j] == rest[j - 1] && Some(r[j].value) in rest;
      if i > 0 {
        assert r[i] == rest[i - 1];
      }
    }
  }

  lemma HeadInTurn(setup: Setup, agenda: seq<Move>, call: Call, left: seq<Move>)
    requires Orderly(setup, agenda) && left == Rest(setup, agenda, call)
    ensures call != SkipCall && agenda != [] ==>
              forall x :: x in left ==> x != agenda[0] && Before(setup, agenda[0], x)
  {
    hide Before, AfterSkip;
    if call != SkipCall && agenda != [] {
      forall x | x in left
        ensures x != agenda[0] && Before(setup, agenda[0], x)
      {
        var i :| 0 <= i < |left| && left[i] == x;
        assert agenda[i + 1] == x;
      }
    }
  }

  /** After the first skip only what stays is left to come. */
  lemma {:induction false} ResultsSkipped(setup: Setup, agenda: seq<Move>, calls: seq<Call>)
    requires Orderly(setup, agenda)
    ensures SkipHolds(setup, calls, Results(setup, agenda, calls))
    decreases calls
  {
    if calls != [] {
      hide *;
      var left := Rest(setup, agenda, calls[0]);
      RestOrderly(setup, agenda, calls[0]);
      ResultsSkipped(setup, left, calls[1..]);
      ResultsInTurn(setup, left, calls[1..]);
      ResultsHead(setup, agenda, calls);
      SkipIs(setup, agenda);
      OnlyFollow(setup, agenda);
      PrependSkip(setup, calls, if calls[0] == SkipCall || agenda == [] then None else Some(agenda[0]),
                  Results(setup, left, calls[1..]));
    }
  }

  lemma PrependSkip(setup: Setup, calls: seq<Call>, head: Option<Move>, rest: seq<Option<Move>>)
    requires |calls| == |rest| + 1 && SkipHolds(setup, calls[1..], rest)
    requires setup.firstStage == GoodCaptureStage && calls[0] == SkipCall ==> forall x :: Some(x) in rest ==>
             Stays(setup, x)
    ensures SkipHolds(setup, calls, [head] + rest)
  {
    var r := [head] + rest;
    forall i, j | setup.firstStage == GoodCaptureStage && 0 <= i < j < |r| && calls[i] == SkipCall && r[j].Some?
      ensures r[j].value in setup.captures || r[j] == setup.tt
    {
      assert r[j] == rest[j - 1] && Some(r[j].value) in rest;
      if i > 0 {
        assert calls[1..][i - 1] == SkipCall;
      }
    }
  }

  /** A call comes back empty only when everything that was to come has come. */
  lemma {:induction false} ResultsAll(setup: Setup, agenda: seq<Move>, calls: seq<Call>, j: nat, m: Move)
    requires j < |calls| && calls[j] == NextCall && Results(setup, agenda, calls)[j] == None && m in agenda
    requires Stays(setup, m) || setup.firstStage != GoodCaptureStage || SkipCall !in calls[..j]
    ensures Some(m) in Results(setup, agenda, calls)[..j]
    decreases calls
  {
    var left := Rest(setup, agenda, calls[0]);
    ResultsHead(setup, agenda, calls);
    OnlyFollow(setup, agenda);
    var r, rest := Results(setup, agenda, calls), Results(setup, left, calls[1..]);
    hide Results, CapturesOnly, Stays;
    if j > 0 {
      assert r[..j] == [r[0]] + rest[..j - 1];
      assert calls[..j] == [calls[0]] + calls[1..][..j - 1];
      assert calls[0] in calls[..j];
      if m in left {
        ResultsAll(setup, left, calls[1..], j - 1, m);
      } else {
        assert calls[0] == NextCall && agenda[0] == m;
      }
    }
  }

  lemma OpeningIs(setup: Setup, usable: bool)
    requires usable ==> setup.tt.Some?
    ensures Opening(setup, usable) == (if usable then [setup.tt.value] else []) + FirstAgenda(setup, false)
  {
  }

  lemma SkipIs(setup: Setup, agenda: seq<Move>)
    ensures Rest(setup, agenda, SkipCall) ==
            if setup.firstStage == GoodCaptureStage then CapturesOnly(setup, agenda) else agenda
  {
  }

  lemma PoppedIs(setup: Setup, agenda: seq<Move>, out: Option<Move>, after: seq<Move>)
    requires Popped(agenda, out, after)
    ensures after == Rest(setup, agenda, NextCall) && out == if agenda == [] then None else Some(agenda[0])
  {
  }

  lemma NoResults(setup: Setup, agenda: seq<Move>)
    ensures Results(setup, agenda, []) == []
  {
  }

  lemma {:induction false} SkipReturns(setup: Setup, agenda: seq<Move>, calls: seq<Call>, i: nat)
    requires i < |calls| && calls[i] == SkipCall
    ensures Results(setup, agenda, calls)[i] == None
    decreases calls
  {
    ResultsHead(setup, agenda, calls);
    if i > 0 {
      SkipReturns(setup, Rest(setup, agenda, calls[0]), calls[1..], i - 1);
    }
  }

  lemma OpeningOrderly(setup: Setup, usable: bool)
    requires Pickable(setup) && Distinct(setup) && (usable ==> setup.tt.Some?)
    ensures Orderly(setup, Opening(setup, usable))
    ensures forall m :: m in Opening(setup, usable) <==> Due(setup, usable, m)
  {
    OpeningInTurn(setup, usable);
    var s := Opening(setup, usable);
    hide Opening, InTurn, Pickable, Distinct, Due;
    forall m
      ensures m in s <==> Due(setup, usable, m)
      ensures Count(s, m) <= 1
    {
      OpeningDue(setup, usable, m);
      MemberCounts(s, m);
    }
    forall i, j | 0 <= i < j < |s|
      ensures s[i] != s[j]
    {
      if s[i] == s[j] {
        TwiceCounts(s, i, j);
      }
    }
  }

  lemma TwiceCounts(s: seq<Move>, i: nat, j: nat)
    requires i < j < |s| && s[i] == s[j]
    ensures Count(s, s[i]) >= 2
  {
    assert s == s[..i] + [s[i]] + s[i + 1..j] + [s[j]] + s[j + 1..];
  }

  lemma PlayRight(setup: Setup, usable: bool, calls: seq<Call>, r: seq<Option<Move>>)
    requires Pickable(setup) && Distinct(setup) && (usable ==> setup.tt.Some?)
    requires r == Results(setup, Opening(setup, usable), calls)
    ensures forall i :: 0 <= i < |calls| && calls[i] == SkipCall ==> r[i] == None
    ensures ComeInTurn(setup, r) && SkipHolds(setup, calls, r) && AllCome(setup, usable, calls, r)
    ensures forall i :: 0 <= i < |r| && r[i].Some? ==> Due(setup, usable, r[i].value)
  {
    var start := Opening(setup, usable);
    OpeningOrderly(setup, usable);
    ResultsInTurn(setup, start, calls);
    ResultsSkipped(setup, start, calls);
    hide Opening, Pickable, Distinct, Due, Orderly, ComeInTurn, SkipHolds, Results;
    forall i | 0 <= i < |calls| && calls[i] == SkipCall
      ensures r[i] == None
    {
      SkipReturns(setup, start, calls, i);
    }
    forall i | 0 <= i < |r| && r[i].Some?
      ensures Due(setup, usable, r[i].value)
    {
      assert Some(r[i].value) in r;
    }
    forall j: nat, m | j < |r|
      ensures !Missing(setup, usable, calls, r, j, m)
    {
      if Missing(setup, usable, calls, r, j, m) {
        ResultsAll(setup, start, calls, j, m);
      }
    }
  }

  /** A picker driven from its start, whatever it is asked for: the moves come in turn and none
      twice, none that is not due, after a skip no quiet; and a call comes back empty only when
      everything that was to come has come. */
  method Play(setup: Setup, usable: bool, calls: seq<Call>) returns (r: seq<Option<Move>>)
    requires Pickable(setup) && Distinct(setup) && (usable ==> setup.tt.Some?)
    ensures |r| == |calls| && forall i :: 0 <= i < |calls| && calls[i] == SkipCall ==> r[i] == None
    ensures ComeInTurn(setup, r) && SkipHolds(setup, calls, r) && AllCome(setup, usable, calls, r)
    ensures forall i :: 0 <= i < |r| && r[i].Some? ==> Due(setup, usable, r[i].value)
  {
    hide *;
    var mp := new MovePicker(setup, usable);
    ghost var start := mp.Agenda();
    OpeningIs(setup, usable);
    r := [];
    assert calls[0..] == calls;
    for i := 0 to |calls|
      invariant mp.Valid() && mp.setup == setup && |r| == i && fresh(mp) && fresh(mp.moves)
      invariant r + Results(setup, mp.Agenda(), calls[i..]) == Results(setup, start, calls)
    {
      ghost var before := mp.Agenda();
      assert calls[i..][0] == calls[i] && calls[i..][1..] == calls[i + 1..];
      ResultsHead(setup, before, calls[i..]);
      var out := None;
      if calls[i] == SkipCall {
        mp.SkipQuiets();
        SkipIs(setup, before);
      } else {
        out := mp.Next();
        PoppedIs(setup, before, out, mp.Agenda());
      }
      r := r + [out];
    }
    assert calls[|calls|..] == [];
    NoResults(setup, mp.Agenda());
    PlayRight(setup, usable, calls, r);
  }
}
