/** The staged move picker: a lazy walk over one shared buffer that is, at every moment, nothing
    but the list of the moves still to come. */
module MovePick {
  import opened Types
  import opened Sorting
  import opened MoveGen

  const MAX_MOVES := 256
  const GOOD_QUIET_THRESHOLD := -14000

  datatype Stage =
    | TTMove | InitFirstStage | GoodCaptureStage | GoodQuietStage | BadMovesStage | QSearchStage | EvasionStage
    | ProbCutStage

  datatype ListKind = CaptureList | QuietList | EvasionList

  /** What a picker is set up with: the lists the generators would emit for its position, their
      scores, the verdicts of see_ge, and the fields no stage changes. */
  datatype Setup = Setup(
    captures: seq<Move>,
    quiets: seq<Move>,
    evasions: seq<Move>,
    score: (ListKind, Move) -> int,
    seeGe: (Move, int) -> bool,
    tt: Option<Move>,
    threshold: int,
    depth: int,
    firstStage: Stage)

  // ----- the lists, as the stages filter them -----

  /** C's division, which truncates toward zero. */
  function TruncatedDiv(x: int, d: int): int
    requires d > 0
  {
    if x >= 0 then x / d else -(-x / d)
  }

  datatype Sieve = AnyMove | GoodCapture | BadCapture | GoodQuiet | BadQuiet | ProbCutMove

  predicate Passes(setup: Setup, sieve: Sieve, e: ExtMove) {
    && setup.tt != Some(e.move)
    && match sieve
       case AnyMove => true
       case GoodCapture => setup.seeGe(e.move, TruncatedDiv(-e.value, 18))
       case BadCapture => !setup.seeGe(e.move, TruncatedDiv(-e.value, 18))
       case GoodQuiet => e.value > GOOD_QUIET_THRESHOLD
       case BadQuiet => e.value <= GOOD_QUIET_THRESHOLD
       case ProbCutMove => setup.seeGe(e.move, setup.threshold)
  }

  /** The entries that pass, in the order they are met. */
  function Keep(setup: Setup, sieve: Sieve, s: seq<ExtMove>): seq<ExtMove> {
    if s == [] then []
    else if Passes(setup, sieve, s[0]) then [s[0]] + Keep(setup, sieve, s[1..])
    else Keep(setup, sieve, s[1..])
  }

  function Words(s: seq<ExtMove>): (r: seq<Move>)
    ensures |r| == |s|
  {
    seq(|s|, i requires 0 <= i < |s| => s[i].move)
  }

  function ListOf(setup: Setup, kind: ListKind): seq<Move> {
    match kind
    case CaptureList => setup.captures
    case QuietList => setup.quiets
    case EvasionList => setup.evasions
  }

  function Scored(setup: Setup, kind: ListKind): (r: seq<ExtMove>)
    ensures |r| == |ListOf(setup, kind)|
  {
    seq(|ListOf(setup, kind)|, i requires 0 <= i < |ListOf(setup, kind)| =>
      ExtMove(ListOf(setup, kind)[i], setup.score(kind, ListOf(setup, kind)[i])))
  }

  function SortedQuiets(setup: Setup): seq<ExtMove> {
    PartlySorted(Scored(setup, QuietList), -3560 * setup.depth)
  }

  /** The losers once the whole span has been met. */
  function Losing(setup: Setup, bad: Sieve, losers: seq<ExtMove>, span: seq<ExtMove>): seq<ExtMove> {
    losers + Keep(setup, bad, span)
  }

  /** Captures are left to walk in `span`, the losers met so far stand in `losers`. */
  function MainAgenda(setup: Setup, span: seq<ExtMove>, losers: seq<ExtMove>, skip: bool): seq<Move> {
    var bad := Losing(setup, BadCapture, losers, span);
    Words(Keep(setup, GoodCapture, span)) + if skip then Words(bad) else QuietAgenda(setup, SortedQuiets(setup), bad)
  }

  /** Quiets are left to walk. */
  function QuietAgenda(setup: Setup, span: seq<ExtMove>, losers: seq<ExtMove>): seq<Move> {
    Words(Keep(setup, GoodQuiet, span)) + Words(Losing(setup, BadQuiet, losers, span))
  }

  /** The whole list of a picker that has not generated yet, the TT move apart. */
  function FirstAgenda(setup: Setup, skip: bool): seq<Move> {
    match setup.firstStage
    case GoodCaptureStage => MainAgenda(setup, Sorted(Scored(setup, CaptureList)), [], skip)
    case EvasionStage => Words(Keep(setup, AnyMove, Sorted(Scored(setup, EvasionList))))
    case ProbCutStage => Words(Keep(setup, ProbCutMove, Sorted(Scored(setup, CaptureList))))
    case _ => Words(Keep(setup, AnyMove, Sorted(Scored(setup, CaptureList))))
  }

  predicate Pickable(setup: Setup) {
    && |setup.captures| + |setup.quiets| <= MAX_MOVES && |setup.evasions| <= MAX_MOVES
    && (setup.firstStage == GoodCaptureStage || setup.firstStage == QSearchStage || setup.firstStage == EvasionStage
        || setup.firstStage == ProbCutStage)
  }

  predicate AllCaptures(setup: Setup, s: seq<ExtMove>) {
    forall i :: 0 <= i < |s| ==> s[i].move in setup.captures
  }

  predicate AllQuiets(setup: Setup, s: seq<ExtMove>) {
    forall i :: 0 <= i < |s| ==> s[i].move in setup.quiets
  }

  predicate NoneTT(setup: Setup, s: seq<ExtMove>) {
    forall i :: 0 <= i < |s| ==> setup.tt != Some(s[i].move)
  }

  // ----- sieving -----

  lemma {:induction false} KeepShape(setup: Setup, sieve: Sieve, s: seq<ExtMove>)
    ensures |Keep(setup, sieve, s)| <= |s| && NoneTT(setup, Keep(setup, sieve, s))
    ensures AllCaptures(setup, s) ==> AllCaptures(setup, Keep(setup, sieve, s))
    ensures AllQuiets(setup, s) ==> AllQuiets(setup, Keep(setup, sieve, s))
  {
    if s != [] {
      KeepShape(setup, sieve, s[1..]);
    }
  }

  lemma WordsJoin(a: seq<ExtMove>, b: seq<ExtMove>)
    ensures Words(a + b) == Words(a) + Words(b)
  {
  }

  lemma KeepHead(setup: Setup, sieve: Sieve, s: seq<ExtMove>)
    requires s != []
    ensures Words(Keep(setup, sieve, s)) ==
            if Passes(setup, sieve, s[0]) then [s[0].move] + Words(Keep(setup, sieve, s[1..]))
              else Words(Keep(setup, sieve, s[1..]))
  {
    hide Passes;
    var rest := Keep(setup, sieve, s[1..]);
    assert Keep(setup, sieve, s) == if Passes(setup, sieve, s[0]) then [s[0]] + rest else rest;
    WordsJoin([s[0]], rest);
    assert Words([s[0]]) == [s[0].move];
    hide Keep, Words;
  }

  lemma {:induction false} KeepAll(setup: Setup, s: seq<ExtMove>)
    requires NoneTT(setup, s)
    ensures Keep(setup, AnyMove, s) == s
  {
    if s != [] {
      assert NoneTT(setup, s[1..]);
      KeepAll(setup, s[1..]);
    }
  }

  lemma KeepNothing(setup: Setup, sieve: Sieve)
    ensures Keep(setup, sieve, []) == [] && Words([]) == []
  {
  }

  predicate Opposite(good: Sieve, bad: Sieve) {
    (good == GoodCapture && bad == BadCapture) || (good == GoodQuiet && bad == BadQuiet)
  }

  /** One entry met: it is a winner, a loser, or the TT move. */
  lemma EntryMet(setup: Setup, good: Sieve, bad: Sieve, s: seq<ExtMove>, losers: seq<ExtMove>)
    requires Opposite(good, bad) && s != []
    ensures Losing(setup, bad, losers, s) ==
            if setup.tt != Some(s[0].move) && !Passes(setup, good, s[0])
              then Losing(setup, bad, losers + [s[0]], s[1..])
            else Losing(setup, bad, losers, s[1..])
    ensures Passes(setup, good, s[0]) ==> setup.tt != Some(s[0].move)
  {
    var rest := Keep(setup, bad, s[1..]);
    assert Passes(setup, bad, s[0]) <==> setup.tt != Some(s[0].move) && !Passes(setup, good, s[0]);
    assert Keep(setup, bad, s) == if Passes(setup, bad, s[0]) then [s[0]] + rest else rest;
    hide Keep, Passes;
    if Passes(setup, bad, s[0]) {
      assert losers + ([s[0]] + rest) == losers + [s[0]] + rest;
    }
  }

  /** What one call takes off the agenda. */
  predicate Popped(before: seq<Move>, r: Option<Move>, after: seq<Move>) {
    if before == [] then r == None && after == [] else r == Some(before[0]) && after == before[1..]
  }

  lemma PoppedOne(m: Move, rest: seq<Move>)
    ensures Popped([m] + rest, Some(m), rest) && Popped([], None, [])
  {
  }

  lemma PoppedFront(a: seq<Move>, r: Option<Move>, a': seq<Move>, rest: seq<Move>)
    requires Popped(a, r, a') && r.Some?
    ensures Popped(a + rest, r, a' + rest)
  {
    assert (a + rest)[1..] == a[1..] + rest;
  }

  /** The losers grow behind what they were, by entries of the span. */
  lemma LosersShape(setup: Setup, bad: Sieve, l: seq<ExtMove>, s: seq<ExtMove>, l': seq<ExtMove>, s': seq<ExtMove>)
    requires Losing(setup, bad, l', s') == Losing(setup, bad, l, s) && |l| <= |l'|
    ensures l'[..|l|] == l && NoneTT(setup, l'[|l|..]) && (NoneTT(setup, l) ==> NoneTT(setup, l'))
    ensures AllQuiets(setup, s) ==> AllQuiets(setup, l'[|l|..])
    ensures AllCaptures(setup, l) && AllCaptures(setup, s) ==> AllCaptures(setup, l')
  {
    KeepShape(setup, bad, s);
    var k := Keep(setup, bad, s);
    assert forall i :: 0 <= i < |l'| ==> l'[i] == (l + k)[i];
    hide Keep;
  }

  /** The quiets among the losers stay quiets. */
  lemma QuietLosersGrow(setup: Setup, l: seq<ExtMove>, l': seq<ExtMove>, k: nat)
    requires k <= |l| <= |l'| && l'[..|l|] == l && AllQuiets(setup, l[k..]) && AllQuiets(setup, l'[|l|..])
    ensures l'[..k] == l[..k] && AllQuiets(setup, l'[k..])
  {
    assert l'[k..] == l[k..] + l'[|l|..];
    assert l'[..k] == l'[..|l|][..k];
  }

  lemma QuietsPop(setup: Setup, s: seq<ExtMove>, l: seq<ExtMove>, r: Option<Move>, s': seq<ExtMove>, l': seq<ExtMove>)
    requires Popped(Words(Keep(setup, GoodQuiet, s)), r, Words(Keep(setup, GoodQuiet, s')))
    requires Losing(setup, BadQuiet, l', s') == Losing(setup, BadQuiet, l, s)
    ensures r.Some? ==> Popped(QuietAgenda(setup, s, l), r, QuietAgenda(setup, s', l'))
    ensures r == None && s' == [] ==> QuietAgenda(setup, s, l) == Words(l')
  {
    hide Keep, Words;
    if r.Some? {
      PoppedFront(Words(Keep(setup, GoodQuiet, s)), r, Words(Keep(setup, GoodQuiet, s')),
                  Words(Losing(setup, BadQuiet, l, s)));
    } else if s' == [] {
      KeepNothing(setup, BadQuiet);
      assert Losing(setup, BadQuiet, l', s') == l';
      assert Words(Keep(setup, GoodQuiet, s)) == [];
    }
  }

  lemma CapturesPop(setup: Setup, s: seq<ExtMove>, l: seq<ExtMove>, r: Option<Move>, s': seq<ExtMove>,
                    l': seq<ExtMove>, skip: bool)
    requires Popped(Words(Keep(setup, GoodCapture, s)), r, Words(Keep(setup, GoodCapture, s')))
    requires Losing(setup, BadCapture, l', s') == Losing(setup, BadCapture, l, s)
    ensures r.Some? ==> Popped(MainAgenda(setup, s, l, skip), r, MainAgenda(setup, s', l', skip))
    ensures r == None && s' == [] ==> MainAgenda(setup, s, l, skip) == if skip then Words(l')
      else QuietAgenda(setup, SortedQuiets(setup), l')
  {
    hide Keep, Words, QuietAgenda, SortedQuiets;
    if r.Some? {
      var bad := Losing(setup, BadCapture, l, s);
      PoppedFront(Words(Keep(setup, GoodCapture, s)), r, Words(Keep(setup, GoodCapture, s')),
                  if skip then Words(bad) else QuietAgenda(setup, SortedQuiets(setup), bad));
    } else if s' == [] {
      KeepNothing(setup, BadCapture);
      assert Losing(setup, BadCapture, l', s') == l';
      assert Words(Keep(setup, GoodCapture, s)) == [];
    }
  }

  /** Sorting moves no entry in or out of its list. */
  lemma ScoredMembers(setup: Setup, kind: ListKind, s: seq<ExtMove>)
    requires multiset(s) == multiset(Scored(setup, kind))
    ensures kind == CaptureList ==> AllCaptures(setup, s)
    ensures kind == QuietList ==> AllQuiets(setup, s)
  {
    forall i | 0 <= i < |s|
      ensures s[i].move in ListOf(setup, kind)
    {
      assert s[i] in multiset(Scored(setup, kind));
      assert s[i] in Scored(setup, kind);
    }
  }

  /** A span that is a prefix of the buffer without the TT move is replayed whole. */
  lemma Replayed(setup: Setup, s: seq<ExtMove>)
    requires NoneTT(setup, s)
    ensures Words(Keep(setup, AnyMove, s)) == Words(s)
  {
    KeepAll(setup, s);
  }

  /** What the array must hold at each stage. */
  ghost predicate HoldsMain(setup: Setup, s: seq<ExtMove>, span: seq<ExtMove>, stage: Stage, endBadCaptures: nat,
                            endBadMoves: nat,
                            endCur: nat)
    requires endBadCaptures <= |s| && endBadMoves <= |s| && endCur <= |s|
  {
    match stage
    case GoodCaptureStage => AllCaptures(setup, s[..endBadMoves]) && NoneTT(setup, s[..endBadMoves]) &&
      AllCaptures(setup, span)
    case GoodQuietStage =>
      && endBadCaptures <= endBadMoves && AllCaptures(setup, s[..endBadCaptures]) && NoneTT(setup, s[..endBadMoves])
      && AllQuiets(setup, s[endBadCaptures..endBadMoves]) && AllQuiets(setup, span)
    case BadMovesStage =>
      && endBadCaptures <= endCur && AllCaptures(setup, s[..endBadCaptures]) && NoneTT(setup, s[..endCur])
      && AllQuiets(setup, s[endBadCaptures..endCur])
    case _ => true
  }

  // ----- skipping the quiets -----

  /** No move is listed twice. */
  ghost predicate Distinct(setup: Setup) {
    forall m :: Count(setup.captures, m) + Count(setup.quiets, m) <= 1 && Count(setup.evasions, m) <= 1
  }

  predicate Stays(setup: Setup, m: Move) {
    m in setup.captures || setup.tt == Some(m)
  }

  /** What a skip leaves of an agenda: the captures, and the TT move when it is still to come. */
  function CapturesOnly(setup: Setup, s: seq<Move>): seq<Move> {
    if s == [] then []
    else if Stays(setup, s[0]) then [s[0]] + CapturesOnly(setup, s[1..])
    else CapturesOnly(setup, s[1..])
  }

  lemma {:induction false} OnlyJoin(setup: Setup, a: seq<Move>, b: seq<Move>)
    ensures CapturesOnly(setup, a + b) == CapturesOnly(setup, a) + CapturesOnly(setup, b)
  {
    hide Stays;
    if a == [] {
      assert a + b == b;
    } else {
      OnlyJoin(setup, a[1..], b);
      assert (a + b)[0] == a[0] && (a + b)[1..] == a[1..] + b;
    }
  }

  lemma {:induction false} OnlyOfCaptures(setup: Setup, s: seq<ExtMove>)
    requires AllCaptures(setup, s)
    ensures CapturesOnly(setup, Words(s)) == Words(s)
  {
    if s != [] {
      OnlyOfCaptures(setup, s[1..]);
      assert Words(s)[1..] == Words(s[1..]);
    }
  }

  lemma {:induction false} OnlyOfQuiets(setup: Setup, s: seq<ExtMove>)
    requires Distinct(setup) && AllQuiets(setup, s) && NoneTT(setup, s)
    ensures CapturesOnly(setup, Words(s)) == []
  {
    if s != [] {
      assert AllQuiets(setup, s[1..]) && NoneTT(setup, s[1..]);
      OnlyOfQuiets(setup, s[1..]);
      assert Words(s)[1..] == Words(s[1..]);
      assert Count(setup.captures, s[0].move) + Count(setup.quiets, s[0].move) <= 1;
      assert s[0].move in multiset(setup.quiets);
    }
  }

  lemma MainSkipped(setup: Setup, span: seq<ExtMove>, losers: seq<ExtMove>, skip: bool)
    requires Distinct(setup) && AllCaptures(setup, span) && AllCaptures(setup, losers)
    ensures CapturesOnly(setup, MainAgenda(setup, span, losers, skip)) == MainAgenda(setup, span, losers, true)
  {
    var good, bad := Keep(setup, GoodCapture, span), Losing(setup, BadCapture, losers, span);
    KeepShape(setup, GoodCapture, span);
    KeepShape(setup, BadCapture, span);
    assert AllCaptures(setup, bad);
    OnlyOfCaptures(setup, good);
    OnlyOfCaptures(setup, bad);
    OnlyJoin(setup, Words(good), if skip then Words(bad) else QuietAgenda(setup, SortedQuiets(setup), bad));
    PartlySortedRight(Scored(setup, QuietList), -3560 * setup.depth);
    ScoredMembers(setup, QuietList, SortedQuiets(setup));
    hide Keep, Losing, CapturesOnly, SortedQuiets, Words, Distinct, AllCaptures, AllQuiets, QuietAgenda;
    QuietsSkipped(setup, SortedQuiets(setup), bad, []);
  }

  /** Of the quiet stage a skip leaves the bad captures. */
  lemma QuietsSkipped(setup: Setup, span: seq<ExtMove>, captures: seq<ExtMove>, quiets: seq<ExtMove>)
    requires Distinct(setup) && AllQuiets(setup, span) && AllCaptures(setup, captures) && AllQuiets(setup, quiets) &&
             NoneTT(setup, quiets)
    ensures CapturesOnly(setup, QuietAgenda(setup, span, captures + quiets)) == Words(captures)
    ensures captures + [] == captures
  {
    var good, bad := Keep(setup, GoodQuiet, span), Keep(setup, BadQuiet, span);
    KeepShape(setup, GoodQuiet, span);
    KeepShape(setup, BadQuiet, span);
    assert Losing(setup, BadQuiet, captures + quiets, span) == captures + (quiets + bad);
    assert AllQuiets(setup, quiets + bad) && NoneTT(setup, quiets + bad);
    hide Keep, Losing, CapturesOnly, Words, Distinct, AllCaptures, AllQuiets, NoneTT;
    OnlyOfQuiets(setup, good);
    OnlyOfQuiets(setup, quiets + bad);
    OnlyOfCaptures(setup, captures);
    WordsJoin(captures, quiets + bad);
    OnlyJoin(setup, Words(good), Words(captures + (quiets + bad)));
    OnlyJoin(setup, Words(captures), Words(quiets + bad));
  }

  lemma FirstSkipped(setup: Setup, skip: bool)
    requires Distinct(setup) && setup.firstStage == GoodCaptureStage
    ensures CapturesOnly(setup, FirstAgenda(setup, skip)) == FirstAgenda(setup, true)
  {
    SortedRight(Scored(setup, CaptureList));
    ScoredMembers(setup, CaptureList, Sorted(Scored(setup, CaptureList)));
    hide MainAgenda, Distinct, Sorted, Scored, CapturesOnly;
    MainSkipped(setup, Sorted(Scored(setup, CaptureList)), [], skip);
  }

  lemma TTKept(setup: Setup, rest: seq<Move>)
    requires setup.tt.Some?
    ensures CapturesOnly(setup, [setup.tt.value] + rest) == [setup.tt.value] + CapturesOnly(setup, rest)
  {
    OnlyJoin(setup, [setup.tt.value], rest);
    assert [setup.tt.value][1..] == [];
  }

  /** Only a main picker's agenda depends on the flag. */
  lemma SkipElsewhere(setup: Setup, skip: bool)
    requires setup.firstStage != GoodCaptureStage
    ensures FirstAgenda(setup, skip) == FirstAgenda(setup, true)
  {
  }

  /** Of the replayed losers a skip leaves the captures still ahead. */
  lemma ReplaySkipped(setup: Setup, captures: seq<ExtMove>, quiets: seq<ExtMove>)
    requires Distinct(setup) && AllCaptures(setup, captures) && AllQuiets(setup, quiets) &&
             NoneTT(setup, captures + quiets)
    ensures CapturesOnly(setup, Words(Keep(setup, AnyMove, captures + quiets))) == Words(Keep(setup, AnyMove, captures))
  {
    assert forall i :: 0 <= i < |captures| ==> captures[i] == (captures + quiets)[i];
    assert forall i :: 0 <= i < |quiets| ==> quiets[i] == (captures + quiets)[|captures| + i];
    assert NoneTT(setup, captures) && NoneTT(setup, quiets);
    hide Distinct, AllCaptures, AllQuiets, NoneTT, CapturesOnly, Words, Keep;
    Replayed(setup, captures + quiets);
    Replayed(setup, captures);
    WordsJoin(captures, quiets);
    OnlyOfCaptures(setup, captures);
    OnlyOfQuiets(setup, quiets);
    OnlyJoin(setup, Words(captures), Words(quiets));
  }

  /** What is left of the replay: captures up to their end, then quiets. */
  lemma ReplayParts(setup: Setup, s: seq<ExtMove>, cur: nat, endBadCaptures: nat, endCur: nat)
    returns (captures: seq<ExtMove>, quiets: seq<ExtMove>)
    requires endBadCaptures <= endCur <= |s| && NoneTT(setup, s[..endCur])
    requires AllCaptures(setup, s[..endBadCaptures]) && AllQuiets(setup, s[endBadCaptures..endCur])
    ensures captures == (if cur <= endBadCaptures then s[cur..endBadCaptures] else [])
    ensures captures + quiets == (if cur <= endCur then s[cur..endCur] else [])
    ensures AllCaptures(setup, captures) && AllQuiets(setup, quiets) && NoneTT(setup, captures + quiets)
    ensures NoneTT(setup, s[..endBadCaptures])
  {
    captures := if cur <= endBadCaptures then s[cur..endBadCaptures] else [];
    quiets := if cur <= endBadCaptures then s[endBadCaptures..endCur] else if cur <= endCur then s[cur..endCur] else [];
    assert forall i :: 0 <= i < |captures| ==> captures[i] == s[..endBadCaptures][cur + i];
    assert cur > endBadCaptures ==> forall i :: 0 <= i < |quiets| ==>
           quiets[i] == s[endBadCaptures..endCur][cur - endBadCaptures + i];
    assert forall i :: 0 <= i < |captures + quiets| ==> (captures + quiets)[i] == s[..endCur][cur + i];
    assert forall i :: 0 <= i < endBadCaptures ==> s[..endBadCaptures][i] == s[..endCur][i];
  }

  lemma BufferHolds(setup: Setup)
    requires Pickable(setup)
    ensures |setup.captures| + |setup.quiets| <= MAX_MOVES && ListOf(setup, QuietList) == setup.quiets
    ensures SortedQuiets(setup) == PartlySorted(Scored(setup, QuietList), -3560 * setup.depth)
  {
  }

  lemma NoQuiets(setup: Setup)
    ensures AllQuiets(setup, [])
  {
  }

  lemma QuietsOpposite()
    ensures Opposite(GoodQuiet, BadQuiet) && Opposite(GoodCapture, BadCapture)
  {
  }

  /** What a splice leaves below it and what stands in it. */
  lemma SpliceParts(base: seq<ExtMove>, lo: nat, mid: seq<ExtMove>, r: seq<ExtMove>)
    requires lo + |mid| <= |base| && r == Splice(base, lo, mid)
    ensures |r| == |base| && r[lo..lo + |mid|] == mid && r[..lo] == base[..lo]
  {
  }

  // ----- the picker -----

  class MovePicker {
    const setup: Setup
    const moves: array<ExtMove>
    var stage: Stage
    var skipQuiets: bool
    var cur: nat
    var endCur: nat
    var endBadCaptures: nat
    var endBadMoves: nat

    /** What is left of the list being walked. */
    function Span(): seq<ExtMove>
      requires endCur <= moves.Length
      reads this, moves
    {
      if cur <= endCur then moves[cur..endCur] else []
    }

    ghost predicate Valid()
      reads this, moves
    {
      && Pickable(setup) && moves.Length == MAX_MOVES
      && endBadCaptures <= MAX_MOVES && endBadMoves <= MAX_MOVES && endCur <= MAX_MOVES
      && HoldsMain(setup, moves[..], Span(), stage, endBadCaptures, endBadMoves, endCur)
      && match stage
         case TTMove => setup.tt.Some?
         case InitFirstStage => true
         case GoodCaptureStage => setup.firstStage == GoodCaptureStage &&
           endBadMoves <= cur <= endCur <= |setup.captures|
         case GoodQuietStage => setup.firstStage == GoodCaptureStage && endBadMoves <= cur <= MAX_MOVES
         case BadMovesStage => setup.firstStage == GoodCaptureStage
         case _ => setup.firstStage == stage
    }

    /** The moves still to come, in order, when no further skip is asked for. */
    ghost function Agenda(): seq<Move>
      requires Valid()
      reads this, moves
    {
      match stage
      case TTMove => [setup.tt.value] + FirstAgenda(setup, skipQuiets)
      case InitFirstStage => FirstAgenda(setup, skipQuiets)
      case GoodCaptureStage => MainAgenda(setup, Span(), moves[..endBadMoves], skipQuiets)
      case GoodQuietStage => QuietAgenda(setup, Span(), moves[..endBadMoves])
      case ProbCutStage => Words(Keep(setup, ProbCutMove, Span()))
      case _ => Words(Keep(setup, AnyMove, Span()))
    }

    /** The opening stage is the TT move's only when that move is usable; the TT move is filtered
        out of the lists either way. */
    constructor (setup: Setup, usable: bool)
      requires Pickable(setup) && (usable ==> setup.tt.Some?)
      ensures Valid() && this.setup == setup && fresh(moves) && !skipQuiets
      ensures Agenda() == (if usable then [setup.tt.value] else []) + FirstAgenda(setup, false)
    {
      this.setup := setup;
      moves := new ExtMove[MAX_MOVES](_ => ExtMove(Move(Normal, 0, 0, Knight), 0));
      stage := if usable then TTMove else InitFirstStage;
      skipQuiets := false;
      cur, endCur, endBadCaptures, endBadMoves := 0, 0, 0, 0;
    }

    // ----- the selectors -----

    /** select_any and select_probcut: the next entry of the span that passes. */
    method Select(sieve: Sieve) returns (r: Option<Move>)
      requires endCur <= moves.Length
      modifies this`cur
      ensures r == None ==> Span() == []
      ensures old(cur) <= cur && (old(cur) <= old(endCur) ==> cur <= endCur)
      ensures Popped(Words(Keep(setup, sieve, old(Span()))), r, Words(Keep(setup, sieve, Span())))
      ensures AllCaptures(setup, old(Span())) ==> AllCaptures(setup, Span())
      ensures AllQuiets(setup, old(Span())) ==> AllQuiets(setup, Span())
    {
      ghost var s := Span();
      hide Keep, Passes, Words, Popped;
      while cur < endCur
        invariant old(cur) <= cur && (old(cur) <= endCur ==> cur <= endCur)
        invariant (AllCaptures(setup, s) ==> AllCaptures(setup, Span())) &&
                  (AllQuiets(setup, s) ==> AllQuiets(setup, Span()))
        invariant Words(Keep(setup, sieve, s)) == Words(Keep(setup, sieve, Span()))
      {
        KeepHead(setup, sieve, Span());
        var entry := Advance();
        if Passes(setup, sieve, entry) {
          PoppedOne(entry.move, Words(Keep(setup, sieve, Span())));
          return Some(entry.move);
        }
      }
      KeepNothing(setup, sieve);
      return None;
    }

    /** select_good_capture and select_good_quiet: the next entry that passes, the losers met on
        the way copied into the prefix behind the cursor. */
    method SelectGood(good: Sieve, bad: Sieve) returns (r: Option<Move>)
      requires endBadMoves <= cur <= moves.Length && endCur <= moves.Length && Opposite(good, bad)
      modifies this`cur, this`endBadMoves, moves
      ensures old(cur) <= cur <= moves.Length && (old(cur) <= endCur ==> cur <= endCur) &&
              old(endBadMoves) <= endBadMoves <= cur
      ensures Popped(Words(Keep(setup, good, old(Span()))), r, Words(Keep(setup, good, Span())))
      ensures Losing(setup, bad, moves[..endBadMoves], Span()) ==
              Losing(setup, bad, old(moves[..endBadMoves]), old(Span()))
      ensures r == None ==> Span() == []
      ensures AllCaptures(setup, old(Span())) ==> AllCaptures(setup, Span())
      ensures AllQuiets(setup, old(Span())) ==> AllQuiets(setup, Span())
    {
      ghost var s, losers := Span(), moves[..endBadMoves];
      hide Keep, Passes, Words, Opposite, Losing, Popped;
      while cur < endCur
        invariant old(cur) <= cur <= moves.Length && (old(cur) <= endCur ==> cur <= endCur) &&
                  old(endBadMoves) <= endBadMoves <= cur
        invariant (AllCaptures(setup, s) ==> AllCaptures(setup, Span())) &&
                  (AllQuiets(setup, s) ==> AllQuiets(setup, Span()))
        invariant Words(Keep(setup, good, s)) == Words(Keep(setup, good, Span()))
        invariant Losing(setup, bad, moves[..endBadMoves], Span()) == Losing(setup, bad, losers, s)
      {
        ghost var was := Span();
        KeepHead(setup, good, was);
        EntryMet(setup, good, bad, was, moves[..endBadMoves]);
        var entry := Advance();
        if setup.tt != Some(entry.move) {
          if Passes(setup, good, entry) {
            PoppedOne(entry.move, Words(Keep(setup, good, Span())));
            return Some(entry.move);
          }
          CopyLoser(entry);
        }
      }
      KeepNothing(setup, good);
      return None;
    }

    /** `moves[cur++]`. */
    method Advance() returns (entry: ExtMove)
      requires cur < endCur <= moves.Length
      modifies this`cur
      ensures cur == old(cur) + 1 && old(Span()) != [] && entry == old(Span())[0] && Span() == old(Span())[1..]
      ensures AllCaptures(setup, old(Span())) ==> AllCaptures(setup, Span())
      ensures AllQuiets(setup, old(Span())) ==> AllQuiets(setup, Span())
    {
      entry := moves[cur];
      cur := cur + 1;
    }

    /** `moves[end_bad_moves++] = entry`: the slot was consumed already. */
    method CopyLoser(entry: ExtMove)
      requires endBadMoves < cur <= moves.Length && endCur <= moves.Length
      modifies this`endBadMoves, moves
      ensures endBadMoves == old(endBadMoves) + 1 && moves[..endBadMoves] == old(moves[..endBadMoves]) + [entry]
      ensures Span() == old(Span())
    {
      moves[endBadMoves] := entry;
      endBadMoves := endBadMoves + 1;
    }

    /** score_list: the generator's list with its scores, written from `at`. */
    method ScoreList(kind: ListKind, at: nat) returns (count: nat)
      requires at + |ListOf(setup, kind)| <= moves.Length
      modifies moves
      ensures count == |ListOf(setup, kind)| && moves[..] == Splice(old(moves[..]), at, Scored(setup, kind))
    {
      var list := ListOf(setup, kind);
      count := |list|;
      var i := 0;
      while i < count
        invariant 0 <= i <= count
        invariant forall j :: 0 <= j < i ==> moves[at + j] == Scored(setup, kind)[j]
        invariant forall j :: 0 <= j < moves.Length && !(at <= j < at + i) ==> moves[j] == old(moves[j])
      {
        moves[at + i] := ExtMove(list[i], setup.score(kind, list[i]));
        i := i + 1;
      }
      SpliceIs(old(moves[..]), at, Scored(setup, kind), moves[..]);
    }

    /** The quiets from the cursor on; when they run out, what is left is the losers. */
    method WalkQuiets() returns (r: Option<Move>)
      requires Valid() && stage == GoodQuietStage
      modifies this`cur, this`endBadMoves, moves
      ensures r.Some? ==> Valid() && Popped(old(Agenda()), r, Agenda())
      ensures r == None ==> LosersReady() && old(Agenda()) == Words(moves[..endBadMoves])
    {
      hide *;
      QuietParts();
      ghost var s, l, k := Span(), moves[..endBadMoves], endBadCaptures;
      QuietsOpposite();
      r := SelectGood(GoodQuiet, BadQuiet);
      ghost var l' := moves[..endBadMoves];
      LosersShape(setup, BadQuiet, l, s, l', Span());
      QuietsPop(setup, s, l, r, Span(), l');
      QuietLosersGrow(setup, l, l', k);
      if r.Some? {
        QuietWhole();
      } else {
        LosersWhole();
      }
    }

    /** The quiet stage, part by part. */
    lemma QuietParts()
      requires Valid() && stage == GoodQuietStage
      ensures endBadCaptures <= endBadMoves <= cur <= moves.Length && endCur <= moves.Length
      ensures Pickable(setup) && moves.Length == MAX_MOVES && setup.firstStage == GoodCaptureStage
      ensures NoneTT(setup, moves[..endBadMoves]) && AllQuiets(setup, Span())
      ensures AllCaptures(setup, moves[..endBadMoves][..endBadCaptures]) &&
              AllQuiets(setup, moves[..endBadMoves][endBadCaptures..])
      ensures Agenda() == QuietAgenda(setup, Span(), moves[..endBadMoves])
    {
      assert moves[..endBadMoves][..endBadCaptures] == moves[..endBadCaptures];
      assert moves[..endBadMoves][endBadCaptures..] == moves[endBadCaptures..endBadMoves];
      hide AllCaptures, AllQuiets, NoneTT, QuietAgenda, Span, Pickable;
    }

    lemma QuietWhole()
      requires Pickable(setup) && moves.Length == MAX_MOVES && setup.firstStage == GoodCaptureStage &&
               stage == GoodQuietStage
      requires endBadCaptures <= endBadMoves <= cur <= MAX_MOVES && endCur <= MAX_MOVES
      requires NoneTT(setup, moves[..endBadMoves]) && AllQuiets(setup, Span())
      requires AllCaptures(setup, moves[..endBadMoves][..endBadCaptures]) &&
               AllQuiets(setup, moves[..endBadMoves][endBadCaptures..])
      ensures Valid() && Agenda() == QuietAgenda(setup, Span(), moves[..endBadMoves])
    {
      assert moves[..endBadMoves][..endBadCaptures] == moves[..endBadCaptures];
      assert moves[..endBadMoves][endBadCaptures..] == moves[endBadCaptures..endBadMoves];
      hide AllCaptures, AllQuiets, NoneTT, QuietAgenda, Span, Pickable;
    }

    lemma LosersWhole()
      requires Pickable(setup) && moves.Length == MAX_MOVES && setup.firstStage == GoodCaptureStage
      requires endBadCaptures <= endBadMoves <= MAX_MOVES && NoneTT(setup, moves[..endBadMoves])
      requires AllCaptures(setup, moves[..endBadMoves][..endBadCaptures]) &&
               AllQuiets(setup, moves[..endBadMoves][endBadCaptures..])
      ensures LosersReady()
    {
      assert moves[..endBadMoves][..endBadCaptures] == moves[..endBadCaptures];
      assert moves[..endBadMoves][endBadCaptures..] == moves[endBadCaptures..endBadMoves];
      hide AllCaptures, AllQuiets, NoneTT, Pickable;
    }

    /** The prefix holds the losers: the bad captures, then the bad quiets. */
    ghost predicate LosersReady()
      reads this, moves
    {
      && Pickable(setup) && moves.Length == MAX_MOVES && setup.firstStage == GoodCaptureStage
      && endBadCaptures <= endBadMoves <= MAX_MOVES && NoneTT(setup, moves[..endBadMoves])
      && AllCaptures(setup, moves[..endBadCaptures]) && AllQuiets(setup, moves[endBadCaptures..endBadMoves])
    }

    /** Replay the losers from the start of the buffer. */
    method Replay()
      requires LosersReady()
      modifies this`stage, this`cur, this`endCur
      ensures Valid() && stage == BadMovesStage && Agenda() == Words(moves[..endBadMoves])
    {
      cur := 0;
      endCur := endBadMoves;
      stage := BadMovesStage;
      Replayed(setup, moves[..endBadMoves]);
      assert Span() == moves[..endBadMoves];
    }

    /** What is left of a span that is taken whole. */
    method WalkRest() returns (r: Option<Move>)
      requires Valid() && (stage == BadMovesStage || stage == QSearchStage || stage == EvasionStage)
      modifies this`cur
      ensures Valid() && Popped(old(Agenda()), r, Agenda())
    {
      hide Popped, Keep, Words, Losing, QuietAgenda, MainAgenda, FirstAgenda;
      r := Select(AnyMove);
    }

    /** walk_lists: the four stages that only walk a list. */
    method WalkLists() returns (r: Option<Move>)
      requires Valid()
      requires stage == GoodQuietStage || stage == BadMovesStage || stage == QSearchStage || stage == EvasionStage
      modifies this`stage, this`cur, this`endCur, this`endBadMoves, moves
      ensures Valid() && Popped(old(Agenda()), r, Agenda())
    {
      hide *;
      if stage == GoodQuietStage {
        r := WalkQuiets();
        if r != None {
          return;
        }
        Replay();
      }
      r := WalkRest();
    }

    /** A list generated, scored and sorted from the start of the buffer. */
    method Fill(kind: ListKind)
      requires Pickable(setup) && moves.Length == MAX_MOVES
      modifies this`cur, this`endCur, moves
      ensures cur <= endCur == |ListOf(setup, kind)| <= MAX_MOVES && Span() == Sorted(Scored(setup, kind))
      ensures kind == CaptureList ==> AllCaptures(setup, Span())
    {
      cur := 0;
      hide Sorted, Scored, Splice;
      var count := ScoreList(kind, 0);
      ghost var scored := Scored(setup, kind);
      assert moves[..][0..count] == scored;
      endCur := count;
      SortAll(moves, 0, count);
      SortedRight(scored);
      assert Span() == moves[..][0..count] == Sorted(scored);
      ScoredMembers(setup, kind, Sorted(scored));
    }

    /** The first list; the stage moves on to the picker's own. */
    method FirstList()
      requires Valid() && stage == InitFirstStage
      modifies this`stage, this`cur, this`endCur, this`endBadMoves, moves
      ensures Valid() && stage == setup.firstStage && Agenda() == old(Agenda())
      ensures stage == GoodCaptureStage || stage == QSearchStage || stage == EvasionStage || stage == ProbCutStage
    {
      hide Keep, Words, Losing, QuietAgenda, Sorted, Scored;
      endBadMoves := 0;
      if setup.firstStage == EvasionStage {
        Fill(EvasionList);
      } else {
        Fill(CaptureList);
      }
      stage := setup.firstStage;
      assert moves[..0] == [];
    }

    /** The TT move, first and unchecked. */
    method TakeTT() returns (r: Option<Move>)
      requires Valid() && stage == TTMove
      modifies this`stage
      ensures Valid() && Popped(old(Agenda()), r, Agenda())
    {
      hide FirstAgenda;
      stage := InitFirstStage;
      return setup.tt;
    }

    /** The captures from the cursor on; when they run out, what is left is the quiets and the losers. */
    method WalkCaptures() returns (r: Option<Move>)
      requires Valid() && stage == GoodCaptureStage
      modifies this`cur, this`endBadMoves, moves
      ensures r.Some? ==> Valid() && Popped(old(Agenda()), r, Agenda())
      ensures r == None ==>
                && Pickable(setup) && moves.Length == MAX_MOVES && setup.firstStage == GoodCaptureStage
                && endBadMoves <= |setup.captures| && endBadMoves <= MAX_MOVES
                && AllCaptures(setup, moves[..endBadMoves]) && NoneTT(setup, moves[..endBadMoves])
                && old(Agenda()) == if skipQuiets then Words(moves[..endBadMoves])
                  else QuietAgenda(setup, SortedQuiets(setup), moves[..endBadMoves])
    {
      hide *;
      CaptureParts();
      ghost var s, l := Span(), moves[..endBadMoves];
      QuietsOpposite();
      r := SelectGood(GoodCapture, BadCapture);
      LosersShape(setup, BadCapture, l, s, moves[..endBadMoves], Span());
      CapturesPop(setup, s, l, r, Span(), moves[..endBadMoves], skipQuiets);
      if r.Some? {
        CaptureWhole();
      }
    }

    /** The capture stage, part by part. */
    lemma CaptureParts()
      requires Valid() && stage == GoodCaptureStage
      ensures Pickable(setup) && moves.Length == MAX_MOVES && setup.firstStage == GoodCaptureStage
      ensures endBadCaptures <= MAX_MOVES && endBadMoves <= cur <= endCur <= |setup.captures| <= MAX_MOVES
      ensures AllCaptures(setup, moves[..endBadMoves]) && NoneTT(setup, moves[..endBadMoves]) &&
              AllCaptures(setup, Span())
      ensures Agenda() == MainAgenda(setup, Span(), moves[..endBadMoves], skipQuiets)
    {
      hide AllCaptures, AllQuiets, NoneTT, MainAgenda, Span;
    }

    lemma CaptureWhole()
      requires Pickable(setup) && moves.Length == MAX_MOVES && setup.firstStage == GoodCaptureStage &&
               stage == GoodCaptureStage
      requires endBadCaptures <= MAX_MOVES && endBadMoves <= cur <= endCur <= |setup.captures| <= MAX_MOVES
      requires AllCaptures(setup, moves[..endBadMoves]) && NoneTT(setup, moves[..endBadMoves]) &&
               AllCaptures(setup, Span())
      ensures Valid() && Agenda() == MainAgenda(setup, Span(), moves[..endBadMoves], skipQuiets)
    {
      hide AllCaptures, AllQuiets, NoneTT, MainAgenda, Span, Pickable;
    }

    /** The quiets, generated over the captures already consumed, right behind the bad ones. */
    method QuietsOver()
      requires Pickable(setup) && moves.Length == MAX_MOVES && setup.firstStage == GoodCaptureStage
      requires endBadMoves == endBadCaptures <= |setup.captures|
      requires AllCaptures(setup, moves[..endBadMoves]) && NoneTT(setup, moves[..endBadMoves])
      modifies this`stage, this`cur, this`endCur, moves
      ensures Valid() && stage == GoodQuietStage
      ensures Agenda() == QuietAgenda(setup, SortedQuiets(setup), old(moves[..endBadMoves]))
    {
      hide *;
      BufferHolds(setup);
      ghost var l := moves[..endBadMoves];
      cur := endBadMoves;
      var count := ScoreList(QuietList, cur);
      ghost var base := moves[..];
      SpliceParts(old(moves[..]), cur, Scored(setup, QuietList), base);
      endCur := cur + count;
      PartialInsertionSort(moves, cur, count, -3560 * setup.depth);
      PartlySortedRight(Scored(setup, QuietList), -3560 * setup.depth);
      SpliceParts(base, cur, SortedQuiets(setup), moves[..]);
      stage := GoodQuietStage;
      SpanIs();
      assert moves[..endBadMoves] == l;
      assert moves[..endBadMoves][endBadCaptures..] == [] && moves[..endBadMoves][..endBadCaptures] == l;
      ScoredMembers(setup, QuietList, SortedQuiets(setup));
      NoQuiets(setup);
      QuietWhole();
    }

    lemma SpanIs()
      requires cur <= endCur <= moves.Length
      ensures Span() == moves[cur..endCur]
    {
    }

    method WalkProbCut() returns (r: Option<Move>)
      requires Valid() && stage == ProbCutStage
      modifies this`cur
      ensures Valid() && Popped(old(Agenda()), r, Agenda())
    {
      hide Popped, Keep, Words, Losing, QuietAgenda, MainAgenda, FirstAgenda;
      r := Select(ProbCutMove);
    }

    /** generate_stage: the TT move, the first list, and the two stages that filter through see_ge. */
    method GenerateStage() returns (r: Option<Move>)
      requires Valid()
      requires stage == TTMove || stage == InitFirstStage || stage == GoodCaptureStage || stage == ProbCutStage
      modifies this`stage, this`cur, this`endCur, this`endBadMoves, this`endBadCaptures, moves
      ensures Valid() && Popped(old(Agenda()), r, Agenda())
    {
      hide *;
      if stage == TTMove {
        r := TakeTT();
        return;
      }
      if stage == InitFirstStage {
        FirstList();
      }
      if stage == GoodCaptureStage {
        r := WalkCaptures();
        if r != None {
          return;
        }
        endBadCaptures := endBadMoves;
        if !skipQuiets {
          QuietsOver();
          r := WalkLists();
        } else {
          Replay();
          r := WalkRest();
        }
      } else if stage == ProbCutStage {
        r := WalkProbCut();
      } else {
        r := WalkRest();
      }
    }

    /** movepick_next: one more move of the agenda, or nothing when it is empty. */
    method Next() returns (r: Option<Move>)
      requires Valid()
      modifies this`stage, this`cur, this`endCur, this`endBadMoves, this`endBadCaptures, moves
      ensures Valid() && Popped(old(Agenda()), r, Agenda())
    {
      hide *;
      if stage == GoodQuietStage || stage == BadMovesStage || stage == QSearchStage || stage == EvasionStage {
        r := WalkLists();
      } else {
        r := GenerateStage();
      }
    }

    /** movepick_skip_quiets: whatever the stage, the captures still to come stay. */
    method SkipQuiets()
      requires Valid() && Distinct(setup)
      modifies this`skipQuiets, this`endCur, this`endBadMoves
      ensures Valid() && skipQuiets
      ensures Agenda() == if setup.firstStage == GoodCaptureStage then CapturesOnly(setup, old(Agenda()))
        else old(Agenda())
    {
      hide *;
      if stage == GoodQuietStage || stage == BadMovesStage {
        MainStage();
        if stage == GoodQuietStage {
          SkipQuietStage();
        } else {
          SkipReplay();
        }
      } else if stage == TTMove || stage == InitFirstStage {
        SkipAhead();
      } else if stage == GoodCaptureStage {
        MainStage();
        SkipLater();
      } else {
        SkipInert();
      }
    }

    lemma MainStage()
      requires Valid() && (stage == GoodCaptureStage || stage == GoodQuietStage || stage == BadMovesStage)
      ensures setup.firstStage == GoodCaptureStage
    {
    }

    /** The other pickers have no quiets to skip. */
    method SkipInert()
      requires Valid() && (stage == QSearchStage || stage == EvasionStage || stage == ProbCutStage)
      modifies this`skipQuiets
      ensures Valid() && skipQuiets && Agenda() == old(Agenda()) && setup.firstStage != GoodCaptureStage
    {
      skipQuiets := true;
    }

    /** Nothing is generated yet: the flag alone decides. */
    method SkipAhead()
      requires Valid() && Distinct(setup) && (stage == TTMove || stage == InitFirstStage)
      modifies this`skipQuiets
      ensures Valid() && skipQuiets
      ensures Agenda() == if setup.firstStage == GoodCaptureStage then CapturesOnly(setup, old(Agenda()))
        else old(Agenda())
    {
      hide FirstAgenda, CapturesOnly, Distinct;
      if stage == TTMove {
        TTKept(setup, FirstAgenda(setup, skipQuiets));
      }
      if setup.firstStage == GoodCaptureStage {
        FirstSkipped(setup, skipQuiets);
      } else {
        SkipElsewhere(setup, skipQuiets);
      }
      skipQuiets := true;
    }

    /** Captures are being walked: no quiets will be generated after them. */
    method SkipLater()
      requires Valid() && Distinct(setup) && stage == GoodCaptureStage
      modifies this`skipQuiets
      ensures Valid() && skipQuiets && Agenda() == CapturesOnly(setup, old(Agenda()))
    {
      hide MainAgenda, CapturesOnly, Distinct;
      MainSkipped(setup, Span(), moves[..endBadMoves], skipQuiets);
      skipQuiets := true;
    }

    method SkipQuietStage()
      requires Valid() && Distinct(setup) && stage == GoodQuietStage
      modifies this`skipQuiets, this`endCur, this`endBadMoves
      ensures Valid() && skipQuiets && Agenda() == CapturesOnly(setup, old(Agenda()))
    {
      ghost var captures, quiets := moves[..endBadCaptures], moves[endBadCaptures..endBadMoves];
      assert moves[..endBadMoves] == captures + quiets;
      assert NoneTT(setup, quiets) by {
        assert forall i :: 0 <= i < |quiets| ==> quiets[i] == moves[..endBadMoves][|captures| + i];
      }
      QuietsSkipped(setup, Span(), captures, quiets);
      skipQuiets := true;
      endCur := endBadCaptures;
      endBadMoves := endBadCaptures;
      assert Span() == [];
      KeepNothing(setup, GoodQuiet);
      KeepNothing(setup, BadQuiet);
      assert NoneTT(setup, captures) by {
        assert forall i :: 0 <= i < |captures| ==> captures[i] == (captures + quiets)[i];
      }
    }

    method SkipReplay()
      requires Valid() && Distinct(setup) && stage == BadMovesStage
      modifies this`skipQuiets, this`endCur, this`endBadMoves
      ensures Valid() && skipQuiets && Agenda() == CapturesOnly(setup, old(Agenda()))
    {
      ghost var captures, quiets := ReplayParts(setup, moves[..], cur, endBadCaptures, endCur);
      ReplaySkipped(setup, captures, quiets);
      hide Keep, Words, CapturesOnly, Distinct;
      skipQuiets := true;
      endCur := endBadCaptures;
      endBadMoves := endBadCaptures;
      assert Span() == captures;
    }
  }

  // ----- every interleaving of calls -----

  datatype Call = NextCall | SkipCall

  /** What a run of calls returns from an agenda. */
  function Returned(setup: Setup, agenda: seq<Move>, calls: seq<Call>): seq<Move>
    decreases calls
  {
    if calls == [] then []
    else if calls[0] == SkipCall then Returned(setup, AfterSkip(setup, agenda), calls[1..])
    else if agenda == [] then Returned(setup, agenda, calls[1..])
    else [agenda[0]] + Returned(setup, agenda[1..], calls[1..])
  }

  function AfterSkip(setup: Setup, agenda: seq<Move>): seq<Move> {
    if setup.firstStage == GoodCaptureStage then CapturesOnly(setup, agenda) else agenda
  }

  /** And what it leaves. */
  function Left(setup: Setup, agenda: seq<Move>, calls: seq<Call>): seq<Move>
    decreases calls
  {
    if calls == [] then agenda
    else if calls[0] == SkipCall then Left(setup, AfterSkip(setup, agenda), calls[1..])
    else if agenda == [] then Left(setup, agenda, calls[1..])
    else Left(setup, agenda[1..], calls[1..])
  }

  /** One call, and what it adds to the moves returned. */
  method Step(mp: MovePicker, call: Call) returns (out: seq<Move>)
    requires mp.Valid() && Distinct(mp.setup)
    modifies mp, mp.moves
    ensures mp.Valid()
    ensures forall rest ::
            Returned(mp.setup, old(mp.Agenda()), [call] + rest) == out + Returned(mp.setup, mp.Agenda(), rest)
    ensures forall rest :: Left(mp.setup, old(mp.Agenda()), [call] + rest) == Left(mp.setup, mp.Agenda(), rest)
  {
    ghost var agenda := mp.Agenda();
    hide Distinct, CapturesOnly;
    out := [];
    match call {
      case SkipCall => mp.SkipQuiets();
      case NextCall =>
        var r := mp.Next();
        if r.Some? {
          out := [r.value];
        }
    }
    forall rest
      ensures Returned(mp.setup, agenda, [call] + rest) == out + Returned(mp.setup, mp.Agenda(), rest)
      ensures Left(mp.setup, agenda, [call] + rest) == Left(mp.setup, mp.Agenda(), rest)
    {
      assert ([call] + rest)[0] == call && ([call] + rest)[1..] == rest;
    }
  }

  /** A caller's run: the picker returns what its agenda says, call by call. */
  method Drive(mp: MovePicker, calls: seq<Call>) returns (out: seq<Move>)
    requires mp.Valid() && Distinct(mp.setup)
    modifies mp, mp.moves
    ensures mp.Valid() && out == Returned(mp.setup, old(mp.Agenda()), calls) &&
            mp.Agenda() == Left(mp.setup, old(mp.Agenda()), calls)
  {
    hide *;
    out := [];
    ghost var agenda := mp.Agenda();
    var i := 0;
    assert calls[0..] == calls;
    while i < |calls|
      invariant 0 <= i <= |calls| && mp.Valid()
      invariant out + Returned(mp.setup, mp.Agenda(), calls[i..]) == Returned(mp.setup, agenda, calls)
      invariant Left(mp.setup, mp.Agenda(), calls[i..]) == Left(mp.setup, agenda, calls)
    {
      ghost var done, before := out, mp.Agenda();
      assert calls[i..] == [calls[i]] + calls[i + 1..];
      var more := Step(mp, calls[i]);
      assert Returned(mp.setup, before, [calls[i]] + calls[i + 1..]) ==
             more + Returned(mp.setup, mp.Agenda(), calls[i + 1..]);
      out := out + more;
      i := i + 1;
      assert done + (more + Returned(mp.setup, mp.Agenda(), calls[i..])) ==
             out + Returned(mp.setup, mp.Agenda(), calls[i..]);
    }
    assert calls[|calls|..] == [];
    RunDone(mp.setup, mp.Agenda());
  }

  lemma RunDone(setup: Setup, agenda: seq<Move>)
    ensures Returned(setup, agenda, []) == [] && Left(setup, agenda, []) == agenda
  {
  }

  /** m is neither returned nor kept more often than the agenda lists it, and once the picker is
      exhausted a capture has been returned as often as it was listed. */
  lemma {:induction false} RunCounts(setup: Setup, agenda: seq<Move>, calls: seq<Call>, m: Move)
    ensures Count(Returned(setup, agenda, calls), m) + Count(Left(setup, agenda, calls), m) <= Count(agenda, m)
    ensures m in setup.captures || SkipCall !in calls ==>
              Count(Returned(setup, agenda, calls), m) + Count(Left(setup, agenda, calls), m) == Count(agenda, m)
    decreases calls
  {
    hide CapturesOnly;
    if calls != [] {
      if calls[0] == SkipCall {
        SkipCounts(setup, agenda, m);
        RunCounts(setup, AfterSkip(setup, agenda), calls[1..], m);
      } else if agenda == [] {
        RunCounts(setup, agenda, calls[1..], m);
      } else {
        RunCounts(setup, agenda[1..], calls[1..], m);
        assert agenda == [agenda[0]] + agenda[1..];
      }
    }
  }

  lemma {:induction false} SkipCounts(setup: Setup, s: seq<Move>, m: Move)
    ensures Count(CapturesOnly(setup, s), m) <= Count(s, m)
    ensures Stays(setup, m) ==> Count(CapturesOnly(setup, s), m) == Count(s, m)
    ensures !Stays(setup, m) ==> Count(CapturesOnly(setup, s), m) == 0
  {
    hide Stays;
    if s != [] {
      SkipCounts(setup, s[1..], m);
      assert s == [s[0]] + s[1..];
    }
  }

  /** After a skip nothing but captures and the TT move is returned. */
  lemma {:induction false} SkippedReturns(setup: Setup, agenda: seq<Move>, before: seq<Call>, after: seq<Call>, m: Move)
    requires setup.firstStage == GoodCaptureStage
    requires m in Returned(setup, CapturesOnly(setup, Left(setup, agenda, before)), after)
    ensures Stays(setup, m)
  {
    var rest := CapturesOnly(setup, Left(setup, agenda, before));
    SkipCounts(setup, Left(setup, agenda, before), m);
    RunCounts(setup, rest, after, m);
    assert m in multiset(Returned(setup, rest, after));
  }

  // ----- what a fresh picker lists -----

  /** The two halves of a sieve share out the list, the TT move apart. */
  lemma {:induction false} KeepCounts(setup: Setup, good: Sieve, bad: Sieve, s: seq<ExtMove>, m: Move)
    requires Opposite(good, bad)
    ensures Count(Words(Keep(setup, good, s)), m) + Count(Words(Keep(setup, bad, s)), m) ==
            if setup.tt == Some(m) then 0 else Count(Words(s), m)
  {
    if s != [] {
      KeepCounts(setup, good, bad, s[1..], m);
      KeepHead(setup, good, s);
      KeepHead(setup, bad, s);
      assert Words(s) == [s[0].move] + Words(s[1..]);
      assert Passes(setup, bad, s[0]) <==> setup.tt != Some(s[0].move) && !Passes(setup, good, s[0]);
      hide Keep, Words, Passes;
    }
  }

  /** Every move but the TT move passes the open sieve. */
  lemma {:induction false} AnyCounts(setup: Setup, s: seq<ExtMove>, m: Move)
    ensures Count(Words(Keep(setup, AnyMove, s)), m) == if setup.tt == Some(m) then 0 else Count(Words(s), m)
  {
    if s != [] {
      AnyCounts(setup, s[1..], m);
      KeepHead(setup, AnyMove, s);
      assert Words(s) == [s[0].move] + Words(s[1..]);
      hide Keep, Words;
    }
  }

  lemma {:induction false} WordsCount(s: seq<ExtMove>, t: seq<ExtMove>, m: Move)
    requires multiset(s) == multiset(t)
    ensures Count(Words(s), m) == Count(Words(t), m)
    decreases |s|
  {
    if s == [] {
      assert |t| == |multiset(t)| == 0;
    } else {
      assert s[0] in multiset(t);
      var i :| 0 <= i < |t| && t[i] == s[0];
      WordsWithout(s, 0, m);
      WordsWithout(t, i, m);
      assert s[..0] + s[1..] == s[1..];
      var t' := t[..i] + t[i + 1..];
      assert multiset(s[1..]) == multiset(s) - multiset{s[0]};
      assert multiset(t') == multiset(t) - multiset{s[0]};
      WordsCount(s[1..], t[..i] + t[i + 1..], m);
    }
  }

  lemma WordsWithout(s: seq<ExtMove>, i: nat, m: Move)
    requires i < |s|
    ensures multiset(s) == multiset{s[i]} + multiset(s[..i] + s[i + 1..])
    ensures Count(Words(s), m) == Bit(s[i].move == m) + Count(Words(s[..i] + s[i + 1..]), m)
  {
    assert s == s[..i] + [s[i]] + s[i + 1..];
    assert Words(s) == Words(s[..i]) + [s[i].move] + Words(s[i + 1..]);
    WordsJoin(s[..i], s[i + 1..]);
  }

  lemma ScoredWords(setup: Setup, kind: ListKind)
    ensures Words(Scored(setup, kind)) == ListOf(setup, kind)
  {
  }

  lemma JoinCounts(a: seq<Move>, b: seq<Move>, m: Move)
    ensures Count(a + b, m) == Count(a, m) + Count(b, m)
  {
  }

  /** The main picker lists every capture and every quiet once, the TT move apart. */
  lemma MainCounts(setup: Setup, m: Move)
    requires setup.firstStage == GoodCaptureStage
    ensures Count(FirstAgenda(setup, false), m) ==
            if setup.tt == Some(m) then 0 else Count(setup.captures, m) + Count(setup.quiets, m)
  {
    MainShape(setup);
    ListCounts(setup, m);
    hide *;
    var captures, quiets := Sorted(Scored(setup, CaptureList)), SortedQuiets(setup);
    KeepCounts(setup, GoodCapture, BadCapture, captures, m);
    KeepCounts(setup, GoodQuiet, BadQuiet, quiets, m);
    var good, bad := Keep(setup, GoodCapture, captures), Keep(setup, BadCapture, captures);
    var goodQ, badQ := Keep(setup, GoodQuiet, quiets), Keep(setup, BadQuiet, quiets);
    WordsJoin(bad, badQ);
    JoinCounts(Words(bad), Words(badQ), m);
    JoinCounts(Words(goodQ), Words(bad + badQ), m);
    JoinCounts(Words(good), Words(goodQ) + Words(bad + badQ), m);
  }

  lemma MainShape(setup: Setup)
    requires setup.firstStage == GoodCaptureStage
    ensures Opposite(GoodCapture, BadCapture) && Opposite(GoodQuiet, BadQuiet)
    ensures var captures, quiets := Sorted(Scored(setup, CaptureList)), SortedQuiets(setup);
            FirstAgenda(setup, false) ==
            Words(Keep(setup, GoodCapture, captures))
            + (Words(Keep(setup, GoodQuiet, quiets)) +
                Words(Keep(setup, BadCapture, captures) + Keep(setup, BadQuiet, quiets)))
  {
    hide Words, Keep, Sorted, SortedQuiets, Scored;
    var bad := Keep(setup, BadCapture, Sorted(Scored(setup, CaptureList)));
    assert [] + bad == bad;
  }

  lemma ListCounts(setup: Setup, m: Move)
    ensures Count(Words(Sorted(Scored(setup, CaptureList))), m) == Count(setup.captures, m)
    ensures Count(Words(SortedQuiets(setup)), m) == Count(setup.quiets, m)
  {
    SortedRight(Scored(setup, CaptureList));
    PartlySortedRight(Scored(setup, QuietList), -3560 * setup.depth);
    ScoredWords(setup, CaptureList);
    ScoredWords(setup, QuietList);
    hide Words, Sorted, PartlySorted, Scored, Count, Descending, RunOf;
    WordsCount(Sorted(Scored(setup, CaptureList)), Scored(setup, CaptureList), m);
    WordsCount(SortedQuiets(setup), Scored(setup, QuietList), m);
  }

  /** The evasion and quiescence pickers list their one list. */
  lemma PlainCounts(setup: Setup, m: Move)
    requires setup.firstStage == EvasionStage || setup.firstStage == QSearchStage
    ensures Count(FirstAgenda(setup, false), m) ==
            if setup.tt == Some(m) then 0
            else Count(if setup.firstStage == EvasionStage then setup.evasions else setup.captures, m)
  {
    var kind := if setup.firstStage == EvasionStage then EvasionList else CaptureList;
    SortedRight(Scored(setup, kind));
    ScoredWords(setup, kind);
    hide Words, Keep, Sorted, Scored, Count, Descending;
    WordsCount(Sorted(Scored(setup, kind)), Scored(setup, kind), m);
    AnyCounts(setup, Sorted(Scored(setup, kind)), m);
  }
}
