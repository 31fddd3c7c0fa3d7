/** The threat delta of threats.c: which (attacker, target) pairs appear and disappear when one
    piece is put on or taken off a square. */
module Threats {
  import opened Squares
  import opened Types
  import opened Board
  import opened Attacks
  import opened Pins
  import opened Derived

  datatype DirtyThreat = DirtyThreat(
    add: bool, pc: Piece, threatenedPc: Piece, pcSq: Square, threatenedSq: Square)

  /** The (attacker, target) kinds that are threat features. */
  predicate Feature(attacker: PieceType, target: PieceType) {
    && attacker != King && target != King
    && match attacker
       case Pawn => target == Knight || target == Rook
       case Bishop => target != Queen
       case Rook => target != Queen
       case _ => true
  }

  /** The network's own table of (attacker, target) kinds: the slot of a pair, or -1 for a pair it
      has no feature for. */
  const FULL_MAP: seq<seq<int>> :=
    [[-1, 0, -1, 1, -1, -1], [0, 1, 2, 3, 4, -1], [0, 1, 2, 3, -1, -1],
     [0, 1, 2, 3, -1, -1], [0, 1, 2, 3, 4, -1], [-1, -1, -1, -1, -1, -1]]

  /** What the scan records is what the network has a feature for, and nothing else. */
  lemma FeatureMapped(attacker: PieceType, target: PieceType)
    ensures 0 < TypeIndex(attacker) <= 6 && 0 < TypeIndex(target) <= 6
    ensures Feature(attacker, target) <==> FULL_MAP[TypeIndex(attacker) - 1][TypeIndex(target) - 1] >= 0
  {
  }

  /** The threat relation itself: the piece on w.pcSq attacks the piece on w.threatenedSq. */
  predicate Threat(b: Board, w: DirtyThreat) {
    && w.pc.Piece? && w.threatenedPc.Piece?
    && b[w.pcSq] == w.pc && b[w.threatenedSq] == w.threatenedPc
    && Feature(w.pc.kind, w.threatenedPc.kind)
    && Hits(w.pc, w.pcSq, w.threatenedSq, Occupied(b))
  }

  function Bit(p: bool): nat {
    if p then 1 else 0
  }

  /** Additions minus removals of the pair w, whatever its sign bit says. */
  function Net(list: seq<DirtyThreat>, w: DirtyThreat): int {
    multiset(list)[w.(add := true)] as int - multiset(list)[w.(add := false)] as int
  }

  /** The squares of the ray that leaves s1 through s2: between them, s2 and beyond. */
  predicate OnRay(s1: Square, s2: Square, x: Square) {
    Inside(s1, x, s2) || (x == s2 && (RookLine(s1, s2) || BishopLine(s1, s2))) || Inside(s1, s2, x)
  }

  function RayPassBB(s1: Square, s2: Square): Bitboard {
    set x: Square | OnRay(s1, s2, x)
  }

  // ----- what one scan records -----

  /** pc on s threatens w's target. */
  predicate Outgoing(b: Board, pc: Piece, s: Square, w: DirtyThreat) {
    && pc.Piece? && w.pc == pc && w.pcSq == s
    && w.threatenedPc.Piece? && b[w.threatenedSq] == w.threatenedPc
    && Feature(pc.kind, w.threatenedPc.kind)
    && Hits(pc, s, w.threatenedSq, Occupied(b))
  }

  /** w's attacker threatens pc on s. */
  predicate Incoming(b: Board, pc: Piece, s: Square, w: DirtyThreat) {
    && pc.Piece? && w.threatenedPc == pc && w.threatenedSq == s
    && w.pc.Piece? && b[w.pcSq] == w.pc
    && Feature(w.pc.kind, pc.kind)
    && Hits(w.pc, w.pcSq, s, Occupied(b))
  }

  /** With s lifted off the board, w's slider would see w's target through it. */
  predicate Discovers(b: Board, s: Square, w: DirtyThreat) {
    && w.pc.Piece? && b[w.pcSq] == w.pc && Slides(w.pc.kind) && Hits(w.pc, w.pcSq, s, Occupied(b))
    && w.threatenedPc.Piece? && b[w.threatenedSq] == w.threatenedPc
    && Feature(w.pc.kind, w.threatenedPc.kind)
    && Inside(w.pcSq, s, w.threatenedSq) && Clear(s, w.threatenedSq, Occupied(b))
  }

  /** The discoveries the no-rays mask lets through. */
  predicate Recorded(b: Board, s: Square, noRays: Bitboard, w: DirtyThreat) {
    Discovers(b, s, w) && RayPassBB(w.pcSq, s) * noRays != noRays
  }

  predicate Scanned(b: Board, pc: Piece, put: bool, s: Square, computeRay: bool, noRays: Bitboard, w: DirtyThreat) {
    || (w.add == put && (Outgoing(b, pc, s, w) || Incoming(b, pc, s, w)))
    || (w.add != put && computeRay && Recorded(b, s, noRays, w))
  }

  // ----- the scan -----

  predicate CanSliderThreat(pc: Piece, slider: Piece)
    requires pc.Piece? && slider.Piece?
  {
    pc.kind != Queen || slider.kind == Queen
  }

  /** What lies behind s on the slider's ray: at most one piece, kings left out. */
  function Discovered(b: Board, s: Square, sliderSq: Square): Bitboard {
    RayPassBB(sliderSq, s)
    * (BothAttacksBB(s, Occupied(b)).rook + BothAttacksBB(s, Occupied(b)).bishop)
    * Xor(Occupied(b), OfType(b, King))
  }

  lemma DiscoveredMember(b: Board, s: Square, a: Square, t: Square)
    requires b[a].Piece? && Slides(b[a].kind) && Hits(b[a], a, s, Occupied(b))
    ensures t in Discovered(b, s, a) <==>
              Inside(a, s, t) && Clear(s, t, Occupied(b)) && b[t].Piece? && b[t].kind != King
  {
    hide Inside, RookLine, BishopLine;
    if Inside(a, s, t) {
      InsideSym(a, s, t);
      InsideKind(t, s, a);
      LineSym(s, t);
      LineSym(t, s);
      LineSym(a, t);
    }
    assert b[t] != NoPiece <==> t in Occupied(b);
    assert RookLine(s, t) ==> s != t by { LineDistinct(s, t); }
    assert BishopLine(s, t) ==> s != t by { LineDistinct(s, t); }
  }

  lemma LineDistinct(s: Square, t: Square)
    ensures RookLine(s, t) || BishopLine(s, t) ==> s != t
  {
  }

  lemma DiscoveredUnique(b: Board, s: Square, a: Square, t: Square, u: Square)
    requires b[a].Piece? && Slides(b[a].kind) && Hits(b[a], a, s, Occupied(b))
    requires t in Discovered(b, s, a) && u in Discovered(b, s, a)
    ensures t == u
  {
    DiscoveredMember(b, s, a, t);
    DiscoveredMember(b, s, a, u);
    hide Inside, RookLine, BishopLine, Discovered;
    assert t in Occupied(b) && u in Occupied(b);
    if t != u {
      InsideBeyond(a, s, t, u);
    }
  }

  /** Past s on the ray from a, one of two squares hides the other. */
  lemma InsideBeyond(a: Square, s: Square, t: Square, u: Square)
    requires Inside(a, s, t) && Inside(a, s, u) && t != u
    ensures Inside(s, t, u) || Inside(s, u, t)
  {
    Coords(a); Coords(s); Coords(t); Coords(u);
    hide File, Rank;
  }

  predicate DirectSlider(b: Board, pc: Piece, s: Square, w: DirtyThreat) {
    && pc.Piece? && w.threatenedPc == pc && w.threatenedSq == s
    && w.pc.Piece? && b[w.pcSq] == w.pc && Slides(w.pc.kind)
    && CanSliderThreat(pc, w.pc) && Hits(w.pc, w.pcSq, s, Occupied(b))
  }

  /** The sliders that attack s, each with its discovery and, on request, its direct threat. */
  method ProcessSliders(b: Board, list: seq<DirtyThreat>, slidersIn: Bitboard, s: Square, pc: Piece,
                        put: bool, noRays: Bitboard, sliderAttacks: DualAttacks, occupiedNoK: Bitboard,
                        addDirect: bool)
    returns (r: seq<DirtyThreat>)
    requires pc.Piece?
    requires sliderAttacks == BothAttacksBB(s, Occupied(b))
    requires occupiedNoK == Xor(Occupied(b), OfType(b, King))
    requires forall a: Square :: a in slidersIn <==> b[a].Piece? && Slides(b[a].kind) && Hits(b[a], a, s, Occupied(b))
    ensures forall w: DirtyThreat ::
      multiset(r)[w] == multiset(list)[w]
                        + Bit(w.add != put && Recorded(b, s, noRays, w))
                        + Bit(w.add == put && addDirect && DirectSlider(b, pc, s, w))
    ensures |r| <= |list| + if addDirect then 2 * |slidersIn| else |slidersIn|
  {
    r := list;
    var sliders := slidersIn;
    while sliders != {}
      invariant sliders <= slidersIn
      invariant forall w: DirtyThreat ::
        multiset(r)[w] == multiset(list)[w]
                          + Bit(w.pcSq !in sliders && w.add != put && Recorded(b, s, noRays, w))
                          + Bit(w.pcSq !in sliders && w.add == put && addDirect && DirectSlider(b, pc, s, w))
      invariant addDirect ==> |r| + 2 * |sliders| <= |list| + 2 * |slidersIn|
      invariant !addDirect ==> |r| + |sliders| <= |list| + |slidersIn|
    {
      var sliderSq := Lsb(sliders);
      sliders := sliders - {sliderSq};
      hide Recorded, DirectSlider, Hits, BothAttacksBB;
      r := ProcessSlider(b, r, sliderSq, s, pc, put, noRays, sliderAttacks, occupiedNoK, addDirect);
    }
  }

  /** One turn of that loop. */
  method ProcessSlider(b: Board, list: seq<DirtyThreat>, sliderSq: Square, s: Square, pc: Piece,
                       put: bool, noRays: Bitboard, sliderAttacks: DualAttacks, occupiedNoK: Bitboard,
                       addDirect: bool)
    returns (r: seq<DirtyThreat>)
    requires pc.Piece?
    requires sliderAttacks == BothAttacksBB(s, Occupied(b))
    requires occupiedNoK == Xor(Occupied(b), OfType(b, King))
    requires b[sliderSq].Piece? && Slides(b[sliderSq].kind) && Hits(b[sliderSq], sliderSq, s, Occupied(b))
    ensures forall w: DirtyThreat ::
      multiset(r)[w] == multiset(list)[w]
                        + Bit(w.pcSq == sliderSq && w.add != put && Recorded(b, s, noRays, w))
                        + Bit(w.pcSq == sliderSq && w.add == put && addDirect && DirectSlider(b, pc, s, w))
    ensures |r| <= |list| + if addDirect then 2 else 1
  {
    r := list;
    var slider := b[sliderSq];
    var ray := RayPassBB(sliderSq, s);
    var discovered := ray * (sliderAttacks.rook + sliderAttacks.bishop) * occupiedNoK;
    DiscoveryEntry(b, s, sliderSq, noRays, put);
    DirectEntry(b, s, pc, sliderSq, put);
    hide Recorded, DirectSlider, RayPassBB, AttacksBB, Hits, Discovered, BothAttacksBB;
    if discovered != {} && ray * noRays != noRays {
      var tsq := Lsb(discovered);
      var tpc := b[tsq];
      if CanSliderThreat(tpc, slider) {
        r := r + [DirtyThreat(!put, slider, tpc, sliderSq, tsq)];
      }
    }
    if addDirect && CanSliderThreat(pc, slider) {
      r := r + [DirtyThreat(put, slider, pc, sliderSq, s)];
    }
  }

  /** One slider has at most one discovery, and it is the entry the loop appends. */
  lemma DiscoveryEntry(b: Board, s: Square, a: Square, noRays: Bitboard, put: bool)
    requires b[a].Piece? && Slides(b[a].kind) && Hits(b[a], a, s, Occupied(b))
    ensures var d := Discovered(b, s, a);
            d != {} ==>
              var t := Lsb(d);
              && b[t].Piece?
              && forall w: DirtyThreat :: w.pcSq == a && w.add != put ==>
                   (Recorded(b, s, noRays, w) <==>
                    && RayPassBB(a, s) * noRays != noRays && CanSliderThreat(b[t], b[a])
                    && w == DirtyThreat(!put, b[a], b[t], a, t))
    ensures Discovered(b, s, a) == {} ==>
              forall w: DirtyThreat :: w.pcSq == a ==> !Recorded(b, s, noRays, w)
  {
    var d := Discovered(b, s, a);
    forall t: Square
      ensures t in d <==> Inside(a, s, t) && Clear(s, t, Occupied(b)) && b[t].Piece? && b[t].kind != King
    {
      DiscoveredMember(b, s, a, t);
    }
    forall t: Square, u: Square | t in d && u in d
      ensures t == u
    {
      DiscoveredUnique(b, s, a, t, u);
    }
    hide Inside, RayPassBB, Discovered, Clear;
  }

  lemma DirectEntry(b: Board, s: Square, pc: Piece, a: Square, put: bool)
    requires pc.Piece? && b[a].Piece? && Slides(b[a].kind) && Hits(b[a], a, s, Occupied(b))
    ensures forall w: DirtyThreat :: w.pcSq == a && w.add == put ==>
              (DirectSlider(b, pc, s, w) <==> CanSliderThreat(pc, b[a]) && w == DirtyThreat(put, b[a], pc, a, s))
  {
  }

  predicate OutgoingEntry(b: Board, put: bool, pc: Piece, s: Square, threatened: Bitboard, w: DirtyThreat) {
    w.threatenedSq in threatened && w == DirtyThreat(put, pc, b[w.threatenedSq], s, w.threatenedSq)
  }

  predicate IncomingEntry(b: Board, put: bool, pc: Piece, s: Square, incoming: Bitboard, w: DirtyThreat) {
    w.pcSq in incoming && w == DirtyThreat(put, b[w.pcSq], pc, w.pcSq, s)
  }

  /** pc on s threatens the piece on each of these squares. */
  method EmitOutgoing(b: Board, list: seq<DirtyThreat>, put: bool, pc: Piece, s: Square, threatenedIn: Bitboard)
    returns (r: seq<DirtyThreat>)
    ensures forall w: DirtyThreat ::
      multiset(r)[w] == multiset(list)[w]
                        + Bit(OutgoingEntry(b, put, pc, s, threatenedIn, w))
    ensures |r| == |list| + |threatenedIn|
  {
    r := list;
    var threatened := threatenedIn;
    while threatened != {}
      invariant threatened <= threatenedIn
      invariant forall w: DirtyThreat ::
        multiset(r)[w] == multiset(list)[w]
                          + Bit(OutgoingEntry(b, put, pc, s, threatenedIn - threatened, w))
      invariant |r| + |threatened| == |list| + |threatenedIn|
    {
      var tsq := Lsb(threatened);
      threatened := threatened - {tsq};
      r := r + [DirtyThreat(put, pc, b[tsq], s, tsq)];
    }
  }

  /** The piece on each of these squares threatens pc on s. */
  method EmitIncoming(b: Board, list: seq<DirtyThreat>, put: bool, pc: Piece, s: Square, incomingIn: Bitboard)
    returns (r: seq<DirtyThreat>)
    ensures forall w: DirtyThreat ::
      multiset(r)[w] == multiset(list)[w]
                        + Bit(IncomingEntry(b, put, pc, s, incomingIn, w))
    ensures |r| == |list| + |incomingIn|
  {
    r := list;
    var incoming := incomingIn;
    while incoming != {}
      invariant incoming <= incomingIn
      invariant forall w: DirtyThreat ::
        multiset(r)[w] == multiset(list)[w]
                          + Bit(IncomingEntry(b, put, pc, s, incomingIn - incoming, w))
      invariant |r| + |incoming| == |list| + |incomingIn|
    {
      var src := Lsb(incoming);
      incoming := incoming - {src};
      r := r + [DirtyThreat(put, b[src], pc, src, s)];
    }
  }

  /** The squares pc on s threatens, masked to the features. */
  function ThreatenedMask(byType: seq<Bitboard>, pc: Piece, s: Square, sliderAttacks: DualAttacks): Bitboard
    requires |byType| == 7 && pc.Piece? && pc.kind != King
  {
    var occupiedNoK := Xor(byType[0], byType[TypeIndex(King)]);
    var raw := match pc.kind
      case Pawn => PawnAttacksBB(pc.color, s)
      case Bishop => sliderAttacks.bishop
      case Rook => sliderAttacks.rook
      case Queen => sliderAttacks.rook + sliderAttacks.bishop
      case Knight => AttacksBB(Knight, s, {});
    match pc.kind
    case Pawn => raw * occupiedNoK * (byType[TypeIndex(Knight)] + byType[TypeIndex(Rook)])
    case Bishop => raw * occupiedNoK * (byType[TypeIndex(Pawn)] + byType[TypeIndex(Knight)] +
        byType[TypeIndex(Bishop)] + byType[TypeIndex(Rook)])
    case Rook => raw * occupiedNoK * (byType[TypeIndex(Pawn)] + byType[TypeIndex(Knight)] + byType[TypeIndex(Bishop)] +
        byType[TypeIndex(Rook)])
    case _ => raw * occupiedNoK
  }

  /** The leapers that threaten pc on s: knights always, pawns only when pc is a knight or a rook. */
  function LeaperMask(byType: seq<Bitboard>, byColor: seq<Bitboard>, pc: Piece, s: Square): Bitboard
    requires |byType| == 7 && |byColor| == 2 && pc.Piece?
  {
    var whitePawns := byColor[ColorIndex(White)] * byType[TypeIndex(Pawn)];
    var blackPawns := byColor[ColorIndex(Black)] * byType[TypeIndex(Pawn)];
    AttacksBB(Knight, s, {}) * byType[TypeIndex(Knight)]
    + if pc.kind == Knight || pc.kind == Rook then
        (PawnAttacksBB(White, s) * blackPawns) + (PawnAttacksBB(Black, s) * whitePawns)
      else {}
  }

  function SliderMask(byType: seq<Bitboard>, sliderAttacks: DualAttacks): Bitboard
    requires |byType| == 7
  {
    ((byType[TypeIndex(Rook)] + byType[TypeIndex(Queen)]) * sliderAttacks.rook)
    + ((byType[TypeIndex(Bishop)] + byType[TypeIndex(Queen)]) * sliderAttacks.bishop)
  }

  lemma ThreatenedMaskExact(b: Board, byType: seq<Bitboard>, byColor: seq<Bitboard>, pieceCount: seq<int>,
                            pc: Piece, s: Square, t: Square)
    requires Synced(b, byType, byColor, pieceCount) && pc.Piece? && pc.kind != King
    ensures t in ThreatenedMask(byType, pc, s, BothAttacksBB(s, Occupied(b)))
            <==> b[t].Piece? && Feature(pc.kind, b[t].kind) && Hits(pc, s, t, Occupied(b))
  {
    hide Clear, RookLine, BishopLine, PawnStep, KnightStep;
  }

  lemma LeaperMaskExact(b: Board, byType: seq<Bitboard>, byColor: seq<Bitboard>, pieceCount: seq<int>,
                        pc: Piece, s: Square, a: Square)
    requires Synced(b, byType, byColor, pieceCount) && pc.Piece? && pc.kind != King
    ensures a in LeaperMask(byType, byColor, pc, s)
            <==> b[a].Piece? && !Slides(b[a].kind) && Feature(b[a].kind, pc.kind) && Hits(b[a], a, s, Occupied(b))
  {
    LeapsBack(a, s);
    assert forall kind: PieceType :: a in byType[TypeIndex(kind)] <==> b[a].Piece? && b[a].kind == kind;
    assert byColor[ColorIndex(White)] == OfColor(b, White) && byColor[ColorIndex(Black)] == OfColor(b, Black);
    hide Clear, RookLine, BishopLine, PawnStep, KnightStep, Synced, TypesSynced, ColorsSynced, CountsSynced, Occupied;
  }

  lemma LeapsBack(a: Square, s: Square)
    ensures KnightStep(a, s) <==> KnightStep(s, a)
    ensures PawnStep(White, a, s) <==> PawnStep(Black, s, a)
    ensures PawnStep(White, s, a) <==> PawnStep(Black, a, s)
  {
  }

  lemma SliderMaskExact(b: Board, byType: seq<Bitboard>, byColor: seq<Bitboard>, pieceCount: seq<int>,
                        s: Square, a: Square)
    requires Synced(b, byType, byColor, pieceCount)
    ensures a in SliderMask(byType, BothAttacksBB(s, Occupied(b)))
            <==> b[a].Piece? && Slides(b[a].kind) && Hits(b[a], a, s, Occupied(b))
  {
    LineSym(a, s);
    ClearSym(a, s, Occupied(b));
    hide Clear, RookLine, BishopLine;
  }

  // ----- how much one scan can record -----

  /** An injection into n slots bounds the size. */
  lemma {:induction false} Pigeonhole(s: Bitboard, slot: Square -> int, n: nat)
    requires forall x: Square :: x in s ==> 0 <= slot(x) < n
    requires forall x: Square, y: Square :: x in s && y in s && slot(x) == slot(y) ==> x == y
    ensures |s| <= n
  {
    if n == 0 {
      assert forall x: Square :: x !in s;
      assert s == {};
    } else if x: Square :| x in s && slot(x) == n - 1 {
      Pigeonhole(s - {x}, slot, n - 1);
    } else {
      Pigeonhole(s, slot, n - 1);
    }
  }

  function Sign(i: int): int {
    if i < 0 then 0 else if i == 0 then 1 else 2
  }

  /** Which of the eight rays from s leads to t: the centre slot is moved out of the way. */
  function RaySlot(s: Square, t: Square): int {
    var i := 3 * Sign(File(t) - File(s)) + Sign(Rank(t) - Rank(s));
    if i == 8 then 4 else i
  }

  function KnightSlot(s: Square, t: Square): int {
    (if Abs(File(t) - File(s)) == 1 then 4 else 0) + (if File(t) > File(s) then 2 else 0) +
      (if Rank(t) > Rank(s) then 1 else 0)
  }

  /** The pieces in plain view from s along the eight rays. */
  function InView(b: Board, s: Square): Bitboard {
    set t: Square | (RookLine(s, t) || BishopLine(s, t)) && Clear(s, t, Occupied(b)) && b[t] != NoPiece
  }

  lemma SameRay(s: Square, t: Square, u: Square)
    requires (RookLine(s, t) || BishopLine(s, t)) && (RookLine(s, u) || BishopLine(s, u))
    requires RaySlot(s, t) == RaySlot(s, u) && t != u
    ensures Inside(s, t, u) || Inside(s, u, t)
  {
    Coords(s); Coords(t); Coords(u);
    hide File, Rank;
  }

  lemma RaySlotRange(s: Square, t: Square)
    requires RookLine(s, t) || BishopLine(s, t)
    ensures 0 <= RaySlot(s, t) < 8
  {
    Coords(s); Coords(t);
    hide File, Rank;
  }

  lemma AtMostEightInView(b: Board, s: Square)
    ensures |InView(b, s)| <= 8
  {
    var v := InView(b, s);
    var slot := (t: Square) => RaySlot(s, t);
    forall t: Square | t in v
      ensures 0 <= slot(t) < 8
    {
      RaySlotRange(s, t);
    }
    forall t: Square, u: Square | t in v && u in v && slot(t) == slot(u)
      ensures t == u
    {
      assert t in Occupied(b) && u in Occupied(b);
      hide RaySlot, Inside, RookLine, BishopLine;
      if t != u {
        SameRay(s, t, u);
      }
    }
    hide RaySlot, Inside, RookLine, BishopLine, InView;
    Pigeonhole(v, slot, 8);
  }

  lemma AtMostEightKnights(s: Square)
    ensures |AttacksBB(Knight, s, {})| <= 8
  {
    var v := AttacksBB(Knight, s, {});
    var slot := (t: Square) => KnightSlot(s, t);
    forall t: Square, u: Square | t in v && u in v && slot(t) == slot(u)
      ensures t == u
    {
      Coords(s); Coords(t); Coords(u);
      hide File, Rank;
    }
    Pigeonhole(v, slot, 8);
  }

  lemma AtMostTwoPawnTargets(c: Color, s: Square)
    ensures |PawnAttacksBB(c, s)| <= 2
  {
    var v := PawnAttacksBB(c, s);
    var slot := (t: Square) => if File(t) > File(s) then 1 else 0;
    forall t: Square, u: Square | t in v && u in v && slot(t) == slot(u)
      ensures t == u
    {
      Coords(s); Coords(t); Coords(u);
      hide File, Rank;
    }
    Pigeonhole(v, slot, 2);
  }

  lemma SubsetSize(a: Bitboard, b: Bitboard)
    requires a <= b
    ensures |a| <= |b|
  {
    assert b == a + (b - a);
  }

  lemma UnionSize(a: Bitboard, b: Bitboard)
    ensures |a + b| <= |a| + |b|
    ensures a !! b ==> |a + b| == |a| + |b|
  {
    assert a + b == a + (b - a);
    SubsetSize(b - a, b);
    assert a !! b ==> b - a == b;
  }

  /** Eight targets at most (two for a pawn), eight sliders, and sixteen attackers in all. */
  lemma ScanSizes(b: Board, byType: seq<Bitboard>, byColor: seq<Bitboard>, pieceCount: seq<int>, pc: Piece, s: Square)
    requires Synced(b, byType, byColor, pieceCount) && pc.Piece? && pc.kind != King
    ensures var dual := BothAttacksBB(s, Occupied(b));
            && |ThreatenedMask(byType, pc, s, dual)| <= (if pc.kind == Pawn then 2 else 8)
            && |SliderMask(byType, dual)| <= 8
            && |SliderMask(byType, dual)| + |LeaperMask(byType, byColor, pc, s)| <= 16
            && (pc.kind == Pawn ==> |LeaperMask(byType, byColor, pc, s)| <= 8)
  {
    var dual := BothAttacksBB(s, Occupied(b));
    var view := InView(b, s);
    var sliders := SliderMask(byType, dual);
    var leapers := LeaperMask(byType, byColor, pc, s);
    var pawns := leapers - AttacksBB(Knight, s, {});
    AtMostEightInView(b, s);
    SlidersInView(b, byType, byColor, pieceCount, s);
    PawnsInView(b, byType, byColor, pieceCount, pc, s);
    assert pc.kind == Pawn ==> pawns == {};
    TargetsBounded(b, byType, byColor, pieceCount, pc, s);
    hide ThreatenedMask, SliderMask, LeaperMask, BothAttacksBB, InView, Synced, AttacksBB;
    SubsetSize(sliders, view);
    KnightsAside(leapers, s);
    UnionSize(sliders, pawns);
    SubsetSize(sliders + pawns, view);
  }

  lemma KnightsAside(leapers: Bitboard, s: Square)
    ensures |leapers| <= 8 + |leapers - AttacksBB(Knight, s, {})|
  {
    var all := AttacksBB(Knight, s, {});
    AtMostEightKnights(s);
    hide AttacksBB;
    var knights := leapers * all;
    SubsetSize(knights, all);
    UnionSize(knights, leapers - all);
    assert leapers == knights + (leapers - all);
  }

  lemma SlidersInView(b: Board, byType: seq<Bitboard>, byColor: seq<Bitboard>, pieceCount: seq<int>, s: Square)
    requires Synced(b, byType, byColor, pieceCount)
    ensures SliderMask(byType, BothAttacksBB(s, Occupied(b))) <= InView(b, s)
  {
    hide RookLine, BishopLine, Clear;
  }

  lemma PawnsInView(b: Board, byType: seq<Bitboard>, byColor: seq<Bitboard>, pieceCount: seq<int>, pc: Piece, s: Square)
    requires Synced(b, byType, byColor, pieceCount) && pc.Piece? && pc.kind != King
    ensures var pawns := LeaperMask(byType, byColor, pc, s) - AttacksBB(Knight, s, {});
            pawns <= InView(b, s) && pawns !! SliderMask(byType, BothAttacksBB(s, Occupied(b)))
  {
    var pawns := LeaperMask(byType, byColor, pc, s) - AttacksBB(Knight, s, {});
    forall a: Square | a in pawns
      ensures a in InView(b, s) && b[a].Piece? && b[a].kind == Pawn
    {
      assert KingStep(s, a);
      KingStepClear(s, a);
      hide RookLine, BishopLine, Inside;
    }
    hide RookLine, BishopLine, Clear, LeaperMask;
  }

  lemma TargetsBounded(b: Board, byType: seq<Bitboard>, byColor: seq<Bitboard>, pieceCount: seq<int>, pc: Piece,
                       s: Square)
    requires Synced(b, byType, byColor, pieceCount) && pc.Piece? && pc.kind != King
    ensures |ThreatenedMask(byType, pc, s, BothAttacksBB(s, Occupied(b)))| <= (if pc.kind == Pawn then 2 else 8)
  {
    var mask := ThreatenedMask(byType, pc, s, BothAttacksBB(s, Occupied(b)));
    TargetsWithin(b, byType, byColor, pieceCount, pc, s);
    hide *;
    if pc.kind == Pawn {
      AtMostTwoPawnTargets(pc.color, s);
      SubsetSize(mask, PawnAttacksBB(pc.color, s));
    } else if pc.kind == Knight {
      AtMostEightKnights(s);
      SubsetSize(mask, AttacksBB(Knight, s, {}));
    } else {
      AtMostEightInView(b, s);
      SubsetSize(mask, InView(b, s));
    }
  }

  lemma TargetsWithin(b: Board, byType: seq<Bitboard>, byColor: seq<Bitboard>, pieceCount: seq<int>, pc: Piece,
                      s: Square)
    requires Synced(b, byType, byColor, pieceCount) && pc.Piece? && pc.kind != King
    ensures ThreatenedMask(byType, pc, s, BothAttacksBB(s, Occupied(b))) <=
            if pc.kind == Pawn then PawnAttacksBB(pc.color, s) else if pc.kind == Knight then AttacksBB(Knight, s, {})
              else InView(b, s)
  {
    hide RookLine, BishopLine, Clear, KnightStep, PawnStep;
  }

  /** The most one scan appends. */
  function ScanBound(kind: PieceType, computeRay: bool): nat {
    match kind
    case King => if computeRay then 8 else 0
    case Pawn => if computeRay then 26 else 18
    case _ => if computeRay then 32 else 24
  }

  lemma MasksExact(b: Board, byType: seq<Bitboard>, byColor: seq<Bitboard>, pieceCount: seq<int>, pc: Piece, s: Square)
    requires Synced(b, byType, byColor, pieceCount) && pc.Piece? && pc.kind != King
    ensures var dual := BothAttacksBB(s, Occupied(b));
            && (forall t: Square :: t in ThreatenedMask(byType, pc, s, dual) <==>
                  b[t].Piece? && Feature(pc.kind, b[t].kind) && Hits(pc, s, t, Occupied(b)))
            && (forall a: Square :: a in LeaperMask(byType, byColor, pc, s) <==>
                  b[a].Piece? && !Slides(b[a].kind) && Feature(b[a].kind, pc.kind) && Hits(b[a], a, s, Occupied(b)))
  {
    forall t: Square
      ensures t in ThreatenedMask(byType, pc, s, BothAttacksBB(s, Occupied(b)))
              <==> b[t].Piece? && Feature(pc.kind, b[t].kind) && Hits(pc, s, t, Occupied(b))
      ensures t in LeaperMask(byType, byColor, pc, s)
              <==> b[t].Piece? && !Slides(b[t].kind) && Feature(b[t].kind, pc.kind) && Hits(b[t], t, s, Occupied(b))
    {
      ThreatenedMaskExact(b, byType, byColor, pieceCount, pc, s, t);
      LeaperMaskExact(b, byType, byColor, pieceCount, pc, s, t);
    }
  }

  lemma SlidersExact(b: Board, byType: seq<Bitboard>, byColor: seq<Bitboard>, pieceCount: seq<int>, s: Square)
    requires Synced(b, byType, byColor, pieceCount)
    ensures var sliders := SliderMask(byType, BothAttacksBB(s, Occupied(b)));
            && |sliders| <= 8
            && forall a: Square :: a in sliders <==> b[a].Piece? && Slides(b[a].kind) && Hits(b[a], a, s, Occupied(b))
  {
    var sliders := SliderMask(byType, BothAttacksBB(s, Occupied(b)));
    forall a: Square
      ensures a in sliders <==> b[a].Piece? && Slides(b[a].kind) && Hits(b[a], a, s, Occupied(b))
    {
      SliderMaskExact(b, byType, byColor, pieceCount, s, a);
    }
    SlidersInView(b, byType, byColor, pieceCount, s);
    AtMostEightInView(b, s);
    hide SliderMask, InView, Hits;
    SubsetSize(sliders, InView(b, s));
  }

  /** Append every threat pair that pc on s makes (put) or unmakes. The board holds the other
      side of the transition: before a removal, after a placement. */
  method UpdatePiece(computeRay: bool, b: Board, byType: seq<Bitboard>, byColor: seq<Bitboard>,
                     ghost pieceCount: seq<int>, pc: Piece, put: bool, s: Square,
                     list: seq<DirtyThreat>, noRays: Bitboard, sliderAttacks: DualAttacks)
    returns (r: seq<DirtyThreat>)
    requires Synced(b, byType, byColor, pieceCount)
    requires pc.Piece?
    requires sliderAttacks == BothAttacksBB(s, Occupied(b))
    ensures forall w: DirtyThreat ::
      multiset(r)[w] == multiset(list)[w] + Bit(Scanned(b, pc, put, s, computeRay, noRays, w))
    ensures |r| <= |list| + ScanBound(pc.kind, computeRay)
  {
    hide *;
    assert |byType| == 7 by {
      assert Synced(b, byType, byColor, pieceCount);
      SyncedSizes(b, byType, byColor, pieceCount);
    }
    if pc.kind == King {
      r := UpdateKing(computeRay, b, byType, byColor, pieceCount, pc, put, s, list, noRays, sliderAttacks);
    } else {
      r := UpdateNonKing(computeRay, b, byType, byColor, pieceCount, pc, put, s, list, noRays, sliderAttacks);
    }
  }

  /** A king is no feature: only the rays it opens or closes count. */
  method UpdateKing(computeRay: bool, b: Board, byType: seq<Bitboard>, byColor: seq<Bitboard>,
                    ghost pieceCount: seq<int>, pc: Piece, put: bool, s: Square,
                    list: seq<DirtyThreat>, noRays: Bitboard, sliderAttacks: DualAttacks)
    returns (r: seq<DirtyThreat>)
    requires Synced(b, byType, byColor, pieceCount)
    requires pc.Piece? && pc.kind == King
    requires sliderAttacks == BothAttacksBB(s, Occupied(b))
    ensures forall w: DirtyThreat ::
      multiset(r)[w] == multiset(list)[w] + Bit(Scanned(b, pc, put, s, computeRay, noRays, w))
    ensures |r| <= |list| + ScanBound(pc.kind, computeRay)
  {
    var occupiedNoK := Xor(byType[0], byType[TypeIndex(King)]);
    var sliders := SliderMask(byType, sliderAttacks);
    SlidersExact(b, byType, byColor, pieceCount, s);
    KingScanned(b, pc, put, s, computeRay, noRays);
    assert ScanBound(pc.kind, computeRay) == if computeRay then 8 else 0;
    hide *;
    r := list;
    if computeRay {
      r := ProcessSliders(b, r, sliders, s, pc, put, noRays, sliderAttacks, occupiedNoK, false);
    }
  }

  lemma KingScanned(b: Board, pc: Piece, put: bool, s: Square, computeRay: bool, noRays: Bitboard)
    requires pc.Piece? && pc.kind == King
    ensures Bit(false) == 0
    ensures forall w: DirtyThreat ::
              Bit(Scanned(b, pc, put, s, computeRay, noRays, w)) ==
              if computeRay then Bit(w.add != put && Recorded(b, s, noRays, w)) else 0
  {
    hide Hits, Recorded;
  }

  lemma SyncedSizes(b: Board, byType: seq<Bitboard>, byColor: seq<Bitboard>, pieceCount: seq<int>)
    requires Synced(b, byType, byColor, pieceCount)
    ensures |byType| == 7 && |byColor| == 2 && |pieceCount| == 16
  {
  }

  lemma DirectSlidersExact(b: Board, byType: seq<Bitboard>, byColor: seq<Bitboard>, pieceCount: seq<int>, pc: Piece,
                           sliders: Bitboard)
    requires Synced(b, byType, byColor, pieceCount) && pc.Piece?
    requires forall a: Square :: a in sliders ==> b[a].Piece?
    ensures var direct := if pc.kind == Queen then sliders * byType[TypeIndex(Queen)] else sliders;
            && |direct| <= |sliders|
            && forall a: Square :: a in direct <==> a in sliders && CanSliderThreat(pc, b[a])
  {
    SubsetSize(sliders * byType[TypeIndex(Queen)], sliders);
  }

  method UpdateNonKing(computeRay: bool, b: Board, byType: seq<Bitboard>, byColor: seq<Bitboard>,
                       ghost pieceCount: seq<int>, pc: Piece, put: bool, s: Square,
                       list: seq<DirtyThreat>, noRays: Bitboard, sliderAttacks: DualAttacks)
    returns (r: seq<DirtyThreat>)
    requires Synced(b, byType, byColor, pieceCount)
    requires pc.Piece? && pc.kind != King
    requires sliderAttacks == BothAttacksBB(s, Occupied(b))
    ensures forall w: DirtyThreat ::
      multiset(r)[w] == multiset(list)[w] + Bit(Scanned(b, pc, put, s, computeRay, noRays, w))
    ensures |r| <= |list| + ScanBound(pc.kind, computeRay)
  {
    var occupiedNoK := Xor(byType[0], byType[TypeIndex(King)]);
    var sliders := SliderMask(byType, sliderAttacks);
    var directSliders := if pc.kind == Queen then sliders * byType[TypeIndex(Queen)] else sliders;
    var threatened := ThreatenedMask(byType, pc, s, sliderAttacks);
    var incoming := LeaperMask(byType, byColor, pc, s);
    SlidersExact(b, byType, byColor, pieceCount, s);
    MasksExact(b, byType, byColor, pieceCount, pc, s);
    ScanSizes(b, byType, byColor, pieceCount, pc, s);
    DirectSlidersExact(b, byType, byColor, pieceCount, pc, sliders);
    hide *;
    UnionSize(incoming, directSliders);
    if !computeRay {
      incoming := incoming + directSliders;
    }
    r := EmitScan(computeRay, b, pc, put, s, list, noRays, sliderAttacks, sliders, threatened, incoming, occupiedNoK);
  }

  /** The three emission loops of the scan, in the source's order. */
  method EmitScan(computeRay: bool, b: Board, pc: Piece, put: bool, s: Square, list: seq<DirtyThreat>,
                  noRays: Bitboard, sliderAttacks: DualAttacks, sliders: Bitboard, threatened: Bitboard,
                  incoming: Bitboard, occupiedNoK: Bitboard)
    returns (r: seq<DirtyThreat>)
    requires pc.Piece? && pc.kind != King
    requires sliderAttacks == BothAttacksBB(s, Occupied(b))
    requires occupiedNoK == Xor(Occupied(b), OfType(b, King))
    requires forall a: Square :: a in sliders <==> b[a].Piece? && Slides(b[a].kind) && Hits(b[a], a, s, Occupied(b))
    requires forall t: Square :: t in threatened <==>
             b[t].Piece? && Feature(pc.kind, b[t].kind) && Hits(pc, s, t, Occupied(b))
    requires forall a: Square :: a in incoming <==>
               && b[a].Piece? && Hits(b[a], a, s, Occupied(b))
               && (if Slides(b[a].kind) then !computeRay && CanSliderThreat(pc, b[a])
                   else Feature(b[a].kind, pc.kind))
    requires |sliders| <= 8 && |threatened| <= (if pc.kind == Pawn then 2 else 8)
    requires if computeRay then |sliders| + |incoming| <= 16 else |incoming| <= 16
    requires pc.Piece? && pc.kind == Pawn && computeRay ==> |incoming| <= 8
    ensures forall w: DirtyThreat ::
      multiset(r)[w] == multiset(list)[w] + Bit(Scanned(b, pc, put, s, computeRay, noRays, w))
    ensures |r| <= |list| + ScanBound(pc.kind, computeRay)
  {
    assert ScanBound(pc.kind, computeRay) ==
           if pc.kind == Pawn then (if computeRay then 26 else 18) else (if computeRay then 32 else 24);
    ScannedAll(b, pc, put, s, computeRay, noRays, threatened, incoming);
    hide *;
    r := EmitOutgoing(b, list, put, pc, s, threatened);
    if computeRay {
      r := ProcessSliders(b, r, sliders, s, pc, put, noRays, sliderAttacks, occupiedNoK, true);
    }
    r := EmitIncoming(b, r, put, pc, s, incoming);
  }

  lemma ScannedAll(b: Board, pc: Piece, put: bool, s: Square, computeRay: bool, noRays: Bitboard,
                   threatened: Bitboard, incoming: Bitboard)
    requires pc.Piece? && pc.kind != King
    requires forall t: Square :: t in threatened <==>
             b[t].Piece? && Feature(pc.kind, b[t].kind) && Hits(pc, s, t, Occupied(b))
    requires forall a: Square :: a in incoming <==>
               && b[a].Piece? && Hits(b[a], a, s, Occupied(b))
               && (if Slides(b[a].kind) then !computeRay && CanSliderThreat(pc, b[a])
                   else Feature(b[a].kind, pc.kind))
    ensures forall w: DirtyThreat ::
              Bit(Scanned(b, pc, put, s, computeRay, noRays, w)) ==
              Bit(OutgoingEntry(b, put, pc, s, threatened, w)) + Bit(IncomingEntry(b, put, pc, s, incoming, w))
              + Bit(computeRay && w.add != put && Recorded(b, s, noRays, w))
              + Bit(computeRay && w.add == put && DirectSlider(b, pc, s, w))
  {
    forall w: DirtyThreat
      ensures Bit(Scanned(b, pc, put, s, computeRay, noRays, w)) ==
              Bit(OutgoingEntry(b, put, pc, s, threatened, w)) + Bit(IncomingEntry(b, put, pc, s, incoming, w))
              + Bit(computeRay && w.add != put && Recorded(b, s, noRays, w))
              + Bit(computeRay && w.add == put && DirectSlider(b, pc, s, w))
    {
      ScannedParts(b, pc, put, s, computeRay, noRays, threatened, incoming, w);
    }
  }

  /** The four kinds of entry a scan records are disjoint and make up Scanned. */
  lemma ScannedParts(b: Board, pc: Piece, put: bool, s: Square, computeRay: bool, noRays: Bitboard,
                     threatened: Bitboard, incoming: Bitboard, w: DirtyThreat)
    requires pc.Piece? && pc.kind != King
    requires forall t: Square :: t in threatened <==>
             b[t].Piece? && Feature(pc.kind, b[t].kind) && Hits(pc, s, t, Occupied(b))
    requires forall a: Square :: a in incoming <==>
               && b[a].Piece? && Hits(b[a], a, s, Occupied(b))
               && (if Slides(b[a].kind) then !computeRay && CanSliderThreat(pc, b[a])
                   else Feature(b[a].kind, pc.kind))
    ensures Bit(Scanned(b, pc, put, s, computeRay, noRays, w)) ==
            Bit(OutgoingEntry(b, put, pc, s, threatened, w)) + Bit(IncomingEntry(b, put, pc, s, incoming, w))
            + Bit(computeRay && w.add != put && Recorded(b, s, noRays, w))
            + Bit(computeRay && w.add == put && DirectSlider(b, pc, s, w))
  {
    HitsElsewhere(pc, s, Occupied(b));
    hide Recorded, Hits;
  }

  lemma HitsElsewhere(pc: Piece, s: Square, occ: Bitboard)
    requires pc.Piece?
    ensures !Hits(pc, s, s, occ)
  {
  }
}
