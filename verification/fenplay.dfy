/** Positions reached by play from a parsed one can be printed and parsed again. */
module FenPlay {
  import opened Squares
  import opened Types
  import opened Board
  import opened Rules
  import opened Derived
  import opened Play
  import opened Keys
  import opened Records
  import opened FenRights
  import opened Fen

  // ----- material -----

  /** b' has one more pc than b, and as many of everything else. */
  predicate OneMore(b: Board, b': Board, pc: Piece) {
    forall c: Color, kind: PieceType :: Count(b', c, kind) == Count(b, c, kind) + if pc == Piece(c, kind) then 1 else 0
  }

  lemma PlaceCounts(b: Board, s: Square, pc: Piece)
    requires b[s] == NoPiece
    ensures OneMore(b, b[s := pc], pc)
  {
    forall c: Color, kind: PieceType
      ensures Count(b[s := pc], c, kind) == Count(b, c, kind) + if pc == Piece(c, kind) then 1 else 0
    {
      PlaceCount(b, s, pc, Piece(c, kind));
      hide PiecesOf;
    }
    hide Count;
  }

  lemma PlaceCount(b: Board, s: Square, pc: Piece, q: Piece)
    requires b[s] == NoPiece && q.Piece?
    ensures |PiecesOf(b[s := pc], q)| == |PiecesOf(b, q)| + if pc == q then 1 else 0
  {
    var b': Board := b[s := pc];
    assert s !in PiecesOf(b, q);
    if pc == q {
      assert PiecesOf(b', q) == PiecesOf(b, q) + {s};
    } else {
      assert PiecesOf(b', q) == PiecesOf(b, q);
    }
  }

  lemma LiftCounts(b: Board, s: Square)
    ensures OneMore(b[s := NoPiece], b, b[s])
  {
    PlaceCounts(b[s := NoPiece], s, b[s]);
    assert b[s := NoPiece][s := b[s]] == b;
  }

  /** Losing a piece never makes the material unreachable. */
  lemma FewerFits(b: Board, b': Board, pc: Piece, c: Color)
    requires OneMore(b', b, pc) && MaterialFits(b, c)
    ensures MaterialFits(b', c)
  {
    CountsApart(b', b, pc, c);
    hide OneMore, Count;
  }

  /** Nor does moving a piece, or a pawn's promotion. */
  lemma ExchangeFits(b: Board, b1: Board, b': Board, pc: Piece, arrives: Piece, c: Color)
    requires OneMore(b1, b, pc) && OneMore(b1, b', arrives) && MaterialFits(b, c)
    requires arrives == pc ||
             (pc.Piece? && arrives.Piece? && pc.kind == Pawn && arrives.kind != King && arrives.color == pc.color)
    ensures MaterialFits(b', c)
  {
    CountsApart(b1, b, pc, c);
    CountsApart(b1, b', arrives, c);
    hide OneMore, Count;
  }

  /** The counts of one colour, spelt out. */
  lemma CountsApart(b: Board, b': Board, pc: Piece, c: Color)
    requires OneMore(b, b', pc)
    ensures Count(b', c, Pawn) == Count(b, c, Pawn) + if pc == Piece(c, Pawn) then 1 else 0
    ensures Count(b', c, Knight) == Count(b, c, Knight) + if pc == Piece(c, Knight) then 1 else 0
    ensures Count(b', c, Bishop) == Count(b, c, Bishop) + if pc == Piece(c, Bishop) then 1 else 0
    ensures Count(b', c, Rook) == Count(b, c, Rook) + if pc == Piece(c, Rook) then 1 else 0
    ensures Count(b', c, Queen) == Count(b, c, Queen) + if pc == Piece(c, Queen) then 1 else 0
  {
    hide Count;
  }

  lemma MaterialKept(p: Pos, m: Move, c: Color)
    requires WellFormed(p) && PseudoLegal(p, m) && MaterialFits(p.board, c)
    ensures MaterialFits(After(p.board, p.side, m), c)
  {
    var b, us := p.board, p.side;
    hide *;
    if m.kind == Castling {
      CastlingCounts(p, m);
      CastledFits(b, After(b, us, m), c);
    } else {
      var x := CaptureSquare(m);
      AfterSteps(p, m);
      ArrivesShape(p, m);
      var b1: Board := b[x := NoPiece];
      var b2: Board := b1[m.from := NoPiece];
      LiftCounts(b, x);
      FewerFits(b, b1, b[x], c);
      LiftCounts(b1, m.from);
      PlaceCounts(b2, m.to, Arrives(b, us, m));
      ExchangeFits(b1, b2, After(b, us, m), b[m.from], Arrives(b, us, m), c);
    }
  }

  lemma ArrivesShape(p: Pos, m: Move)
    requires PseudoLegal(p, m)
    ensures var pc, arrives := p.board[m.from], Arrives(p.board, p.side, m);
            arrives == pc ||
              (pc.Piece? && arrives.Piece? && pc.kind == Pawn && arrives.kind != King && arrives.color == pc.color)
  {
    hide PawnPush, PawnDouble, PawnCapture, Hits, CanCastle;
  }

  predicate SameCounts(b: Board, b': Board) {
    forall c: Color, kind: PieceType :: Count(b', c, kind) == Count(b, c, kind)
  }

  lemma CastledFits(b: Board, b': Board, c: Color)
    requires SameCounts(b, b') && MaterialFits(b, c)
    ensures MaterialFits(b', c)
  {
    hide Count;
  }

  /** Castling lifts a king and a rook and puts both down. */
  lemma CastlingCounts(p: Pos, m: Move)
    requires WellFormed(p) && PseudoLegal(p, m) && m.kind == Castling
    ensures SameCounts(p.board, After(p.board, p.side, m))
  {
    var b, us := p.board, p.side;
    var r := CastlingRight(us, m);
    CastlingSquares(p, m);
    TargetsOnBackRank(r);
    var king, rook := Piece(us, King), Piece(us, Rook);
    var b1: Board := b[m.from := NoPiece];
    var b2: Board := b1[m.to := NoPiece];
    var b3: Board := b2[KingTarget(r) := king];
    var b4: Board := b3[RookTarget(r) := rook];
    assert b[m.from] == king && b1[m.to] == rook && b2[KingTarget(r)] == NoPiece && b3[RookTarget(r)] == NoPiece;
    assert b4 == After(b, us, m);
    hide *;
    LiftCounts(b, m.from);
    LiftCounts(b1, m.to);
    PlaceCounts(b2, KingTarget(r), king);
    PlaceCounts(b3, RookTarget(r), rook);
    FourCounts(b, b1, b2, b3, b4, king, rook);
  }

  lemma FourCounts(b: Board, b1: Board, b2: Board, b3: Board, b4: Board, king: Piece, rook: Piece)
    requires OneMore(b1, b, king) && OneMore(b2, b1, rook) && OneMore(b2, b3, king) && OneMore(b3, b4, rook)
    ensures SameCounts(b, b4)
  {
    hide Count;
  }

  // ----- rights -----

  lemma RightsStaySound(p: Pos, m: Move)
    requires WellFormed(p) && Legal(p, m) && RightsSound(p.board, p.rights, p.rooks)
    ensures RightsSound(Next(p, m).board, Next(p, m).rights, Next(p, m).rooks)
  {
    var q := Next(p, m);
    NextWellFormed(p, m);
    NextRightsFewer(p, m);
    assert Legal(p, m) ==> PseudoLegal(p, m);
    hide Legal, PseudoLegal, Touches, After, NextEp, RightHome;
    forall r | r in q.rights
      ensures RightSound(q.board, q.rooks, r)
    {
      assert RightSound(p.board, p.rooks, r);
      RightStays(p, m, r);
    }
    hide RightSound;
  }

  lemma NextRightsFewer(p: Pos, m: Move)
    ensures Next(p, m).rights <= p.rights && Next(p, m).rooks == p.rooks
  {
    hide Touches, After, NextEp;
  }

  lemma RightStays(p: Pos, m: Move, r: Right)
    requires WellFormed(p) && PseudoLegal(p, m) && WellFormed(Next(p, m)) && r in Next(p, m).rights &&
             RightSound(p.board, p.rooks, r)
    ensures RightSound(Next(p, m).board, Next(p, m).rooks, r)
  {
    var k: Square :| RightHome(p.board, p.rooks, r, k) && 1 <= File(k) <= 6;
    assert RightsHome(Next(p, m).board, Next(p, m).rights, Next(p, m).rooks);
    var k': Square :| RightHome(Next(p, m).board, Next(p, m).rooks, r, k');
    KingKept(p, m, r, k');
    assert Next(p, m).board == After(p.board, p.side, m);
    assert IsKing(p.board, r.color, k');
    KingUnique(p.board, r.color, k, k');
    hide WellFormed, PseudoLegal, Next, After, IsKing, RightsHome;
  }

  // ----- a whole game -----

  /** What the parser grants a position, every legal move keeps. */
  lemma StandingKept(p: Pos, m: Move)
    requires WellFormed(p) && Standing(p) && Legal(p, m)
    ensures WellFormed(Next(p, m)) && Standing(Next(p, m)) && (PlyFits(Next(p, m)) <==> PlyFits(p))
  {
    hide *;
    StandingIs(p);
    StandingIs(Next(p, m));
    LegalPseudo(p, m);
    NextWellFormed(p, m);
    RightsStaySound(p, m);
    MaterialKept(p, m, White);
    MaterialKept(p, m, Black);
    NextParts(p, m);
    PlyTurns(p, Next(p, m), 1);
  }

  /** A null move keeps it too, but for the parity of the ply. */
  lemma StandingKeptNull(p: Pos)
    requires WellFormed(p) && Standing(p) && !InCheck(p.board, p.side)
    ensures WellFormed(NextNull(p)) && Standing(NextNull(p)) && (PlyFits(NextNull(p)) <==> !PlyFits(p))
  {
    hide *;
    StandingIs(p);
    StandingIs(NextNull(p));
    NextNullWellFormed(p);
    NullParts(p);
    PlyTurns(p, NextNull(p), 0);
  }

  lemma NullParts(p: Pos)
    ensures var q := NextNull(p);
            q.board == p.board && q.rights == p.rights && q.rooks == p.rooks && q.side == Flip(p.side) &&
              q.gamePly == p.gamePly
  {
  }

  lemma PlyTurns(p: Pos, q: Pos, plies: nat)
    requires q.side == Flip(p.side) && q.gamePly == p.gamePly + plies && plies <= 1
    ensures PlyFits(q) <==> (PlyFits(p) <==> plies == 1)
  {
  }

  lemma LegalPseudo(p: Pos, m: Move)
    requires Legal(p, m)
    ensures PseudoLegal(p, m)
  {
    hide PseudoLegal;
  }

  lemma NextParts(p: Pos, m: Move)
    ensures Next(p, m).board == After(p.board, p.side, m) && Next(p, m).side == Flip(p.side) &&
            Next(p, m).gamePly == p.gamePly + 1
  {
    hide After, NextEp, Touches;
  }

  lemma StandingIs(p: Pos)
    ensures Standing(p) <==>
              RightsSound(p.board, p.rights, p.rooks) && MaterialFits(p.board, White) && MaterialFits(p.board, Black)
  {
    hide RightsSound, MaterialFits;
  }

  /** A run: each position follows from the one before by a legal move, or by a null move, None,
      made out of check. */
  ghost predicate Game(positions: seq<Pos>, words: seq<Option<Move>>) {
    && |positions| == |words| + 1
    && forall i :: 0 <= i < |words| ==> Follows(positions[i], words[i], positions[i + 1])
  }

  ghost predicate Follows(p: Pos, word: Option<Move>, q: Pos) {
    WellFormed(p) &&
    match word
    case Some(m) => Legal(p, m) && q == Next(p, m)
    case None => !InCheck(p.board, p.side) && q == NextNull(p)
  }

  /** How many of the first i words are null moves. */
  function Nulls(words: seq<Option<Move>>, i: nat): nat
    requires i <= |words|
  {
    if i == 0 then 0 else Nulls(words, i - 1) + if words[i - 1] == None then 1 else 0
  }

  lemma {:induction false} GameStands(positions: seq<Pos>, words: seq<Option<Move>>, i: nat)
    requires Game(positions, words) && i < |positions|
    requires WellFormed(positions[0]) && Standing(positions[0]) && PlyFits(positions[0])
    ensures WellFormed(positions[i]) && Standing(positions[i]) && (PlyFits(positions[i]) <==> Nulls(words, i) % 2 == 0)
  {
    hide Legal, WellFormed, Standing, Next, NextNull, PlyFits, InCheck;
    if i > 0 {
      GameStands(positions, words, i - 1);
      assert Follows(positions[i - 1], words[i - 1], positions[i]);
      match words[i - 1] {
        case Some(m) => StandingKept(positions[i - 1], m);
        case None => StandingKeptNull(positions[i - 1]);
      }
    }
  }

  /** A position of any run that began with a parsed FEN is printed and parsed again as it was
      exactly when the notation can name its castling rooks, its counters are in the parser's range,
      and the null moves before it are even in number. */
  lemma GameRoundTrip(fen: string, positions: seq<Pos>, words: seq<Option<Move>>, i: nat, chess960: bool)
    requires Game(positions, words) && i < |positions| && ParseFen(fen) == Parsed(positions[0])
    ensures var p := positions[i];
            && (forall r :: r in p.rights ==> r in p.rooks)
            && (Restores(ParseFen(Fen.Fen(p, chess960)), p) <==>
                  AllNameable(p.board, p.rights, p.rooks, chess960) && CountersFit(p) && Nulls(words, i) % 2 == 0)
  {
    hide *;
    ParsedSound(fen);
    GameStands(positions, words, i);
    PrintableIs(positions[i], chess960);
    RoundTrip(positions[i], chess960);
  }

  // ----- such positions exist -----

  function BareBoard(): Board {
    NoBoard()[4 := Piece(White, King)][60 := Piece(Black, King)]
  }

  /** Two kings on their own squares, White to move. */
  lemma BareKings()
    ensures var p := Pos(BareBoard(), White, {}, map[], None, 0, 0, 0);
            WellFormed(p) && Standing(p) && Printable(p, false)
  {
    var b := BareBoard();
    var p := Pos(b, White, {}, map[], None, 0, 0, 0);
    assert IsKing(b, White, 4) && IsKing(b, Black, 60);
    BareQuiet();
    CheckIs(b, Black, 60);
    KingOfIs(b, White, 4);
    BareMaterial(White);
    BareMaterial(Black);
    assert PawnsInside(b);
    hide BareBoard, MaterialFits, HasKing, IsKing, InCheck;
  }

  lemma BareQuiet()
    ensures !Attacked(BareBoard(), White, 60)
  {
    var b := BareBoard();
    forall a: Square
      ensures !Attacker(b, White, a, 60, Occupied(b))
    {
      assert IsColor(b, White, a) ==> a == 4;
    }
  }

  lemma BareMaterial(c: Color)
    ensures MaterialFits(BareBoard(), c)
  {
    forall kind: PieceType | kind != King
      ensures PiecesOf(BareBoard(), Piece(c, kind)) == {}
    {
    }
    hide BareBoard;
  }

  // ----- and one that the plain notation loses -----

  /** Rooks on a1 and b1; the one on b1 holds the right. */
  function InnerBoard(): Board {
    BareBoard()[0 := Piece(White, Rook)][1 := Piece(White, Rook)]
  }

  function InnerPos(): Pos {
    Pos(InnerBoard(), White, {Right(White, QueenSide)}, map[Right(White, QueenSide) := 1], None, 0, 0, 0)
  }

  /** Printed as Q the right comes back with the rook on a1; printed as B, under Chess960, the
      position comes back as it was. */
  lemma InnerRookLost()
    ensures var p := InnerPos();
            && WellFormed(p) && Standing(p) && Restores(ParseFen(Fen.Fen(p, true)), p)
            && !Restores(ParseFen(Fen.Fen(p, false)), p)
  {
    hide *;
    InnerStands();
    InnerNames();
    PrintableIs(InnerPos(), true);
    PrintableIs(InnerPos(), false);
    RoundTrip(InnerPos(), true);
    RoundTrip(InnerPos(), false);
  }

  lemma InnerNames()
    ensures var p := InnerPos();
            && AllNameable(p.board, p.rights, p.rooks, true) && !AllNameable(p.board, p.rights, p.rooks, false)
            && CountersFit(p) && PlyFits(p) && forall r :: r in p.rights ==> r in p.rooks
  {
    var r := Right(White, QueenSide);
    assert r in InnerPos().rights && InnerBoard()[0] == Piece(White, Rook);
    assert !Nameable(InnerBoard(), r, 1, false);
  }

  lemma InnerStands()
    ensures WellFormed(InnerPos()) && Standing(InnerPos())
  {
    InnerHome();
    InnerQuiet();
    CheckIs(InnerBoard(), Black, 60);
    InnerMaterial();
    hide InnerBoard, MaterialFits, IsKing, InCheck, RightHome, PawnsInside;
    assert RightSound(InnerBoard(), InnerPos().rooks, Right(White, QueenSide));
  }

  lemma InnerHome()
    ensures IsKing(InnerBoard(), White, 4) && IsKing(InnerBoard(), Black, 60) && PawnsInside(InnerBoard())
    ensures RightHome(InnerBoard(), InnerPos().rooks, Right(White, QueenSide), 4)
  {
  }

  lemma InnerQuiet()
    ensures !Attacked(InnerBoard(), White, 60)
  {
    var b := InnerBoard();
    forall a: Square
      ensures !Attacker(b, White, a, 60, Occupied(b))
    {
      assert IsColor(b, White, a) ==> a == 4 || a == 0 || a == 1;
    }
  }

  lemma InnerMaterial()
    ensures MaterialFits(InnerBoard(), White) && MaterialFits(InnerBoard(), Black)
  {
    forall c: Color, kind: PieceType | kind != King && !(c == White && kind == Rook)
      ensures PiecesOf(InnerBoard(), Piece(c, kind)) == {}
    {
    }
    assert PiecesOf(InnerBoard(), Piece(White, Rook)) == {0, 1};
    hide InnerBoard, PiecesOf;
  }
}
