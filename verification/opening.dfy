/** The opening position: its text, and the twenty moves it allows. */
module Opening {
  import opened Squares
  import opened Types
  import opened Board
  import opened Rules
  import opened Derived
  import opened Decimals
  import opened FenBoard
  import opened FenRights
  import opened Fen

  const START_FEN := "rnbqkbnr/pppppppp/8/8/8/8/PPPPPPPP/RNBQKBNR w KQkq - 0 1"

  function HomeKind(file: int): PieceType {
    match file
    case 0 => Rook
    case 1 => Knight
    case 2 => Bishop
    case 3 => Queen
    case 4 => King
    case 5 => Bishop
    case 6 => Knight
    case _ => Rook
  }

  function StartPiece(s: Square): Piece {
    if Rank(s) == 0 then Piece(White, HomeKind(File(s)))
    else if Rank(s) == 1 then Piece(White, Pawn)
    else if Rank(s) == 6 then Piece(Black, Pawn)
    else if Rank(s) == 7 then Piece(Black, HomeKind(File(s)))
    else NoPiece
  }

  function StartBoard(): Board {
    seq(64, s requires 0 <= s < 64 => StartPiece(s))
  }

  const ALL_RIGHTS: set<Right> :=
    {Right(White, KingSide), Right(White, QueenSide), Right(Black, KingSide), Right(Black, QueenSide)}

  const HOME_ROOKS: map<Right, Square> :=
    map[Right(White, KingSide) := 7, Right(White, QueenSide) := 0,
        Right(Black, KingSide) := 63, Right(Black, QueenSide) := 56]

  /** White to move, all rights held, no move made. */
  function StartPos(): Pos {
    Pos(StartBoard(), White, ALL_RIGHTS, HOME_ROOKS, None, 0, 0, 0)
  }

  // ----- the position is well-formed -----

  lemma StartAt(s: Square)
    ensures StartBoard()[s] == StartPiece(s)
  {
  }

  /** From the last two ranks the opening's pieces do not reach a king at home, whatever stands
      between. */
  lemma FarAway(pc: Piece, a: Square, k: Square, occ: Bitboard)
    requires pc.Piece? && (k == 4 || k == 60) && Abs(Rank(a) - Rank(k)) >= 6
    requires pc.kind == Pawn || (Abs(Rank(a) - Rank(k)) == 7 && pc.kind == HomeKind(File(a)))
    ensures !Hits(pc, a, k, occ)
  {
    Coords(a);
    hide Clear;
  }

  lemma StartQuiet(us: Color)
    ensures HasKing(StartBoard(), us) && IsKing(StartBoard(), us, if us == White then 4 else 60)
    ensures !InCheck(StartBoard(), us)
  {
    var b, k := StartBoard(), if us == White then 4 else 60;
    forall s: Square
      ensures b[s] == StartPiece(s)
    {
      StartAt(s);
    }
    HomeKing(us, k);
    forall a: Square
      ensures !Attacker(b, Flip(us), a, k, Occupied(b))
    {
      if IsColor(b, Flip(us), a) {
        Coords(a);
        FarAway(b[a], a, k, Occupied(b));
      }
    }
    hide StartBoard, Hits;
  }

  lemma HomeKing(us: Color, k: Square)
    requires k == if us == White then 4 else 60
    ensures IsKing(StartBoard(), us, k)
  {
    forall s: Square | StartBoard()[s] == Piece(us, King)
      ensures s == k
    {
      StartAt(s);
      Coords(s);
    }
    StartAt(k);
  }

  lemma RightsHeld(r: Right)
    ensures r in ALL_RIGHTS && r in HOME_ROOKS
  {
    match r {
      case Right(White, KingSide) =>
      case Right(White, QueenSide) =>
      case Right(Black, KingSide) =>
      case Right(Black, QueenSide) =>
    }
  }

  lemma StartHome(r: Right)
    ensures r in HOME_ROOKS
    ensures var k := if r.color == White then 4 else 60; RightHome(StartBoard(), HOME_ROOKS, r, k) && 1 <= File(k) <= 6
  {
    RightsHeld(r);
    HomeKing(r.color, if r.color == White then 4 else 60);
    StartAt(HOME_ROOKS[r]);
    hide StartBoard, IsKing;
  }

  lemma StartPieces(c: Color, kind: PieceType)
    ensures var home, pawns := if c == White then 0 else 56, if c == White then 8 else 48;
            PiecesOf(StartBoard(), Piece(c, kind)) ==
            match kind
            case Pawn => {pawns, pawns + 1, pawns + 2, pawns + 3, pawns + 4, pawns + 5, pawns + 6, pawns + 7}
            case Knight => {home + 1, home + 6}
            case Bishop => {home + 2, home + 5}
            case Rook => {home, home + 7}
            case Queen => {home + 3}
            case King => {home + 4}
  {
    forall s: Square
      ensures s in PiecesOf(StartBoard(), Piece(c, kind)) <==> StartPiece(s) == Piece(c, kind)
      ensures s == 8 * Rank(s) + File(s)
    {
      StartAt(s);
      Coords(s);
    }
    hide StartBoard, PiecesOf, Rank, File;
  }

  lemma StartMaterial(c: Color)
    ensures MaterialFits(StartBoard(), c)
  {
    StartPieces(c, Pawn);
    StartPieces(c, Knight);
    StartPieces(c, Bishop);
    StartPieces(c, Rook);
    StartPieces(c, Queen);
    hide StartBoard, PiecesOf;
  }

  lemma StartStands()
    ensures WellFormed(StartPos()) && Standing(StartPos())
    ensures RightsSound(StartBoard(), ALL_RIGHTS, HOME_ROOKS)
  {
    StartQuiet(White);
    StartQuiet(Black);
    StartMaterial(White);
    StartMaterial(Black);
    StartPawns();
    StartRights();
    hide StartBoard, MaterialFits, InCheck, HasKing, RightsHome, RightsSound, EpSound, PawnsInside;
  }

  lemma StartPawns()
    ensures PawnsInside(StartBoard())
  {
    forall s: Square
      ensures StartBoard()[s] == StartPiece(s)
    {
      StartAt(s);
    }
    hide StartBoard;
  }

  lemma StartRights()
    ensures RightsSound(StartBoard(), ALL_RIGHTS, HOME_ROOKS) && RightsHome(StartBoard(), ALL_RIGHTS, HOME_ROOKS)
  {
    forall r: Right
      ensures RightSound(StartBoard(), HOME_ROOKS, r) && exists k: Square :: RightHome(StartBoard(), HOME_ROOKS, r, k)
    {
      StartHome(r);
    }
    hide StartBoard, RightHome, RightSound;
  }

  // ----- its text -----

  /** A rank without empty squares is written piece by piece. */
  lemma {:induction false} FullText(b: Board, rank: nat, text: string, f: nat)
    requires rank < 8 && f <= 8 == |text|
    requires forall g :: 0 <= g < 8 ==> var pc := b[MakeSquare(g, rank)]; pc != NoPiece && text[g] == CharOf(pc)
    ensures RankText(b, rank, f) == text[f..]
    decreases 8 - f
  {
    hide CharOf;
    if f < 8 {
      FullText(b, rank, text, f + 1);
      assert text[f..] == [text[f]] + text[f + 1..];
    }
  }

  lemma HomeLetter(c: Color, g: nat)
    requires g < 8
    ensures CharOf(Piece(c, HomeKind(g))) == (if c == White then "RNBQKBNR" else "rnbqkbnr")[g]
    ensures CharOf(Piece(c, Pawn)) == (if c == White then "PPPPPPPP" else "pppppppp")[g]
  {
  }

  lemma HomeText(c: Color)
    ensures RankText(StartBoard(), if c == White then 0 else 7, 0) == if c == White then "RNBQKBNR" else "rnbqkbnr"
  {
    var rank, text := if c == White then 0 else 7, if c == White then "RNBQKBNR" else "rnbqkbnr";
    forall g | 0 <= g < 8
      ensures var pc := StartBoard()[MakeSquare(g, rank)]; pc != NoPiece && text[g] == CharOf(pc)
    {
      StartAt(MakeSquare(g, rank));
      hide StartBoard, MakeSquare, CharOf, HomeKind;
      HomeLetter(c, g);
    }
    hide *;
    FullText(StartBoard(), rank, text, 0);
    assert text[0..] == text;
  }

  lemma PawnText(c: Color)
    ensures RankText(StartBoard(), if c == White then 1 else 6, 0) == if c == White then "PPPPPPPP" else "pppppppp"
  {
    var rank, text := if c == White then 1 else 6, if c == White then "PPPPPPPP" else "pppppppp";
    forall g | 0 <= g < 8
      ensures var pc := StartBoard()[MakeSquare(g, rank)]; pc != NoPiece && text[g] == CharOf(pc)
    {
      StartAt(MakeSquare(g, rank));
      hide StartBoard, MakeSquare, CharOf, HomeKind;
      HomeLetter(c, g);
    }
    hide *;
    FullText(StartBoard(), rank, text, 0);
    assert text[0..] == text;
  }

  lemma {:induction false} EmptyRank(rank: nat, f: nat)
    requires 2 <= rank < 6 && f <= 8
    ensures EmptyRun(StartBoard(), rank, f) == 8 - f
    decreases 8 - f
  {
    if f < 8 {
      EmptyRank(rank, f + 1);
      StartAt(MakeSquare(f, rank));
      hide StartBoard;
    }
  }

  lemma EmptyText(rank: nat)
    requires 2 <= rank < 6
    ensures RankText(StartBoard(), rank, 0) == "8"
  {
    EmptyRank(rank, 0);
    StartAt(MakeSquare(0, rank));
    hide StartBoard, EmptyRun;
    assert RankText(StartBoard(), rank, 8) == "";
    assert Numeral(8) == "8";
  }

  lemma BoardStep(b: Board, rank: nat)
    requires rank < 8
    ensures BoardText(b, rank) == RankText(b, rank, 0) + if rank > 0 then "/" + BoardText(b, rank - 1) else ""
  {
    hide RankText;
  }

  lemma LowerText()
    ensures BoardText(StartBoard(), 3) == "8/8/PPPPPPPP/RNBQKBNR"
  {
    hide *;
    var b := StartBoard();
    HomeText(White);
    PawnText(White);
    EmptyText(2);
    EmptyText(3);
    BoardStep(b, 0);
    BoardStep(b, 1);
    BoardStep(b, 2);
    BoardStep(b, 3);
  }

  lemma TwoRanks(b: Board, rank: nat, upper: string, lower: string)
    requires 2 <= rank < 8 && RankText(b, rank, 0) == upper && RankText(b, rank - 1, 0) == lower
    ensures BoardText(b, rank) == (upper + "/" + lower + "/") + BoardText(b, rank - 2)
  {
    hide RankText, BoardText;
    BoardStep(b, rank);
    BoardStep(b, rank - 1);
    assert upper + ("/" + (lower + ("/" + BoardText(b, rank - 2)))) ==
           (upper + "/" + lower + "/") + BoardText(b, rank - 2);
  }

  lemma StartBoardText()
    ensures BoardText(StartBoard(), 7) == "rnbqkbnr/pppppppp/8/8/8/8/PPPPPPPP/RNBQKBNR"
  {
    hide *;
    var b := StartBoard();
    LowerText();
    PawnText(Black);
    HomeText(Black);
    EmptyText(4);
    EmptyText(5);
    TwoRanks(b, 5, "8", "8");
    TwoRanks(b, 7, "rnbqkbnr", "pppppppp");
    EmptyJoins();
    BlackJoins(BoardText(b, 5));
  }

  lemma EmptyJoins()
    ensures ("8" + "/" + "8" + "/") + "8/8/PPPPPPPP/RNBQKBNR" == "8/8/8/8/PPPPPPPP/RNBQKBNR"
  {
    assert "8" + "/" + "8" + "/" == "8/8/";
  }

  lemma BlackJoins(t: string)
    requires t == "8/8/8/8/PPPPPPPP/RNBQKBNR"
    ensures ("rnbqkbnr" + "/" + "pppppppp" + "/") + t == "rnbqkbnr/pppppppp/8/8/8/8/PPPPPPPP/RNBQKBNR"
  {
    assert "rnbqkbnr" + "/" + "pppppppp" + "/" == "rnbqkbnr/pppppppp/";
  }

  lemma FieldsText()
    ensures RightsText(ALL_RIGHTS, HOME_ROOKS, false) == "KQkq" && EpText(None) == "-"
    ensures CountersText(StartPos()) == " 0 1" && SideText(White) == "w "
  {
    assert HeldText(ALL_RIGHTS, HOME_ROOKS, false, 4) == "";
    assert HeldText(ALL_RIGHTS, HOME_ROOKS, false, 3) == "q";
    assert HeldText(ALL_RIGHTS, HOME_ROOKS, false, 2) == "kq";
    assert HeldText(ALL_RIGHTS, HOME_ROOKS, false, 1) == "Qkq";
    assert Numeral(0) == "0" && Numeral(1) == "1";
  }

  lemma StartText()
    ensures forall r :: r in StartPos().rights ==> r in StartPos().rooks
    ensures Fen.Fen(StartPos(), false) == START_FEN
  {
    hide *;
    StartBoardText();
    FieldsText();
    FenShape();
    TextJoins();
  }

  lemma TextJoins()
    ensures START_FEN ==
            "rnbqkbnr/pppppppp/8/8/8/8/PPPPPPPP/RNBQKBNR" + (" " + ("w " + ("KQkq" + (" " + ("-" + " 0 1")))))
  {
    assert " " + ("w " + ("KQkq" + (" " + ("-" + " 0 1")))) == " w KQkq - 0 1";
  }

  lemma FenShape()
    ensures forall r :: r in StartPos().rights ==> r in StartPos().rooks
    ensures Fen.Fen(StartPos(), false) ==
            BoardText(StartBoard(), 7)
            + (" " + (SideText(White) +
                (RightsText(ALL_RIGHTS, HOME_ROOKS, false) + (" " + (EpText(None) + CountersText(StartPos()))))))
  {
    hide BoardText, SideText, RightsText, EpText, CountersText, StartBoard;
  }

  /** The text every game starts from is accepted, and means that position. */
  lemma StartParses()
    ensures ParseFen(START_FEN) == Parsed(StartPos())
  {
    hide *;
    StartStands();
    StartText();
    RoundTrip(StartPos(), false);
    StartPrintable();
    RestoresStart(ParseFen(START_FEN));
  }

  lemma RestoresStart(r: FenResult)
    requires Restores(r, StartPos())
    ensures r == Parsed(StartPos())
  {
    hide StartBoard;
    assert r.pos.rooks == HOME_ROOKS;
  }

  lemma StartPrintable()
    ensures Printable(StartPos(), false)
  {
    forall r: Right
      ensures r in HOME_ROOKS && Nameable(StartBoard(), r, HOME_ROOKS[r], false)
    {
      RightsHeld(r);
      hide StartBoard;
    }
    hide StartBoard, Nameable;
  }

  // ----- what the names and numbers are -----

  /** Material of the opening, in the source's piece values. */
  lemma StartWorth(c: Color)
    ensures NonPawnMaterial(StartBoard(), c) == 2 * 781 + 2 * 825 + 2 * 1276 + 2538
  {
    StartPieces(c, Knight);
    StartPieces(c, Bishop);
    StartPieces(c, Rook);
    StartPieces(c, Queen);
    hide StartBoard, PiecesOf;
  }

  /** Squares are written by file and rank, rooks by file, and read so. */
  lemma SquareNames(e: Square)
    ensures EpText(Some(e)) == ["abcdefgh"[File(e)], "12345678"[Rank(e)]]
    ensures Rank(e) == 5 ==> EpNamed("abcdefgh"[File(e)], White) == e
    ensures Rank(e) == 2 ==> EpNamed("abcdefgh"[File(e)], Black) == e
    ensures forall wing :: RightChar(Right(White, wing), e, true) == "ABCDEFGH"[File(e)]
    ensures forall wing :: RightChar(Right(Black, wing), e, true) == "abcdefgh"[File(e)]
  {
    Coords(e);
  }

  /** From its home square the king castles two files towards the rook, which comes to stand on the
      square it crossed (FIDE Article 3.8.2). */
  lemma CastlingFromHome(r: Right)
    ensures var k: Square := if r.color == White then 4 else 60;
            && Rank(KingTarget(r)) == Rank(RookTarget(r)) == Rank(k)
            && File(KingTarget(r)) == File(k) + (if r.wing == KingSide then 2 else -2)
            && File(RookTarget(r)) == File(k) + (if r.wing == KingSide then 1 else -1)
  {
  }

  /** Counters that are not there read as in a new game. */
  lemma MissingCounters()
    ensures Counters("") == (0, 1) && Counters(" ") == (0, 1)
    ensures Counters(" 7") == (7, 1) && Counters(" 7 3") == (7, 3)
  {
    assert DropSpaces(" 7") == "7" && DropSpaces(" 3") == "3" && DropSpaces(" ") == "" && DropSpaces(" 7 3") == "7 3";
    assert Digits("7") == 1 && Digits("3") == 1 && Digits("7 3") == 1;
    assert "7"[..1] == "7" && "7"[1..] == "" && "3"[..1] == "3" && "7 3"[..1] == "7" && "7 3"[1..] == " 3";
    assert Number("7") == 7 && Number("3") == 3;
    hide Digits, Number, DropSpaces;
  }
}
