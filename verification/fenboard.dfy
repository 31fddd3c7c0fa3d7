/** The board field of a FEN string, written and read back (PGN Standard, section 16.1.3.1). */
module FenBoard {
  import opened Squares
  import opened Types
  import opened Board
  import opened Attacks
  import opened Decimals

  // ----- pieces as characters -----

  /** The character at the piece's place in PieceToChar. */
  function CharOf(pc: Piece): char {
    match pc
    case NoPiece => ' '
    case Piece(White, Pawn) => 'P'
    case Piece(White, Knight) => 'N'
    case Piece(White, Bishop) => 'B'
    case Piece(White, Rook) => 'R'
    case Piece(White, Queen) => 'Q'
    case Piece(White, King) => 'K'
    case Piece(Black, Pawn) => 'p'
    case Piece(Black, Knight) => 'n'
    case Piece(Black, Bishop) => 'b'
    case Piece(Black, Rook) => 'r'
    case Piece(Black, Queen) => 'q'
    case Piece(Black, King) => 'k'
  }

  /** The first place in PieceToChar that holds c. */
  function PieceOf(c: char): Option<Piece> {
    match c
    case ' ' => Some(NoPiece)
    case 'P' => Some(Piece(White, Pawn))
    case 'N' => Some(Piece(White, Knight))
    case 'B' => Some(Piece(White, Bishop))
    case 'R' => Some(Piece(White, Rook))
    case 'Q' => Some(Piece(White, Queen))
    case 'K' => Some(Piece(White, King))
    case 'p' => Some(Piece(Black, Pawn))
    case 'n' => Some(Piece(Black, Knight))
    case 'b' => Some(Piece(Black, Bishop))
    case 'r' => Some(Piece(Black, Rook))
    case 'q' => Some(Piece(Black, Queen))
    case 'k' => Some(Piece(Black, King))
    case _ => None
  }

  lemma PieceOfChar(pc: Piece)
    ensures PieceOf(CharOf(pc)) == Some(pc)
    ensures pc.Piece? ==> !IsDigit(CharOf(pc)) && CharOf(pc) != '/' && !IsSpace(CharOf(pc))
  {
  }

  // ----- why a FEN is refused -----

  datatype FenError =
    | RankNotFull | RankTooLow | BadSkip | BadFile | BadPiece(c: char) | TooManyOnBoard | EndOfStream | CursorNotAtEnd
    | PawnOnEdge | KingCount | PawnCount(color: Color) | PieceCount(color: Color)
    | BadSide(c: char) | NoSpaceAfterSide | TooManyRights | BadRight(c: char) | BadEnPassant | BadRule50
    | BadGamePly | KingCapturable

  // ----- reading -----

  /** The cursor: the next square is (file, rank); file 8 is past the end of the rank. */
  datatype Scan = Scan(board: Board, file: int, rank: int, pieces: nat)

  datatype Scanned = At(scan: Scan) | Bad(error: FenError)

  predicate InRange(sc: Scan) {
    0 <= sc.file <= 8 && 0 <= sc.rank < 8
  }

  function Start(): Scan {
    Scan(NoBoard(), 0, 7, 0)
  }

  /** What one character of the board field does. */
  function ReadChar(sc: Scan, c: char): (r: Scanned)
    requires InRange(sc)
    ensures r.At? ==> InRange(r.scan)
  {
    if c == '/' then
      if sc.file != 8 then Bad(RankNotFull)
      else if sc.rank == 0 then Bad(RankTooLow)
      else At(Scan(sc.board, 0, sc.rank - 1, sc.pieces))
    else if IsDigit(c) then
      if c == '0' || c == '9' then Bad(BadSkip)
      else if sc.file + DigitValue(c) > 8 then Bad(BadFile)
      else At(sc.(file := sc.file + DigitValue(c)))
    else
      var hit := PieceOf(c);
      if hit.None? || c == ' ' then Bad(BadPiece(c))
      else if sc.file >= 8 then Bad(BadFile)
      else if sc.pieces + 1 > 32 then Bad(TooManyOnBoard)
      else At(Scan(sc.board[MakeSquare(sc.file, sc.rank) := hit.value], sc.file + 1, sc.rank, sc.pieces + 1))
  }

  function ReadFrom(sc: Scan, s: string): (r: Scanned)
    requires InRange(sc)
    ensures r.At? ==> InRange(r.scan)
  {
    if s == "" then At(sc)
    else
      var r := ReadFrom(sc, s[..|s| - 1]);
      if r.Bad? then r else ReadChar(r.scan, s[|s| - 1])
  }

  /** The whole field, from an empty board. */
  function ReadBoard(s: string): Scanned {
    ReadFrom(Start(), s)
  }

  lemma {:induction false} ReadAppend(sc: Scan, s: string, t: string)
    requires InRange(sc) && ReadFrom(sc, s).At?
    ensures ReadFrom(sc, s + t) == ReadFrom(ReadFrom(sc, s).scan, t)
  {
    hide ReadChar;
    if t == "" {
      assert s + t == s;
    } else {
      assert (s + t)[..|s + t| - 1] == s + t[..|t| - 1];
      ReadAppend(sc, s, t[..|t| - 1]);
    }
  }

  // ----- writing -----

  /** How many empty squares follow from file f on. */
  function EmptyRun(b: Board, rank: int, f: int): (n: nat)
    requires 0 <= rank < 8 && 0 <= f <= 8
    ensures f + n <= 8
    ensures forall g :: f <= g < f + n ==> b[MakeSquare(g, rank)] == NoPiece
    ensures f + n < 8 ==> b[MakeSquare(f + n, rank)] != NoPiece
    decreases 8 - f
  {
    if f == 8 || b[MakeSquare(f, rank)] != NoPiece then 0 else 1 + EmptyRun(b, rank, f + 1)
  }

  function RankText(b: Board, rank: int, f: int): string
    requires 0 <= rank < 8 && 0 <= f <= 8
    decreases 8 - f
  {
    if f == 8 then ""
    else if b[MakeSquare(f, rank)] != NoPiece then [CharOf(b[MakeSquare(f, rank)])] + RankText(b, rank, f + 1)
    else
      var n := EmptyRun(b, rank, f);
      Numeral(n) + RankText(b, rank, f + n)
  }

  /** The ranks from this one down to the first. */
  function BoardText(b: Board, rank: int): string
    requires 0 <= rank < 8
  {
    RankText(b, rank, 0) + if rank > 0 then "/" + BoardText(b, rank - 1) else ""
  }

  // ----- the text reads back -----

  predicate Before(s: Square, f: int, rank: int) {
    Rank(s) > rank || (Rank(s) == rank && File(s) < f)
  }

  /** The squares that come before (f, rank) in writing order, the rest left empty. */
  function Upto(b: Board, f: int, rank: int): Board {
    seq(64, s requires 0 <= s < 64 => if Before(s, f, rank) then b[s] else NoPiece)
  }

  function Reached(b: Board, f: int, rank: int): Scan {
    Scan(Upto(b, f, rank), f, rank, |Occupied(Upto(b, f, rank))|)
  }

  lemma UptoPiece(b: Board, f: int, rank: int)
    requires 0 <= f < 8 && 0 <= rank < 8
    ensures Upto(b, f, rank)[MakeSquare(f, rank) := b[MakeSquare(f, rank)]] == Upto(b, f + 1, rank)
    ensures b[MakeSquare(f, rank)] != NoPiece ==>
              |Occupied(Upto(b, f + 1, rank))| == |Occupied(Upto(b, f, rank))| + 1 <= |Occupied(b)|
  {
    var s := MakeSquare(f, rank);
    var was, now := Upto(b, f, rank), Upto(b, f + 1, rank);
    forall t: Square
      ensures now[t] == if t == s then b[s] else was[t]
    {
      Coords(s); Coords(t);
      hide File, Rank;
    }
    assert was[s := b[s]] == now;
    if b[s] != NoPiece {
      assert Occupied(now) == Occupied(was) + {s} && s !in Occupied(was);
      Subset(Occupied(now), Occupied(b));
    }
  }

  lemma Subset(a: Bitboard, b: Bitboard)
    requires a <= b
    ensures |a| <= |b|
  {
    if a != {} {
      var x := Lsb(a);
      Subset(a - {x}, b - {x});
    }
  }

  lemma {:induction false} UptoRun(b: Board, f: int, rank: int, n: nat)
    requires 0 <= f <= f + n <= 8 && 0 <= rank < 8
    requires forall g :: f <= g < f + n ==> b[MakeSquare(g, rank)] == NoPiece
    ensures Upto(b, f, rank) == Upto(b, f + n, rank)
    decreases n
  {
    if n > 0 {
      UptoPiece(b, f, rank);
      assert Upto(b, f, rank)[MakeSquare(f, rank)] == NoPiece;
      assert Upto(b, f, rank) == Upto(b, f + 1, rank);
      UptoRun(b, f + 1, rank, n - 1);
    }
  }

  lemma OneDigit(n: nat)
    requires 1 <= n <= 8
    ensures var s := Numeral(n);
            |s| == 1 && IsDigit(s[0]) && DigitValue(s[0]) == n && s[0] != '0' && s[0] != '9' && s[0] != '/'
  {
    DigitBack(n);
  }

  lemma ReadOne(sc: Scan, c: char)
    requires InRange(sc)
    ensures ReadFrom(sc, [c]) == ReadChar(sc, c)
  {
    assert [c][..0] == "";
  }

  lemma {:induction false} RankReads(b: Board, rank: int, f: int)
    requires 0 <= rank < 8 && 0 <= f <= 8 && |Occupied(b)| <= 32
    ensures ReadFrom(Reached(b, f, rank), RankText(b, rank, f)) == At(Reached(b, 8, rank))
    decreases 8 - f
  {
    hide *;
    RankTextIs(b, rank, f);
    ReachedFits(b, f, rank);
    if f < 8 {
      if b[MakeSquare(f, rank)] != NoPiece {
        PieceReads(b, rank, f);
        ReadAppend(Reached(b, f, rank), [CharOf(b[MakeSquare(f, rank)])], RankText(b, rank, f + 1));
        RankReads(b, rank, f + 1);
      } else {
        var n := EmptyRun(b, rank, f);
        EmptyRunStarts(b, rank, f);
        RunReads(b, rank, f);
        ReadAppend(Reached(b, f, rank), Numeral(n), RankText(b, rank, f + n));
        RankReads(b, rank, f + n);
      }
    } else {
      ReadNothing(Reached(b, f, rank));
    }
  }

  lemma RankTextIs(b: Board, rank: int, f: int)
    requires 0 <= rank < 8 && 0 <= f <= 8
    ensures RankText(b, rank, f) ==
            if f == 8 then ""
            else if b[MakeSquare(f, rank)] != NoPiece then [CharOf(b[MakeSquare(f, rank)])] + RankText(b, rank, f + 1)
            else Numeral(EmptyRun(b, rank, f)) + RankText(b, rank, f + EmptyRun(b, rank, f))
  {
    hide CharOf, Numeral;
  }

  lemma ReadNothing(sc: Scan)
    requires InRange(sc)
    ensures ReadFrom(sc, "") == At(sc)
  {
  }

  lemma ReachedFits(b: Board, f: int, rank: int)
    requires 0 <= f <= 8 && 0 <= rank < 8
    ensures InRange(Reached(b, f, rank))
  {
    hide Upto, Occupied;
  }

  lemma PieceReads(b: Board, rank: int, f: int)
    requires 0 <= rank < 8 && 0 <= f < 8 && |Occupied(b)| <= 32 && b[MakeSquare(f, rank)] != NoPiece
    ensures InRange(Reached(b, f, rank))
    ensures ReadFrom(Reached(b, f, rank), [CharOf(b[MakeSquare(f, rank)])]) == At(Reached(b, f + 1, rank))
  {
    var s := MakeSquare(f, rank);
    PieceOfChar(b[s]);
    UptoPiece(b, f, rank);
    hide Upto, Occupied, CharOf, PieceOf, ReadFrom;
    ReadOne(Reached(b, f, rank), CharOf(b[s]));
  }

  lemma RunReads(b: Board, rank: int, f: int)
    requires 0 <= rank < 8 && 0 <= f < 8 && b[MakeSquare(f, rank)] == NoPiece
    ensures InRange(Reached(b, f, rank))
    ensures var n := EmptyRun(b, rank, f); ReadFrom(Reached(b, f, rank), Numeral(n)) == At(Reached(b, f + n, rank))
  {
    var n := EmptyRun(b, rank, f);
    EmptyRunStarts(b, rank, f);
    OneDigit(n);
    UptoRun(b, f, rank, n);
    hide Upto, Occupied, EmptyRun, Numeral, ReadFrom;
    ReadOne(Reached(b, f, rank), Numeral(n)[0]);
    assert Numeral(n) == [Numeral(n)[0]];
  }

  lemma EmptyRunStarts(b: Board, rank: int, f: int)
    requires 0 <= rank < 8 && 0 <= f < 8 && b[MakeSquare(f, rank)] == NoPiece
    ensures EmptyRun(b, rank, f) >= 1
  {
  }

  lemma UptoNextRank(b: Board, rank: int)
    requires 1 <= rank < 8
    ensures Upto(b, 8, rank) == Upto(b, 0, rank - 1)
  {
  }

  lemma {:induction false} BoardReads(b: Board, rank: int)
    requires 0 <= rank < 8 && |Occupied(b)| <= 32
    ensures ReadFrom(Reached(b, 0, rank), BoardText(b, rank)) == At(Reached(b, 8, 0))
  {
    hide *;
    BoardTextIs(b, rank);
    RankReads(b, rank, 0);
    ReachedFits(b, 0, rank);
    ReachedFits(b, 8, rank);
    if rank > 0 {
      UptoNextRank(b, rank);
      ReadOne(Reached(b, 8, rank), '/');
      NextRank(b, rank);
      BoardReads(b, rank - 1);
      ReadAppend(Reached(b, 8, rank), "/", BoardText(b, rank - 1));
      ReadAppend(Reached(b, 0, rank), RankText(b, rank, 0), "/" + BoardText(b, rank - 1));
    }
  }

  lemma BoardTextIs(b: Board, rank: int)
    requires 0 <= rank < 8
    ensures BoardText(b, rank) == if rank > 0 then RankText(b, rank, 0) + ("/" + BoardText(b, rank - 1))
      else RankText(b, rank, 0)
  {
    hide RankText;
    assert RankText(b, rank, 0) + "" == RankText(b, rank, 0);
  }

  lemma NextRank(b: Board, rank: int)
    requires 1 <= rank < 8
    ensures InRange(Reached(b, 8, rank)) && InRange(Reached(b, 0, rank - 1))
    ensures ReadChar(Reached(b, 8, rank), '/') == At(Reached(b, 0, rank - 1))
  {
    UptoNextRank(b, rank);
    hide Upto, Occupied;
  }

  /** The board field reads back as the board, with the cursor at its end. */
  lemma BoardFieldReads(b: Board)
    requires |Occupied(b)| <= 32
    ensures ReadBoard(BoardText(b, 7)) == At(Scan(b, 8, 0, |Occupied(b)|))
  {
    assert Upto(b, 0, 7) == NoBoard() && Upto(b, 8, 0) == b;
    assert Occupied(NoBoard()) == {};
    BoardReads(b, 7);
    hide BoardText, ReadFrom, Upto;
  }
}
