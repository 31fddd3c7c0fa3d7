/** FEN text of a whole position (PGN Standard, section 16.1, with Shredder rook files): what
    parsing accepts, what printing writes, and that the two undo each other. */
module Fen {
  import opened Squares
  import opened Types
  import opened Board
  import opened Rules
  import opened Derived
  import opened Decimals
  import opened FenBoard
  import opened FenRights

  // ----- material a game can reach -----

  function Count(b: Board, c: Color, kind: PieceType): nat {
    |PiecesOf(b, Piece(c, kind))|
  }

  function Over(n: nat, most: nat): nat {
    if n > most then n - most else 0
  }

  /** Pieces beyond the opening set, each of which was a pawn once. */
  function Additional(b: Board, c: Color): nat {
    Over(Count(b, c, Knight), 2) + Over(Count(b, c, Bishop), 2) + Over(Count(b, c, Rook), 2) +
      Over(Count(b, c, Queen), 1)
  }

  predicate MaterialFits(b: Board, c: Color) {
    Count(b, c, Pawn) <= 8 && Additional(b, c) <= 8 - Count(b, c, Pawn)
  }

  // ----- parsing -----

  datatype FenResult = Parsed(pos: Pos) | Rejected(error: FenError)

  /** The first blank, or the length. */
  function WordEnd(s: string): (n: nat)
    ensures n <= |s| && (n < |s| ==> IsSpace(s[n]))
  {
    if s == "" || IsSpace(s[0]) then 0 else 1 + WordEnd(s[1..])
  }

  function MaterialFault(b: Board, c: Color): Option<FenError> {
    if Count(b, c, Pawn) > 8 then Some(PawnCount(c))
    else if Additional(b, c) > 8 - Count(b, c, Pawn) then Some(PieceCount(c))
    else None
  }

  function BoardFault(b: Board): (r: Option<FenError>)
    ensures r.None? ==> HasKing(b, White) && HasKing(b, Black)
  {
    if !PawnsInside(b) then Some(PawnOnEdge)
    else if !HasKing(b, White) || !HasKing(b, Black) then Some(KingCount)
    else if MaterialFault(b, White).Some? then MaterialFault(b, White)
    else MaterialFault(b, Black)
  }

  /** scanf's %d: blanks, a sign, at least one digit. */
  function ScanInt(s: string): Option<(int, string)> {
    var t := DropSpaces(s);
    var signed := t != "" && (t[0] == '-' || t[0] == '+');
    var u := if signed then t[1..] else t;
    var d := Digits(u);
    if d == 0 then None
    else
      var n: int := Number(u[..d]);
      Some((if signed && t[0] == '-' then -n else n, u[d..]))
  }

  /** The two counters; a missing one reads as in a new game. */
  function Counters(s: string): (int, int) {
    var first := ScanInt(s);
    if first.None? then (0, 1)
    else
      var second := ScanInt(first.value.1);
      (first.value.0, if second.None? then 1 else second.value.0)
  }

  function PlyOf(full: nat, side: Color): nat {
    2 * (if full > 0 then full - 1 else 0) + if side == Black then 1 else 0
  }

  ghost function ParseCounters(b: Board, side: Color, rt: Rights, ep: Option<Square>, s: string): FenResult
    requires HasKing(b, White) && HasKing(b, Black)
  {
    if !(0 <= Counters(s).0 <= 32767) then Rejected(BadRule50)
    else if !(0 <= Counters(s).1 <= 100000) then Rejected(BadGamePly)
    else if InCheck(b, Flip(side)) then Rejected(KingCapturable)
    else Parsed(Pos(b, side, rt.held, rt.rooks, ep, Counters(s).0, 0, PlyOf(Counters(s).1, side)))
  }

  /** The square on the rank the side to move captures towards. */
  function EpNamed(c: char, side: Color): Square
    requires 'a' <= c <= 'h'
  {
    MakeSquare(c as int - 'a' as int, if side == White then 5 else 2)
  }

  /** An en-passant square is kept only if some capture on it is legal. */
  ghost function KeptEp(b: Board, side: Color, e: Square): Option<Square> {
    if EpSound(b, side, e) then Some(e) else None
  }

  ghost function ParseEp(b: Board, side: Color, rt: Rights, s: string): FenResult
    requires HasKing(b, White) && HasKing(b, Black)
  {
    if s == "" then ParseCounters(b, side, rt, None, s)
    else if s[0] == '-' then ParseCounters(b, side, rt, None, s[1..])
    else if |s| == 1 then Rejected(EndOfStream)
    else if !('a' <= s[0] <= 'h') || s[1] != (if side == White then '6' else '3') then Rejected(BadEnPassant)
    else ParseCounters(b, side, rt, KeptEp(b, side, EpNamed(s[0], side)), s[2..])
  }

  ghost function ParseSide(b: Board, s: string): FenResult
    requires HasKing(b, White) && HasKing(b, Black)
  {
    if s == "" then Rejected(EndOfStream)
    else if s[0] != 'w' && s[0] != 'b' then Rejected(BadSide(s[0]))
    else if |s| < 2 || !IsSpace(s[1]) then Rejected(NoSpaceAfterSide)
    else
      var r := ReadRights(b, NO_RIGHTS, 0, s[2..]);
      if r.Failed? then Rejected(r.error)
      else ParseEp(b, if s[0] == 'w' then White else Black, r.rights, r.rest)
  }

  ghost function ParseBoard(b: Board, s: string): FenResult {
    if BoardFault(b).Some? then Rejected(BoardFault(b).value) else ParseSide(b, s)
  }

  /** The board field has been read; what is left begins with the blank that ended it. */
  ghost function ParseRest(read: Scanned, rest: string): FenResult {
    if read.Bad? then Rejected(read.error)
    else if rest == "" then Rejected(EndOfStream)
    else if read.scan.file != 8 || read.scan.rank != 0 then Rejected(CursorNotAtEnd)
    else ParseBoard(read.scan.board, rest[1..])
  }

  /** pos_set_reason: field by field, each ended by the one character that ends it. */
  ghost function ParseFen(s: string): FenResult {
    ParseRest(ReadBoard(s[..WordEnd(s)]), s[WordEnd(s)..])
  }

  /** The source counts kings. */
  lemma OneKing(b: Board, c: Color)
    ensures Count(b, c, King) == 1 <==> HasKing(b, c)
  {
    var kings := PiecesOf(b, Piece(c, King));
    if |kings| == 1 {
      var k :| k in kings;
      forall s: Square | b[s] == Piece(c, King)
        ensures s == k
      {
        assert s in kings;
        assert |kings - {k}| == 0;
        assert s !in kings - {k};
      }
      assert IsKing(b, c, k);
    }
    if HasKing(b, c) {
      var k: Square :| IsKing(b, c, k);
      assert kings == {k};
    }
  }

  // ----- every parsed position is one the code works on -----

  /** What a game keeps besides well-formedness: rights whose king stands off the corners, and
      material a game can reach. */
  ghost predicate Standing(p: Pos) {
    && RightsSound(p.board, p.rights, p.rooks)
    && MaterialFits(p.board, White) && MaterialFits(p.board, Black)
  }

  /** Black moves on the odd plies. */
  predicate PlyFits(p: Pos) {
    p.gamePly % 2 == 1 <==> p.side == Black
  }

  /** What the fields behind the board establish. */
  ghost predicate Shaped(b: Board, p: Pos)
    requires HasKing(b, White) && HasKing(b, Black)
  {
    && p.board == b && !InCheck(b, Flip(p.side)) && RightsSound(b, p.rights, p.rooks)
    && (p.ep.Some? ==> EpSound(b, p.side, p.ep.value))
    && PlyFits(p) && p.rule50 <= 32767 && p.sinceNull == 0
  }

  lemma CountersShape(b: Board, side: Color, rt: Rights, ep: Option<Square>, s: string)
    requires HasKing(b, White) && HasKing(b, Black) && RightsSound(b, rt.held, rt.rooks)
    requires ep.Some? ==> EpSound(b, side, ep.value)
    ensures var r := ParseCounters(b, side, rt, ep, s); r.Parsed? ==> Shaped(b, r.pos)
  {
    hide HasKing, InCheck, RightsSound, EpSound, Counters;
  }

  lemma EpShape(b: Board, side: Color, rt: Rights, s: string)
    requires HasKing(b, White) && HasKing(b, Black) && RightsSound(b, rt.held, rt.rooks)
    ensures var r := ParseEp(b, side, rt, s); r.Parsed? ==> Shaped(b, r.pos)
  {
    hide HasKing, RightsSound, EpSound, ParseCounters, Shaped;
    if s == "" || s[0] == '-' {
      CountersShape(b, side, rt, None, if s == "" then s else s[1..]);
    } else if |s| > 1 && 'a' <= s[0] <= 'h' {
      CountersShape(b, side, rt, KeptEp(b, side, EpNamed(s[0], side)), s[2..]);
    }
  }

  lemma SideShape(b: Board, s: string)
    requires HasKing(b, White) && HasKing(b, Black)
    ensures ParseSide(b, s).Parsed? ==> Shaped(b, ParseSide(b, s).pos)
  {
    hide HasKing, RightsSound, ParseEp, Shaped, ReadRights;
    if |s| >= 2 {
      NoRightsSound(b);
      ReadRightsSound(b, NO_RIGHTS, 0, s[2..]);
      var r := ReadRights(b, NO_RIGHTS, 0, s[2..]);
      if r.Done? {
        EpShape(b, if s[0] == 'w' then White else Black, r.rights, r.rest);
      }
    }
  }

  lemma ParsedShape(s: string)
    requires ParseFen(s).Parsed?
    ensures var p := ParseFen(s).pos;
            BoardFault(p.board).None? && HasKing(p.board, White) && HasKing(p.board, Black) && Shaped(p.board, p)
  {
    hide BoardFault, HasKing, ReadBoard, WordEnd, ParseSide;
    var b, rest := ReadBoard(s[..WordEnd(s)]).scan.board, s[WordEnd(s)..][1..];
    SideShape(b, rest);
  }

  lemma NoRightsSound(b: Board)
    ensures RightsSound(b, NO_RIGHTS.held, NO_RIGHTS.rooks)
  {
  }

  lemma FaultlessBoard(b: Board)
    ensures BoardFault(b).None? <==>
              PawnsInside(b) && HasKing(b, White) && HasKing(b, Black) && MaterialFits(b, White) &&
                MaterialFits(b, Black)
  {
    hide HasKing, Count, PawnsInside, Additional;
  }

  /** A FEN that is accepted stands for a well-formed position. */
  lemma ParsedSound(s: string)
    requires ParseFen(s).Parsed?
    ensures WellFormed(ParseFen(s).pos) && Standing(ParseFen(s).pos) && PlyFits(ParseFen(s).pos) &&
            ParseFen(s).pos.sinceNull == 0
  {
    hide *;
    ParsedShape(s);
    FaultlessBoard(ParseFen(s).pos.board);
    Founded(ParseFen(s).pos);
  }

  lemma Founded(p: Pos)
    requires HasKing(p.board, White) && HasKing(p.board, Black) && Shaped(p.board, p) && PawnsInside(p.board)
    requires MaterialFits(p.board, White) && MaterialFits(p.board, Black)
    ensures WellFormed(p) && Standing(p) && PlyFits(p) && p.sinceNull == 0
  {
    assert RightsHome(p.board, p.rights, p.rooks) by {
      forall r | r in p.rights
        ensures exists k: Square :: RightHome(p.board, p.rooks, r, k)
      {
        assert RightSound(p.board, p.rooks, r);
      }
    }
    hide HasKing, InCheck, PawnsInside, MaterialFits, RightsSound, RightsHome, EpSound;
  }

  // ----- printing -----

  function EpText(ep: Option<Square>): string {
    if ep.None? then "-"
    else [('a' as int + File(ep.value)) as char, ('1' as int + Rank(ep.value)) as char]
  }

  /** The move number, with C's division towards zero. */
  function FullMove(p: Pos): nat {
    var n := p.gamePly - if p.side == Black then 1 else 0;
    1 + if n < 0 then 0 else n / 2
  }

  function CountersText(p: Pos): string {
    " " + Numeral(p.rule50) + (" " + Numeral(FullMove(p)))
  }

  function SideText(side: Color): string {
    if side == White then "w " else "b "
  }

  /** pos_fen. */
  function Fen(p: Pos, chess960: bool): string
    requires forall r :: r in p.rights ==> r in p.rooks
  {
    BoardText(p.board, 7)
    + (" " + (SideText(p.side) + (RightsText(p.rights, p.rooks, chess960) + (" " + (EpText(p.ep) + CountersText(p))))))
  }

  // ----- a printed position reads back -----

  /** The counters fit what the parser accepts. */
  predicate CountersFit(p: Pos) {
    p.rule50 <= 32767 && FullMove(p) <= 100000
  }

  /** What is read back: the rooks the printed rights name, no null-move count, and a ply rebuilt
      from the move number. */
  function Reread(p: Pos, chess960: bool): Pos
    requires forall r :: r in p.rights ==> r in p.rooks
  {
    var named := NamedRooks(p.board, p.rights, p.rooks, chess960);
    p.(rooks := Restored(NO_RIGHTS, p.rights, named, 0).rooks, sinceNull := 0, gamePly := PlyOf(FullMove(p), p.side))
  }

  /** The ply survives exactly when its parity is the side's. */
  lemma PlyBack(p: Pos)
    ensures PlyOf(FullMove(p), p.side) == p.gamePly <==> PlyFits(p)
  {
  }

  lemma NumeralScans(n: nat, rest: string)
    requires rest == "" || rest[0] == ' '
    ensures ScanInt(" " + Numeral(n) + rest) == Some((n, rest))
  {
    var d := Numeral(n);
    var s := " " + d + rest;
    NumeralWhole(n, rest);
    assert s == " " + (d + rest) && (d + rest)[0] == d[0];
    assert IsDigit(d[0]);
    DropOne(d + rest);
    hide Numeral, Digits, Number;
  }

  lemma NumeralWhole(n: nat, rest: string)
    requires rest == "" || rest[0] == ' '
    ensures var u := Numeral(n) + rest;
            Digits(u) == |Numeral(n)| && u[..|Numeral(n)|] == Numeral(n) && Number(u[..|Numeral(n)|]) == n &&
              u[|Numeral(n)|..] == rest
  {
    var d := Numeral(n);
    NumberOfNumeral(n);
    assert (d + rest)[..|d|] == d;
    RunIs(d + rest, |d|);
    hide Numeral, Number;
  }

  lemma CountersRead(p: Pos)
    ensures Counters(CountersText(p)) == (p.rule50, FullMove(p))
  {
    hide Numeral, ScanInt, FullMove;
    NumeralScans(p.rule50, " " + Numeral(FullMove(p)));
    NumeralScans(FullMove(p), "");
    assert " " + Numeral(FullMove(p)) + "" == " " + Numeral(FullMove(p));
  }

  lemma CountersParse(p: Pos, b: Board, rt: Rights)
    requires HasKing(b, White) && HasKing(b, Black) && !InCheck(b, Flip(p.side))
    ensures var r := ParseCounters(b, p.side, rt, p.ep, CountersText(p));
            if CountersFit(p)
            then r == Parsed(Pos(b, p.side, rt.held, rt.rooks, p.ep, p.rule50, 0, PlyOf(FullMove(p), p.side)))
            else r == Rejected(if p.rule50 > 32767 then BadRule50 else BadGamePly)
  {
    CountersRead(p);
    hide HasKing, InCheck, Counters, CountersText, FullMove;
  }

  /** An en-passant square a position holds is named by its text and kept. */
  lemma EpParses(p: Pos, rt: Rights, rest: string)
    requires HasKing(p.board, White) && HasKing(p.board, Black) && (p.ep.Some? ==> EpSound(p.board, p.side, p.ep.value))
    ensures ParseEp(p.board, p.side, rt, EpText(p.ep) + rest) == ParseCounters(p.board, p.side, rt, p.ep, rest)
    ensures EpText(p.ep) != "" && !IsSpace(EpText(p.ep)[0])
  {
    hide HasKing, ParseCounters;
    if p.ep.None? {
      assert ("-" + rest)[1..] == rest;
    } else {
      var e := p.ep.value;
      var s := EpText(p.ep) + rest;
      EpNames(p.board, p.side, e);
      hide EpSound, EpNamed;
      assert s[2..] == rest && s[0] == EpText(p.ep)[0] && s[1] == EpText(p.ep)[1];
    }
  }

  lemma EpNames(b: Board, side: Color, e: Square)
    requires EpSound(b, side, e)
    ensures var t := EpText(Some(e));
            |t| == 2 && 'a' <= t[0] <= 'h' && t[1] == (if side == White then '6' else '3') && EpNamed(t[0], side) == e
  {
    assert RelativeRank(side, e) == 5;
    hide EpSound;
    Coords(e);
    hide File, Rank;
  }

  lemma SideParses(p: Pos, rest: string)
    requires HasKing(p.board, White) && HasKing(p.board, Black)
    ensures ParseSide(p.board, SideText(p.side) + rest) ==
            var r := ReadRights(p.board, NO_RIGHTS, 0, rest);
            if r.Failed? then Rejected(r.error) else ParseEp(p.board, p.side, r.rights, r.rest)
  {
    assert (SideText(p.side) + rest)[2..] == rest;
    hide HasKing, ReadRights, ParseEp;
  }

  // ----- the board field and its end -----

  predicate NoBlank(s: string) {
    forall i :: 0 <= i < |s| ==> !IsSpace(s[i])
  }

  lemma {:induction false} WordEnds(word: string, rest: string)
    requires NoBlank(word) && rest != "" && IsSpace(rest[0])
    ensures WordEnd(word + rest) == |word|
    decreases |word|
  {
    if word != "" {
      assert (word + rest)[1..] == word[1..] + rest;
      WordEnds(word[1..], rest);
    } else {
      assert word + rest == rest;
    }
  }

  lemma {:induction false} RankTextPlain(b: Board, rank: int, f: int)
    requires 0 <= rank < 8 && 0 <= f <= 8
    ensures NoBlank(RankText(b, rank, f))
    decreases 8 - f
  {
    hide CharOf, Numeral, IsSpace;
    if f < 8 {
      if b[MakeSquare(f, rank)] != NoPiece {
        PieceOfChar(b[MakeSquare(f, rank)]);
        RankTextPlain(b, rank, f + 1);
      } else {
        var n := EmptyRun(b, rank, f);
        EmptyRunStarts(b, rank, f);
        NumeralPlain(n);
        hide EmptyRun;
        RankTextPlain(b, rank, f + n);
      }
    }
  }

  lemma NumeralPlain(n: nat)
    ensures NoBlank(Numeral(n))
  {
    var s := Numeral(n);
    assert forall i :: 0 <= i < |s| ==> IsDigit(s[i]);
    hide Numeral;
  }

  lemma {:induction false} BoardTextPlain(b: Board, rank: int)
    requires 0 <= rank < 8
    ensures NoBlank(BoardText(b, rank))
  {
    hide *;
    RankTextPlain(b, rank, 0);
    BoardTextIs(b, rank);
    if rank > 0 {
      BoardTextPlain(b, rank - 1);
      SlashPlain();
      PlainTogether("/", BoardText(b, rank - 1));
      PlainTogether(RankText(b, rank, 0), "/" + BoardText(b, rank - 1));
    }
  }

  lemma SlashPlain()
    ensures NoBlank("/")
  {
  }

  lemma PlainTogether(s: string, t: string)
    requires NoBlank(s) && NoBlank(t)
    ensures NoBlank(s + t)
  {
    hide IsSpace;
  }

  // ----- at most 32 pieces -----

  /** The material bound leaves at most sixteen pieces a side. */
  lemma MaterialTotal(b: Board, c: Color)
    requires MaterialFits(b, c) && HasKing(b, c)
    ensures |OfColor(b, c)| <= 16
  {
    OneKing(b, c);
    var pawns, knights, bishops := PiecesOf(b, Piece(c, Pawn)), PiecesOf(b, Piece(c, Knight)),
      PiecesOf(b, Piece(c, Bishop));
    var rooks, queens, kings := PiecesOf(b, Piece(c, Rook)), PiecesOf(b, Piece(c, Queen)), PiecesOf(b, Piece(c, King));
    ColorParts(b, c);
    UnionSize(pawns, knights);
    UnionSize(pawns + knights, bishops);
    UnionSize(pawns + knights + bishops, rooks);
    UnionSize(pawns + knights + bishops + rooks, queens);
    UnionSize(pawns + knights + bishops + rooks + queens, kings);
    hide PiecesOf, OfColor, HasKing;
  }

  lemma ColorParts(b: Board, c: Color)
    ensures OfColor(b, c) == PiecesOf(b, Piece(c, Pawn)) + PiecesOf(b, Piece(c, Knight)) + PiecesOf(b, Piece(c, Bishop))
                             + PiecesOf(b, Piece(c, Rook)) + PiecesOf(b, Piece(c, Queen)) + PiecesOf(b, Piece(c, King))
  {
    forall s: Square
      ensures IsColor(b, c, s) <==>
                b[s] == Piece(c, Pawn) || b[s] == Piece(c, Knight) || b[s] == Piece(c, Bishop)
                || b[s] == Piece(c, Rook) || b[s] == Piece(c, Queen) || b[s] == Piece(c, King)
    {
      if b[s].Piece? {
        match b[s].kind
        case Pawn => case Knight => case Bishop => case Rook => case Queen => case King =>
      }
    }
    hide IsColor;
  }

  lemma UnionSize(a: Bitboard, b: Bitboard)
    ensures |a + b| <= |a| + |b|
  {
    assert |a + b| == |a| + |b| - |a * b|;
  }

  lemma AtMost32(b: Board)
    requires MaterialFits(b, White) && MaterialFits(b, Black) && HasKing(b, White) && HasKing(b, Black)
    ensures |Occupied(b)| <= 32
  {
    MaterialTotal(b, White);
    MaterialTotal(b, Black);
    assert Occupied(b) == OfColor(b, White) + OfColor(b, Black) by {
      forall s: Square
        ensures b[s] != NoPiece <==> IsColor(b, White, s) || IsColor(b, Black, s)
      {
      }
      hide IsColor;
    }
    UnionSize(OfColor(b, White), OfColor(b, Black));
    hide Occupied, OfColor, MaterialFits, HasKing;
  }

  // ----- the round trip -----

  /** Everything needed for a position to be read back as it was. */
  ghost predicate Printable(p: Pos, chess960: bool) {
    AllNameable(p.board, p.rights, p.rooks, chess960) && CountersFit(p) && PlyFits(p)
  }

  lemma SoundRooks(b: Board, rights: set<Right>, rooks: map<Right, Square>)
    requires RightsSound(b, rights, rooks)
    ensures forall r :: r in rights ==> r in rooks
  {
    forall r | r in rights
      ensures r in rooks
    {
      assert RightSound(b, rooks, r);
    }
  }

  lemma StandingParts(p: Pos)
    requires WellFormed(p) && Standing(p)
    ensures HasKing(p.board, White) && HasKing(p.board, Black) && !InCheck(p.board, Flip(p.side)) &&
            PawnsInside(p.board)
    ensures p.ep.Some? ==> EpSound(p.board, p.side, p.ep.value)
    ensures RightsSound(p.board, p.rights, p.rooks) && MaterialFits(p.board, White) && MaterialFits(p.board, Black)
    ensures forall r :: r in p.rights ==> r in p.rooks
  {
    SoundRooks(p.board, p.rights, p.rooks);
    hide HasKing, InCheck, PawnsInside, EpSound, RightsSound, MaterialFits, RightsHome;
  }

  lemma FenIs(p: Pos, chess960: bool)
    requires forall r :: r in p.rights ==> r in p.rooks
    ensures Fen(p, chess960) ==
            BoardText(p.board, 7)
            + (" " + (SideText(p.side) +
                (RightsText(p.rights, p.rooks, chess960) + (" " + (EpText(p.ep) + CountersText(p))))))
  {
    hide BoardText, RightsText, CountersText;
  }

  /** What stands before the blank is the board, and the parser goes on behind it. */
  lemma BoardParses(b: Board, rest: string)
    requires |Occupied(b)| <= 32 && BoardFault(b).None?
    ensures HasKing(b, White) && HasKing(b, Black)
    ensures ParseFen(BoardText(b, 7) + (" " + rest)) == ParseSide(b, rest)
  {
    var word := BoardText(b, 7);
    BoardFieldReads(b);
    BoardTextPlain(b, 7);
    WordEnds(word, " " + rest);
    assert (word + (" " + rest))[..|word|] == word && (word + (" " + rest))[|word|..] == " " + rest &&
           (" " + rest)[1..] == rest;
    hide BoardText, ReadBoard, BoardFault, HasKing, ParseSide, Occupied, WordEnd, NoBlank;
  }

  lemma FirstOf(s: string, t: string)
    requires s != ""
    ensures s + t != "" && (s + t)[0] == s[0]
  {
  }

  /** pos_set reads what pos_fen writes: board, side, rights, en-passant square and rule-50 counter
      as they were, the rooks its letters name; or refuses a counter out of range. */
  lemma FenReads(p: Pos, chess960: bool)
    requires WellFormed(p) && Standing(p)
    ensures forall r :: r in p.rights ==> r in p.rooks
    ensures ParseFen(Fen(p, chess960)) ==
            if CountersFit(p) then Parsed(Reread(p, chess960))
              else Rejected(if p.rule50 > 32767 then BadRule50 else BadGamePly)
  {
    hide *;
    StandingParts(p);
    FaultlessBoard(p.board);
    AtMost32(p.board);
    FenIs(p, chess960);
    var named := NamedRooks(p.board, p.rights, p.rooks, chess960);
    NamedRooksAre(p.board, p.rights, p.rooks, chess960);
    var rt := Restored(NO_RIGHTS, p.rights, named, 0);
    var t := EpText(p.ep) + CountersText(p);
    BoardParses(p.board, SideText(p.side) + (RightsText(p.rights, p.rooks, chess960) + (" " + t)));
    SideParses(p, RightsText(p.rights, p.rooks, chess960) + (" " + t));
    EpParses(p, rt, CountersText(p));
    FirstOf(EpText(p.ep), CountersText(p));
    RightsFieldReads(p.board, p.rights, p.rooks, chess960, t);
    CountersParse(p, p.board, rt);
    RestoredAll(p.rights, named);
    RereadIs(p, chess960);
  }

  lemma RereadIs(p: Pos, chess960: bool)
    requires forall r :: r in p.rights ==> r in p.rooks
    ensures var named := NamedRooks(p.board, p.rights, p.rooks, chess960);
            && (forall r :: r in p.rights ==> r in named)
            && var rt := Restored(NO_RIGHTS, p.rights, named, 0);
               rt.held == p.rights ==>
                 Reread(p, chess960) ==
                   Pos(p.board, p.side, rt.held, rt.rooks, p.ep, p.rule50, 0, PlyOf(FullMove(p), p.side))
  {
    hide Restored, FullMove, PlyOf, NamedRook;
  }

  /** r is p again: the rooks of held rights only, and no null-move count. */
  predicate Restores(r: FenResult, p: Pos)
    requires forall x :: x in p.rights ==> x in p.rooks
  {
    && r.Parsed? && r.pos == p.(rooks := r.pos.rooks, sinceNull := 0)
    && r.pos.rooks.Keys == p.rights && forall x :: x in p.rights ==> r.pos.rooks[x] == p.rooks[x]
  }

  /** In full: the position comes back exactly when its rooks can be named, its counters are in
      range and its ply has the side's parity. */
  lemma RoundTrip(p: Pos, chess960: bool)
    requires WellFormed(p) && Standing(p)
    ensures forall r :: r in p.rights ==> r in p.rooks
    ensures Restores(ParseFen(Fen(p, chess960)), p) <==> Printable(p, chess960)
  {
    hide *;
    StandingParts(p);
    FenReads(p, chess960);
    PlyBack(p);
    PrintableIs(p, chess960);
    if CountersFit(p) {
      RereadRestores(p, chess960);
      NamedRooksMean(p.board, p.rights, p.rooks, chess960);
    } else {
      RejectedRestores(p);
    }
  }

  lemma PrintableIs(p: Pos, chess960: bool)
    ensures Printable(p, chess960) <==>
            AllNameable(p.board, p.rights, p.rooks, chess960) && CountersFit(p) && PlyFits(p)
  {
    hide AllNameable, CountersFit, PlyFits;
  }

  lemma RejectedRestores(p: Pos)
    requires forall r :: r in p.rights ==> r in p.rooks
    ensures forall e :: !Restores(Rejected(e), p)
  {
  }

  lemma RereadRestores(p: Pos, chess960: bool)
    requires forall r :: r in p.rights ==> r in p.rooks
    ensures var named := NamedRooks(p.board, p.rights, p.rooks, chess960);
            Restores(Parsed(Reread(p, chess960)), p) <==>
              PlyOf(FullMove(p), p.side) == p.gamePly && forall r :: r in p.rights ==> named[r] == p.rooks[r]
  {
    var named := NamedRooks(p.board, p.rights, p.rooks, chess960);
    RestoredAll(p.rights, named);
    hide Restored, FullMove, PlyOf, NamedRook;
  }
}
