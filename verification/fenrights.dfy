/** The castling field of a FEN string: KQkq or Shredder file letters, read and written. */
module FenRights {
  import opened Squares
  import opened Types
  import opened Board
  import opened Rules
  import opened Play
  import opened Decimals
  import opened FenBoard

  // ----- tokens -----

  datatype Token = Unknown | Corner(color: Color, wing: Wing) | OnFile(color: Color, file: int)

  /** Lower case is Black; K and Q name a wing, A to H the file of the rook. */
  function TokenOf(c: char): (t: Token)
    ensures t.OnFile? ==> 0 <= t.file < 8
  {
    var color := if 'a' <= c <= 'z' then Black else White;
    var t := if c >= 'a' then c as int - 32 else c as int;
    if t == 'K' as int then Corner(color, KingSide)
    else if t == 'Q' as int then Corner(color, QueenSide)
    else if 'A' as int <= t <= 'H' as int then OnFile(color, t - 'A' as int)
    else Unknown
  }

  /** From a corner inwards, `left` squares at most: the first rook met, once the king is. */
  function ScanCorner(b: Board, c: Color, wing: Wing, file: int, left: nat, rook: Option<Square>): Option<Square>
    requires 0 <= file < 8 && if wing == KingSide then left <= file else file + left <= 7
    decreases left
  {
    if left == 0 then None
    else
      var s := MakeSquare(file, BackRank(c));
      if b[s] == Piece(c, King) then rook
      else
        ScanCorner(b, c, wing, if wing == KingSide then file - 1 else file + 1, left - 1,
                   if b[s] == Piece(c, Rook) && rook.None? then Some(s) else rook)
  }

  predicate KingOnFiles(b: Board, c: Color, lo: int, hi: int)
    requires 0 <= lo <= hi <= 8
  {
    exists f :: lo <= f < hi && b[MakeSquare(f, BackRank(c))] == Piece(c, King)
  }

  /** The rook a token stands for, when the king stands where a right needs it. */
  function TokenRook(b: Board, t: Token): Option<Square> {
    match t
    case Unknown => None
    case Corner(c, KingSide) => ScanCorner(b, c, KingSide, 7, 7, None)
    case Corner(c, QueenSide) => ScanCorner(b, c, QueenSide, 0, 7, None)
    case OnFile(c, f) =>
      if 0 <= f < 8 && b[MakeSquare(f, BackRank(c))] == Piece(c, Rook) && KingOnFiles(b, c, 1, 7)
      then Some(MakeSquare(f, BackRank(c))) else None
  }

  // ----- rights -----

  datatype Rights = Rights(held: set<Right>, rooks: map<Right, Square>)

  const NO_RIGHTS := Rights({}, map[])

  /** A right's king stands off the corner files, between them and its rook or beyond. */
  ghost predicate RightSound(b: Board, rooks: map<Right, Square>, r: Right) {
    exists k: Square :: RightHome(b, rooks, r, k) && 1 <= File(k) <= 6
  }

  ghost predicate RightsSound(b: Board, rights: set<Right>, rooks: map<Right, Square>) {
    forall r :: r in rights ==> RightSound(b, rooks, r)
  }

  /** The right a rook on rsq is granted: by its side of the king. */
  ghost function Granted(b: Board, c: Color, rsq: Square): Right
    requires HasKing(b, c)
  {
    Right(c, if rsq < KingOf(b, c) then QueenSide else KingSide)
  }

  /** set_castling_right: a second rook for the same right takes the first one's place. */
  ghost function Grant(b: Board, rt: Rights, c: Color, rsq: Square): Rights
    requires HasKing(b, c)
  {
    var r := Granted(b, c, rsq);
    Rights(rt.held + {r}, rt.rooks[r := rsq])
  }

  /** A right whose king or rook is missing is dropped. */
  ghost function GrantToken(b: Board, rt: Rights, t: Token): Rights
    requires HasKing(b, White) && HasKing(b, Black)
  {
    var rook := TokenRook(b, t);
    if t.Unknown? || rook.None? then rt else Grant(b, rt, t.color, rook.value)
  }

  datatype RightsRead = Done(rights: Rights, rest: string) | Failed(error: FenError)

  function DropSpaces(s: string): (r: string)
    ensures |r| <= |s|
  {
    if s != "" && IsSpace(s[0]) then DropSpaces(s[1..]) else s
  }

  /** The field ends at a blank, or after a leading dash and the blanks behind it. */
  ghost function ReadRights(b: Board, rt: Rights, seen: nat, s: string): RightsRead
    requires HasKing(b, White) && HasKing(b, Black)
    decreases |s|
  {
    if s == "" then Done(rt, "")
    else if IsSpace(s[0]) then Done(rt, s[1..])
    else if seen == 0 && s[0] == '-' then Done(rt, DropSpaces(s[1..]))
    else if seen + 1 > 4 then Failed(TooManyRights)
    else if TokenOf(s[0]).Unknown? then Failed(BadRight(s[0]))
    else ReadRights(b, GrantToken(b, rt, TokenOf(s[0])), seen + 1, s[1..])
  }

  // ----- every right read is sound -----

  predicate RookSeen(b: Board, c: Color, wing: Wing, file: int, rook: Option<Square>) {
    rook.Some? ==>
      && b[rook.value] == Piece(c, Rook) && Rank(rook.value) == BackRank(c)
      && if wing == KingSide then File(rook.value) > file else File(rook.value) < file
  }

  /** x is a rook of c on the back rank whose king stands there too, on files b to g. */
  ghost predicate RookAndKing(b: Board, c: Color, x: Square) {
    && b[x] == Piece(c, Rook) && Rank(x) == BackRank(c)
    && exists k: Square :: b[k] == Piece(c, King) && Rank(k) == BackRank(c) && 1 <= File(k) <= 6
  }

  lemma {:induction false} CornerSound(b: Board, c: Color, wing: Wing, file: int, left: nat, rook: Option<Square>)
    requires 0 <= file < 8 && if wing == KingSide then left <= file else file + left <= 7
    requires RookSeen(b, c, wing, file, rook)
    ensures ScanCorner(b, c, wing, file, left, rook).Some? ==>
            RookAndKing(b, c, ScanCorner(b, c, wing, file, left, rook).value)
    decreases left
  {
    hide File, Rank, MakeSquare, RookAndKing, RookSeen;
    if left > 0 {
      var s := MakeSquare(file, BackRank(c));
      if b[s] == Piece(c, King) {
        KingMet(b, c, wing, file, left, rook, s);
      } else {
        var seen := if b[s] == Piece(c, Rook) && rook.None? then Some(s) else rook;
        RookMet(b, c, wing, file, rook, s);
        CornerSound(b, c, wing, if wing == KingSide then file - 1 else file + 1, left - 1, seen);
      }
    }
  }

  lemma KingMet(b: Board, c: Color, wing: Wing, file: int, left: nat, rook: Option<Square>, s: Square)
    requires left > 0 && 0 <= file < 8 && if wing == KingSide then left <= file else file + left <= 7
    requires RookSeen(b, c, wing, file, rook) && b[s] == Piece(c, King) && File(s) == file && Rank(s) == BackRank(c)
    ensures rook.Some? ==> RookAndKing(b, c, rook.value)
  {
    hide File, Rank, BackRank;
    assert rook.Some? ==> 1 <= File(s) <= 6;
  }

  lemma RookMet(b: Board, c: Color, wing: Wing, file: int, rook: Option<Square>, s: Square)
    requires 0 <= file < 8 && RookSeen(b, c, wing, file, rook) && File(s) == file && Rank(s) == BackRank(c)
    ensures RookSeen(b, c, wing, if wing == KingSide then file - 1 else file + 1,
                     if b[s] == Piece(c, Rook) && rook.None? then Some(s) else rook)
  {
    hide File, Rank, BackRank;
  }

  lemma TokenSound(b: Board, t: Token)
    requires !t.Unknown? && TokenRook(b, t).Some?
    ensures RookAndKing(b, t.color, TokenRook(b, t).value)
  {
    match t
    case Corner(c, KingSide) =>
      CornerSound(b, c, KingSide, 7, 7, None);
      hide RookAndKing, ScanCorner;
    case Corner(c, QueenSide) =>
      CornerSound(b, c, QueenSide, 0, 7, None);
      hide RookAndKing, ScanCorner;
    case OnFile(c, f) =>
      var g :| 1 <= g < 7 && b[MakeSquare(g, BackRank(c))] == Piece(c, King);
      assert File(MakeSquare(g, BackRank(c))) == g;
      hide File, Rank, MakeSquare;
  }

  lemma GrantSound(b: Board, rt: Rights, c: Color, x: Square)
    requires HasKing(b, c) && RookAndKing(b, c, x) && RightsSound(b, rt.held, rt.rooks)
    ensures RightsSound(b, Grant(b, rt, c, x).held, Grant(b, rt, c, x).rooks)
  {
    var g := Grant(b, rt, c, x);
    var r := Granted(b, c, x);
    var k := KingOf(b, c);
    var k': Square :| b[k'] == Piece(c, King) && Rank(k') == BackRank(c) && 1 <= File(k') <= 6;
    assert k' == k;
    assert RightHome(b, g.rooks, r, k) && 1 <= File(k) <= 6;
    forall q | q in g.held
      ensures RightSound(b, g.rooks, q)
    {
      if q != r {
        assert RightSound(b, rt.rooks, q);
        var h: Square :| RightHome(b, rt.rooks, q, h) && 1 <= File(h) <= 6;
        assert RightHome(b, g.rooks, q, h);
      }
    }
    hide RightSound;
  }

  lemma GrantTokenSound(b: Board, rt: Rights, t: Token)
    requires HasKing(b, White) && HasKing(b, Black) && RightsSound(b, rt.held, rt.rooks)
    ensures RightsSound(b, GrantToken(b, rt, t).held, GrantToken(b, rt, t).rooks)
  {
    hide RightsSound, TokenRook, Grant, RookAndKing, HasKing;
    if !t.Unknown? && TokenRook(b, t).Some? {
      assert t.color == White || t.color == Black;
      TokenSound(b, t);
      GrantSound(b, rt, t.color, TokenRook(b, t).value);
    }
  }

  lemma {:induction false} ReadRightsSound(b: Board, rt: Rights, seen: nat, s: string)
    requires HasKing(b, White) && HasKing(b, Black) && RightsSound(b, rt.held, rt.rooks)
    ensures var r := ReadRights(b, rt, seen, s); r.Done? ==> RightsSound(b, r.rights.held, r.rights.rooks)
    decreases |s|
  {
    hide RightsSound, GrantToken, TokenOf, HasKing;
    if s != "" && !IsSpace(s[0]) && !(seen == 0 && s[0] == '-') && seen + 1 <= 4 && !TokenOf(s[0]).Unknown? {
      GrantTokenSound(b, rt, TokenOf(s[0]));
      ReadRightsSound(b, GrantToken(b, rt, TokenOf(s[0])), seen + 1, s[1..]);
    }
  }

  // ----- writing, and reading back -----

  /** How pos_fen names a right: by wing, or under Chess960 by the file of its rook. */
  function RightChar(r: Right, rook: Square, chess960: bool): char {
    if chess960 then
      if r.color == White then ('A' as int + File(rook)) as char else ('a' as int + File(rook)) as char
    else
      match r
      case Right(White, KingSide) => 'K'
      case Right(White, QueenSide) => 'Q'
      case Right(Black, KingSide) => 'k'
      case Right(Black, QueenSide) => 'q'
  }

  const ORDER: seq<Right> :=
    [Right(White, KingSide), Right(White, QueenSide), Right(Black, KingSide), Right(Black, QueenSide)]

  /** The characters of the held rights from the i-th in order on. */
  function HeldText(rights: set<Right>, rooks: map<Right, Square>, chess960: bool, i: nat): string
    requires i <= 4 && forall r :: r in rights ==> r in rooks
    decreases 4 - i
  {
    if i == 4 then ""
    else (if ORDER[i] in rights then [RightChar(ORDER[i], rooks[ORDER[i]], chess960)] else "")
         + HeldText(rights, rooks, chess960, i + 1)
  }

  function RightsText(rights: set<Right>, rooks: map<Right, Square>, chess960: bool): string
    requires forall r :: r in rights ==> r in rooks
  {
    if rights == {} then "-" else HeldText(rights, rooks, chess960, 0)
  }

  /** The notation can name the rook: any rook under Chess960, else the outermost of its wing. */
  predicate Nameable(b: Board, r: Right, rook: Square, chess960: bool) {
    chess960 || forall x: Square :: b[x] == Piece(r.color, Rook) && Rank(x) == BackRank(r.color) ==>
      !FurtherOut(r.wing, File(x), File(rook))
  }

  /** File f is nearer to the wing's corner than g. */
  predicate FurtherOut(wing: Wing, f: int, g: int) {
    if wing == KingSide then f > g else f < g
  }

  /** The rook the printed name stands for. */
  function NamedRook(b: Board, r: Right, rook: Square, chess960: bool): Square {
    var found := TokenRook(b, Corner(r.color, r.wing));
    if !chess960 && found.Some? then found.value else rook
  }

  function NamedRooks(b: Board, rights: set<Right>, rooks: map<Right, Square>, chess960: bool): map<Right, Square>
    requires forall r :: r in rights ==> r in rooks
  {
    map r | r in rights :: NamedRook(b, r, rooks[r], chess960)
  }

  lemma {:induction false} CornerFinds(b: Board, c: Color, wing: Wing, file: int, left: nat, x: Square, k: Square)
    requires 0 <= file < 8 && if wing == KingSide then left <= file else file + left <= 7
    requires b[k] == Piece(c, King) && Rank(k) == BackRank(c)
    requires if wing == KingSide then file - left < File(k) <= file else file <= File(k) < file + left
    ensures ScanCorner(b, c, wing, file, left, Some(x)) == Some(x)
    decreases left
  {
    var s := MakeSquare(file, BackRank(c));
    Coords(k);
    Coords(s);
    hide File, Rank, MakeSquare, BackRank;
    if b[s] != Piece(c, King) {
      CornerFinds(b, c, wing, if wing == KingSide then file - 1 else file + 1, left - 1, x, k);
    }
  }

  /** y is the rook a scan from this file inwards meets first. */
  predicate FirstRook(b: Board, c: Color, wing: Wing, file: int, y: Square) {
    && b[y] == Piece(c, Rook) && Rank(y) == BackRank(c) && !FurtherOut(wing, File(y), file)
    && forall x: Square ::
         b[x] == Piece(c, Rook) && Rank(x) == BackRank(c) && FurtherOut(wing, File(x), File(y)) ==>
           FurtherOut(wing, File(x), file)
  }

  /** With a rook between this file and the king, the scan finds the first of them. */
  lemma {:induction false} CornerFirst(b: Board, c: Color, wing: Wing, file: int, left: nat, x: Square, k: Square)
    requires 0 <= file < 8 && if wing == KingSide then left <= file else file + left <= 7
    requires IsKing(b, c, k) && Rank(k) == BackRank(c) && b[x] == Piece(c, Rook) && Rank(x) == BackRank(c)
    requires if wing == KingSide then file - left < File(k) < File(x) <= file
      else file <= File(x) < File(k) < file + left
    ensures var y := ScanCorner(b, c, wing, file, left, None);
            y.Some? && FirstRook(b, c, wing, file, y.value) && FurtherOut(wing, File(y.value), File(k))
    decreases left
  {
    var s := MakeSquare(file, BackRank(c));
    var further := if wing == KingSide then file - 1 else file + 1;
    Coords(k);
    Coords(s);
    KingElsewhere(b, c, k, s);
    hide IsKing, FirstRook;
    if b[s] == Piece(c, Rook) {
      FirstHere(b, c, wing, file, s);
      hide File, Rank, MakeSquare, BackRank;
      CornerFinds(b, c, wing, further, left - 1, s, k);
    } else {
      SameFileSquare(c, file, x);
      hide File, Rank, MakeSquare, BackRank;
      CornerFirst(b, c, wing, further, left - 1, x, k);
      FirstFurther(b, c, wing, file, s, ScanCorner(b, c, wing, further, left - 1, None).value);
    }
  }

  lemma KingElsewhere(b: Board, c: Color, k: Square, s: Square)
    requires IsKing(b, c, k) && File(s) != File(k)
    ensures b[s] != Piece(c, King)
  {
  }

  lemma SameFileSquare(c: Color, file: int, x: Square)
    requires 0 <= file < 8 && Rank(x) == BackRank(c)
    ensures File(x) == file ==> x == MakeSquare(file, BackRank(c))
  {
    Coords(x);
    hide File, Rank;
  }

  lemma FirstHere(b: Board, c: Color, wing: Wing, file: int, s: Square)
    requires b[s] == Piece(c, Rook) && Rank(s) == BackRank(c) && File(s) == file
    ensures FirstRook(b, c, wing, file, s)
  {
  }

  lemma FirstFurther(b: Board, c: Color, wing: Wing, file: int, s: Square, y: Square)
    requires 0 <= file < 8 && s == MakeSquare(file, BackRank(c)) && b[s] != Piece(c, Rook)
    requires FirstRook(b, c, wing, if wing == KingSide then file - 1 else file + 1, y)
    ensures FirstRook(b, c, wing, file, y)
  {
    forall x: Square | b[x] == Piece(c, Rook) && Rank(x) == BackRank(c) && FurtherOut(wing, File(x), File(y))
      ensures FurtherOut(wing, File(x), file)
    {
      SameFileSquare(c, file, x);
    }
    hide File, Rank, MakeSquare, BackRank;
  }

  /** The rook read is a rook of the right's wing, and the right's own exactly when it is nameable. */
  lemma NamedRookMeans(b: Board, rooks: map<Right, Square>, r: Right, chess960: bool)
    requires RightSound(b, rooks, r) && r in rooks
    ensures NamedRook(b, r, rooks[r], chess960) == rooks[r] <==> Nameable(b, r, rooks[r], chess960)
    ensures !chess960 ==> TokenRook(b, Corner(r.color, r.wing)) == Some(NamedRook(b, r, rooks[r], chess960))
  {
    if !chess960 {
      var x := rooks[r];
      var k := SoundKing(b, rooks, r);
      hide RightSound;
      CornerReads(b, r, x, k);
      var y := TokenRook(b, Corner(r.color, r.wing)).value;
      hide TokenRook;
      OutermostIs(b, r, x, y);
    }
  }

  lemma OutermostIs(b: Board, r: Right, x: Square, y: Square)
    requires FirstRook(b, r.color, r.wing, if r.wing == KingSide then 7 else 0, y)
    requires b[x] == Piece(r.color, Rook) && Rank(x) == BackRank(r.color)
    ensures y == x <==> Nameable(b, r, x, false)
  {
    Coords(x); Coords(y);
    forall u: Square
      ensures !FurtherOut(r.wing, File(u), if r.wing == KingSide then 7 else 0)
    {
      Coords(u);
      hide File, Rank;
    }
    hide File, Rank;
  }

  lemma CharTokens(r: Right, rook: Square, chess960: bool)
    ensures var c := RightChar(r, rook, chess960);
            && TokenOf(c) == (if chess960 then OnFile(r.color, File(rook)) else Corner(r.color, r.wing))
            && !IsSpace(c) && c != '-'
  {
  }

  /** The character of a held right reads back as that right with the rook it names. */
  lemma RightReads(b: Board, rooks: map<Right, Square>, r: Right, chess960: bool, rt: Rights)
    requires HasKing(b, White) && HasKing(b, Black) && RightSound(b, rooks, r) && r in rooks
    ensures var t := TokenOf(RightChar(r, rooks[r], chess960));
            !t.Unknown? &&
              GrantToken(b, rt, t) == Rights(rt.held + {r}, rt.rooks[r := NamedRook(b, r, rooks[r], chess960)])
  {
    hide *;
    var x := rooks[r];
    var k := SoundKing(b, rooks, r);
    CharTokens(r, x, chess960);
    NamedRookMeans(b, rooks, r, chess960);
    if chess960 {
      FileReads(b, r, x, k);
      NamedAsIs(b, r, x);
      GrantedBack(b, rt, r, x, k, TokenOf(RightChar(r, x, chess960)));
    } else {
      CornerReads(b, r, x, k);
      GrantedBack(b, rt, r, NamedRook(b, r, x, chess960), k, TokenOf(RightChar(r, x, chess960)));
    }
  }

  lemma NamedAsIs(b: Board, r: Right, x: Square)
    ensures NamedRook(b, r, x, true) == x
  {
    hide TokenRook;
  }

  lemma SoundKing(b: Board, rooks: map<Right, Square>, r: Right) returns (k: Square)
    requires RightSound(b, rooks, r)
    ensures r in rooks && IsKing(b, r.color, k) && b[k] == Piece(r.color, King) && Rank(k) == BackRank(r.color) &&
            1 <= File(k) <= 6
    ensures b[rooks[r]] == Piece(r.color, Rook) && Rank(rooks[r]) == BackRank(r.color) &&
            (r.wing == KingSide <==> rooks[r] > k)
    ensures rooks[r] != k
  {
    k :| RightHome(b, rooks, r, k) && 1 <= File(k) <= 6;
  }

  lemma GrantedBack(b: Board, rt: Rights, r: Right, x: Square, k: Square, t: Token)
    requires HasKing(b, White) && HasKing(b, Black) && IsKing(b, r.color, k) && (r.wing == KingSide <==> x > k) &&
             x != k
    requires !t.Unknown? && t.color == r.color && TokenRook(b, t) == Some(x)
    ensures GrantToken(b, rt, t) == Rights(rt.held + {r}, rt.rooks[r := x])
  {
    KingOfIs(b, r.color, k);
    hide HasKing, IsKing, TokenRook;
  }

  lemma FileReads(b: Board, r: Right, x: Square, k: Square)
    requires b[k] == Piece(r.color, King) && Rank(k) == BackRank(r.color) && 1 <= File(k) <= 6
    requires b[x] == Piece(r.color, Rook) && Rank(x) == BackRank(r.color)
    ensures TokenRook(b, OnFile(r.color, File(x))) == Some(x)
  {
    Coords(x); Coords(k);
    assert MakeSquare(File(x), BackRank(r.color)) == x;
    assert MakeSquare(File(k), BackRank(r.color)) == k;
    hide File, Rank, MakeSquare;
  }

  lemma CornerReads(b: Board, r: Right, x: Square, k: Square)
    requires IsKing(b, r.color, k) && Rank(k) == BackRank(r.color) && 1 <= File(k) <= 6
    requires b[x] == Piece(r.color, Rook) && Rank(x) == BackRank(r.color) && x != k && (r.wing == KingSide <==> x > k)
    ensures var y := TokenRook(b, Corner(r.color, r.wing));
            && y.Some? && FirstRook(b, r.color, r.wing, if r.wing == KingSide then 7 else 0, y.value)
            && y.value != k && (r.wing == KingSide <==> y.value > k)
  {
    Coords(x); Coords(k);
    hide IsKing, FirstRook, ScanCorner, BackRank;
    if r.wing == KingSide {
      CornerFirst(b, r.color, KingSide, 7, 7, x, k);
    } else {
      CornerFirst(b, r.color, QueenSide, 0, 7, x, k);
    }
    FirstSide(b, r, TokenRook(b, Corner(r.color, r.wing)).value, k);
    hide *;
  }

  lemma FirstSide(b: Board, r: Right, y: Square, k: Square)
    requires FirstRook(b, r.color, r.wing, if r.wing == KingSide then 7 else 0, y) &&
             FurtherOut(r.wing, File(y), File(k))
    requires Rank(k) == BackRank(r.color)
    ensures y != k && (r.wing == KingSide <==> y > k)
  {
    Coords(y); Coords(k);
    assert Rank(y) == Rank(k);
    hide File, Rank;
  }

  /** The rights from the i-th in order on, granted one after the other. */
  function Restored(rt: Rights, rights: set<Right>, rooks: map<Right, Square>, i: nat): Rights
    requires i <= 4 && forall r :: r in rights ==> r in rooks
    decreases 4 - i
  {
    if i == 4 then rt
    else
      Restored(if ORDER[i] in rights then Rights(rt.held + {ORDER[i]}, rt.rooks[ORDER[i] := rooks[ORDER[i]]]) else rt,
               rights, rooks, i + 1)
  }

  /** rt holds exactly the rights before the i-th, with their rooks. */
  predicate RestoredTo(rt: Rights, rights: set<Right>, rooks: map<Right, Square>, i: nat)
    requires i <= 4
  {
    && (forall j :: 0 <= j < 4 ==> (ORDER[j] in rt.held <==> j < i && ORDER[j] in rights))
    && (forall j :: 0 <= j < 4 ==> (ORDER[j] in rt.rooks <==> j < i && ORDER[j] in rights))
    && (forall j :: 0 <= j < i && ORDER[j] in rights ==> ORDER[j] in rooks && rt.rooks[ORDER[j]] == rooks[ORDER[j]])
  }

  lemma {:induction false} RestoredMeans(rt: Rights, rights: set<Right>, rooks: map<Right, Square>, i: nat)
    requires i <= 4 && (forall r :: r in rights ==> r in rooks) && RestoredTo(rt, rights, rooks, i)
    ensures RestoredTo(Restored(rt, rights, rooks, i), rights, rooks, 4)
    decreases 4 - i
  {
    if i < 4 {
      var r := ORDER[i];
      var next := if r in rights then Rights(rt.held + {r}, rt.rooks[r := rooks[r]]) else rt;
      OrderDistinct();
      assert RestoredTo(next, rights, rooks, i + 1);
      RestoredMeans(next, rights, rooks, i + 1);
    }
  }

  lemma OrderDistinct()
    ensures forall i, j :: 0 <= i < j < 4 ==> ORDER[i] != ORDER[j]
  {
  }

  lemma OrderSize()
    ensures |ORDER| == 4
  {
  }

  lemma OrderHas(r: Right)
    ensures exists j :: 0 <= j < 4 && ORDER[j] == r
  {
    var j := (if r.color == White then 0 else 2) + if r.wing == KingSide then 0 else 1;
    assert ORDER[j] == r;
  }

  /** Granting every held right to nobody gives back the rights and their rooks. */
  lemma RestoredAll(rights: set<Right>, rooks: map<Right, Square>)
    requires forall r :: r in rights ==> r in rooks
    ensures var rt := Restored(NO_RIGHTS, rights, rooks, 0);
            && rt.held == rights && rt.rooks.Keys == rights
            && forall r :: r in rights ==> rt.rooks[r] == rooks[r]
  {
    assert RestoredTo(NO_RIGHTS, rights, rooks, 0);
    RestoredMeans(NO_RIGHTS, rights, rooks, 0);
    OrderDistinct();
    var rt := Restored(NO_RIGHTS, rights, rooks, 0);
    hide Restored;
    forall r: Right
      ensures (r in rt.held <==> r in rights) && (r in rt.rooks <==> r in rights)
      ensures r in rights ==> rt.rooks[r] == rooks[r]
    {
      OrderHas(r);
      var j :| 0 <= j < 4 && ORDER[j] == r;
    }
  }

  predicate AllNameable(b: Board, rights: set<Right>, rooks: map<Right, Square>, chess960: bool) {
    forall r :: r in rights ==> r in rooks && Nameable(b, r, rooks[r], chess960)
  }

  /** The rooks read back are the rights' own exactly when all are nameable. */
  lemma NamedRooksMean(b: Board, rights: set<Right>, rooks: map<Right, Square>, chess960: bool)
    requires (forall r :: r in rights ==> r in rooks) && RightsSound(b, rights, rooks)
    ensures (forall r :: r in rights ==> NamedRooks(b, rights, rooks, chess960)[r] == rooks[r]) <==>
            AllNameable(b, rights, rooks, chess960)
  {
    forall r | r in rights
      ensures NamedRooks(b, rights, rooks, chess960)[r] == rooks[r] <==> Nameable(b, r, rooks[r], chess960)
    {
      NamedRookMeans(b, rooks, r, chess960);
    }
    hide NamedRook, Nameable, RightSound;
  }

  lemma {:induction false} HeldReads(b: Board, rt: Rights, rights: set<Right>, rooks: map<Right, Square>,
                                     chess960: bool, i: nat, seen: nat,
                                     rest: string)
    requires i <= 4 && seen <= i && HasKing(b, White) && HasKing(b, Black)
    requires RightsSound(b, rights, rooks) && forall r :: r in rights ==> r in rooks
    requires seen == 0 ==> exists j :: i <= j < 4 && ORDER[j] in rights
    ensures ReadRights(b, rt, seen, HeldText(rights, rooks, chess960, i) + (" " + rest)) ==
            Done(Restored(rt, rights, NamedRooks(b, rights, rooks, chess960), i), rest)
    decreases 4 - i
  {
    hide *;
    OrderSize();
    var named := NamedRooks(b, rights, rooks, chess960);
    NamedRooksAre(b, rights, rooks, chess960);
    HeldTextIs(rights, rooks, chess960, i);
    RestoredIs(rt, rights, named, i);
    if i == 4 {
      FieldEnds(b, rt, seen, rest);
    } else {
      var r := ORDER[i];
      var more := HeldText(rights, rooks, chess960, i + 1) + (" " + rest);
      if r in rights {
        SoundOf(b, rights, rooks, r);
        RightReads(b, rooks, r, chess960, rt);
        CharTokens(r, rooks[r], chess960);
        assert HeldText(rights, rooks, chess960, i) + (" " + rest) == [RightChar(r, rooks[r], chess960)] + more;
        OneToken(b, rt, seen, RightChar(r, rooks[r], chess960), more);
        HeldReads(b, Rights(rt.held + {r}, rt.rooks[r := named[r]]), rights, rooks, chess960, i + 1, seen + 1, rest);
      } else {
        assert HeldText(rights, rooks, chess960, i) + (" " + rest) == more;
        HeldReads(b, rt, rights, rooks, chess960, i + 1, seen, rest);
      }
    }
  }

  lemma NamedRooksAre(b: Board, rights: set<Right>, rooks: map<Right, Square>, chess960: bool)
    requires forall r :: r in rights ==> r in rooks
    ensures var named := NamedRooks(b, rights, rooks, chess960);
            forall r :: r in rights ==> r in named && named[r] == NamedRook(b, r, rooks[r], chess960)
  {
    hide NamedRook;
  }

  lemma HeldTextIs(rights: set<Right>, rooks: map<Right, Square>, chess960: bool, i: nat)
    requires i <= 4 && forall r :: r in rights ==> r in rooks
    ensures HeldText(rights, rooks, chess960, i) ==
            if i == 4 then ""
            else if ORDER[i] in rights
              then [RightChar(ORDER[i], rooks[ORDER[i]], chess960)] + HeldText(rights, rooks, chess960, i + 1)
            else HeldText(rights, rooks, chess960, i + 1)
  {
    hide RightChar;
  }

  lemma RestoredIs(rt: Rights, rights: set<Right>, rooks: map<Right, Square>, i: nat)
    requires i <= 4 && forall r :: r in rights ==> r in rooks
    ensures Restored(rt, rights, rooks, i) ==
            if i == 4 then rt
            else if ORDER[i] in rights
            then Restored(Rights(rt.held + {ORDER[i]}, rt.rooks[ORDER[i] := rooks[ORDER[i]]]), rights, rooks, i + 1)
            else Restored(rt, rights, rooks, i + 1)
  {
  }

  lemma FieldEnds(b: Board, rt: Rights, seen: nat, rest: string)
    requires HasKing(b, White) && HasKing(b, Black)
    ensures ReadRights(b, rt, seen, "" + (" " + rest)) == Done(rt, rest)
  {
    assert "" + (" " + rest) == " " + rest && (" " + rest)[1..] == rest;
    hide HasKing;
  }

  lemma OneToken(b: Board, rt: Rights, seen: nat, c: char, more: string)
    requires HasKing(b, White) && HasKing(b, Black)
    requires seen < 4 && !IsSpace(c) && c != '-' && !TokenOf(c).Unknown?
    ensures ReadRights(b, rt, seen, [c] + more) == ReadRights(b, GrantToken(b, rt, TokenOf(c)), seen + 1, more)
  {
    assert ([c] + more)[1..] == more;
    hide HasKing, GrantToken, TokenOf;
  }

  lemma SoundOf(b: Board, rights: set<Right>, rooks: map<Right, Square>, r: Right)
    requires RightsSound(b, rights, rooks) && r in rights
    ensures RightSound(b, rooks, r)
  {
  }

  /** The castling field reads back as the rights with the rooks it names. The field behind it must not
      begin with a blank, or a lone dash would swallow it. */
  lemma RightsFieldReads(b: Board, rights: set<Right>, rooks: map<Right, Square>, chess960: bool, rest: string)
    requires HasKing(b, White) && HasKing(b, Black) && RightsSound(b, rights, rooks)
    requires forall r :: r in rights ==> r in rooks
    requires rest != "" && !IsSpace(rest[0])
    ensures ReadRights(b, NO_RIGHTS, 0, RightsText(rights, rooks, chess960) + (" " + rest))
            == Done(Restored(NO_RIGHTS, rights, NamedRooks(b, rights, rooks, chess960), 0), rest)
  {
    var text := RightsText(rights, rooks, chess960) + (" " + rest);
    if rights == {} {
      assert text[0] == '-' && text[1..] == " " + rest;
      DropOne(rest);
      NoneRestored(NamedRooks(b, rights, rooks, chess960));
    } else {
      var r: Right :| r in rights;
      OrderHas(r);
      hide *;
      HeldReads(b, NO_RIGHTS, rights, rooks, chess960, 0, 0, rest);
    }
  }

  lemma NoneRestored(rooks: map<Right, Square>)
    ensures Restored(NO_RIGHTS, {}, rooks, 0) == NO_RIGHTS
  {
    assert Restored(NO_RIGHTS, {}, rooks, 2) == NO_RIGHTS;
  }

  lemma DropOne(rest: string)
    requires rest != "" && !IsSpace(rest[0])
    ensures DropSpaces(" " + rest) == rest
  {
    assert (" " + rest)[1..] == rest;
  }
}
