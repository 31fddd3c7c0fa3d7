# A verified model of the engine's board, picker, worker and topology code

This project models four parts of a chess engine written in C and proves, with Dafny, what each
of them is for.

**The board.** The simple object is a map from square to piece with the side to move, the castling
rights, the en-passant square and the clocks (`rules.dfy`). The engine keeps many faster views of
it: bitboards, piece counts, five hash keys, material, pins, check squares, threat sets, checkers,
a threat-delta list and repetition distances. Each view has a plain definition (`derived.dfy`,
`pins.dfy`, `state.dfy`), and the theorems say that the fast form equals it; `keysense.dfy` says
what the position key is a key of.

- *Legality.* `exactness.dfy` puts the pin masks, the threat set seen through the king, the
  block-or-capture mask, the en-passant filter, the castling tests and the stage split together:
  the generated list is each legal move once, in the one order `emission.dfy` fixes (root moves
  are searched in it, and the picker's sort keeps it between equal scores). `legality.dfy` does
  the same for the test of one move, `givescheck.dfy` and `castlecheck.dfy` for the check test,
  `enpassant.dfy` for the square a double push leaves, `epfield.dfy` for the parser's version of
  that test.
- *Make and unmake.* `position.dfy` is the mutable position. `Valid()` says that every table
  agrees with the board, that every record of the history is fresh for its own position, and that
  each position follows from the one before it by a legal move or a null move. Make, unmake and
  the null moves keep it, and each undo restores exactly what was there. `threats.dfy` and
  `threatdelta.dfy` prove the threat-delta list equal, as a signed multiset, to the change of the
  filtered attacker-target relation, in at most 80 entries, and `piecedelta.dfy` that the piece
  delta balances. `perft.dfy` walks the tree through
  make and unmake and counts exactly the games the rules allow.
- *Setting up and writing out.* `setup.dfy` builds a position from FEN text field by field and
  proves the result valid; `fen.dfy`, `fenboard.dfy` and `fenrights.dfy` hold the grammar (PGN
  Standard, section 16.1, with Shredder rook files) and the exact condition of the round trip,
  `fenplay.dfy` carries it to every position of every game; `material.dfy` says what material is
  accepted, `opening.dfy` and `firstmoves.dfy` what the opening text and its moves are.
- *Repetition and draws.* `state.dfy` gives the meaning of the repetition field and `draws.dfy`
  says it in the rules' terms: which positions have returned, and when that or the clock draws.
  `homes.dfy`, `displacement.dfy` and `cuckoo.dfy` build the table of reversible moves and say
  exactly when building it ends; `upcoming.dfy` proves that the probe of that table misses no
  one-move return to an earlier position, and `cycles.dfy` that it answers for nothing else.
- *Attacks and exchange.* `rays.dfy`, `hyperbola.dfy`, `magics.dfy` and `magicsizes.dfy` prove
  the table builders and lookups equal to ray casting on every occupancy; `see.dfy` proves the
  exchange loop equal to the recursive exchange value, `exchanges.dfy` what single exchanges come
  to.

**The move picker.** `picker.dfy` is the staged picker over its one buffer. The specification is
an agenda, the list of moves still to come: each call pops its head, a skip filters it
(`sorting.dfy` and `picklegal.dfy` say what the agenda is). `pickorder.dfy` says the same without
the agenda: which moves come, in which order, by their scores and what see_ge answers.

**The worker thread.** `thread.dfy` is the owner-worker handshake as interleaved steps with a
mutex, a wait set and spurious wakeups, as POSIX.1-2008 allows for `pthread_cond_wait`;
`calls.dfy` says what each call does from its entry to its return, and what becomes of each job.

**The NUMA topology.** `numa.dfy` is the two-way index, `numatext.dfy` and `numapolicy.dfy` the
policy text in both directions.

A lemma named after a definition, `WindowIs` or `ReadableIs`, reads that definition back, so that
longer proofs can keep every body hidden and name what they use.

Bitboards and 64-bit keys are finite sets of bit numbers, so set operations are the bitwise ones;
subtraction is defined by its borrow chain. Zobrist tables are arbitrary functions: no theorem
depends on their values except where a hypothesis says so. A class is used where the source
updates an object in place, a method with a loop where the source loops; each such method is proved
against a function or a relation, and the theorems are about those.

Where a comment and the code disagree, the model follows the code: the ray-pass table includes the
squares between (`src/engine/board/threats.h:38` says only those at or beyond the second square,
`src/engine/board/threats.c:28` adds them), a repeated add of a CPU is refused
(`src/platform/numa.h:72` says it succeeds, `src/platform/numa.c:131` refuses it), and a reversed
index range is refused only up to a difference of 2^64 - 2^20 (the comment at
`src/platform/numa.c:239-241` says always; `NumaText.ReversedRange` gives the exact condition and `NumaPolicy.ReversedNamesNothing` an input).

## Model

| member | source | states |
|---|---|---|
| Play.NextWellFormed | src/engine/board/position.c:768-1014 | Every legal move leads from a well-formed position to a well-formed one: one king a side, pawns off the edge ranks, the side not to move not in check, each held right with king and rook at home, an en-passant square only where some capture on it is legal. |
| Play.NextNullWellFormed | src/engine/board/position.c:1072-1143 | So does a null move made out of check. |
| Play.KingNotTaken | src/engine/board/movegen.c:24-278 | No ordinary move (push, capture or piece move) of a well-formed position takes a king. |
| Play.KingsAfter | src/engine/board/position.c:768-1014 | After any pseudo-legal move, castling and en passant included, each side's one king stands where the rules put it. |
| Play.CastlingSquares | src/engine/board/position.c:729-765 | A castling word's king and rook stand at home on the back rank, and their target squares hold no third piece, whatever squares they share. |
| Play.MovePathClear | src/engine/board/position.c:98-118 | Every piece move crosses empty squares only: what the masked scans of move_piece rely on. |
| Exactness.GenerateLegal | src/engine/board/movegen.c:270-278 | The generated list holds every legal move exactly once and nothing else, legal meaning that the piece rules hold and the mover's own king is not attacked on the board afterwards, and holds them in the observable order: captures before quiets, then group by group, then square by square. |
| Exactness.OrderDetermines | src/engine/board/movegen.c:270-278 | That order and those contents fit one list only, so the emitted sequence is determined, not just its members. |
| Exactness.EntryStage | src/engine/board/movegen.c:13-39 | An entry of the capture stage is a capture or a promotion to a queen, an entry of the quiet stage neither. |
| Emission.StageInOrder | src/engine/board/movegen.c:210-253 | Each stage comes out pawns first (pushes, double pushes, promotions by capture and push, captures, en passant), then knights, bishops, rooks and queens with the free pieces of a kind before its pinned ones, then the king, then castling; within a group by ascending squares, promotions from queen to knight. |
| Emission.RightFirst | src/engine/board/movegen.c:43-44 | The first of the two pawn captures is the one along the a1-h8 diagonal, for both colours. |
| Exactness.StagesExact | src/engine/board/movegen.c:210-253 | The same per stage: in check the evasions list each legal move once; out of check captures and quiets share the legal moves out, each in exactly one stage. |
| Exactness.StagesShare | src/engine/board/movegen.c:210-253 | So each stage lists exactly its own legal moves, once: captures the capturing moves and queen promotions, quiets the others, evasions all. |
| Exactness.AllEntriesExact | src/engine/board/movegen.c:210-243 | For every move word, the pawn, piece, king and castling entries of the stages add up to 1 if the word is legal and to 0 otherwise. |
| Exactness.PromotionStages | src/engine/board/movegen.c:24-39 | A promotion belongs to exactly one of the capture and quiet stages, and to the evasions. |
| MoveGen.MakePromotions | src/engine/board/movegen.c:24-39 | Appends exactly the promotions of the asked stage on this from- and to-square. |
| MoveGen.GeneratePawnMoves | src/engine/board/movegen.c:42-142 | Appends each pawn push, double push, capture, promotion and en-passant word of the stage's pin and target masks once, other words not at all. |
| MoveGen.GeneratePieceMoves | src/engine/board/movegen.c:144-171 | Appends each move of the piece type onto the target once, pinned pieces confined to their line, as the list of the free pieces' moves followed by that of the pinned ones. |
| MoveGen.GenerateCastling | src/engine/board/movegen.c:183-208 | Appends, for each wing, the castling word once if the right is held and passes the path, threat and blocker tests, and nothing else. |
| MoveGen.ComputeThreats | src/engine/board/position.c:182-209 | The threat sets are the attack sets of each enemy piece kind, seen through the mover's own king. |
| Pins.SafeStepNeeds | src/engine/board/position.c:153-209 | A move that leaves the king unattacked blocks or takes every checker, and a blocker stays on its line. |
| Pins.SafeStepSuffices | src/engine/board/position.c:153-209 | And that is enough: blockers and the answer mask together decide safety, without looking at the board afterwards. |
| LegalMoves.KingSafe | src/engine/board/movegen.c:228-240 | A king step is safe exactly when its square is outside the threat set computed with the king lifted. |
| EpLegal.EpMoveLegal | src/engine/board/movegen.c:128-138 | An en-passant word is legal exactly when a pawn steps onto the recorded square and the diagonal pin test lets it, although two pawns leave one rank. |
| EpLegal.EpInCheck | src/engine/board/movegen.c:128-138 | With an en-passant square recorded there is at most one checker, and blocking on the pushed pawn's origin never answers it. |
| CastleLegal.CastlingSafe | src/engine/board/movegen.c:183-208 | After castling the king is attacked exactly when the castling rook was screening it, for every Chess960 geometry. |
| Exactness.RightBoard | src/engine/board/movegen.c:183-208 | Legal castling spelled out: path empty, crossed squares unattacked, rook no blocker. |
| Legality.PosLegal | src/engine/board/legality.c:12-75 | The direct test of one move word agrees with legality, and so with membership in the generated list, for every word (promotion bits of a normal word ignored). |
| CastleCheck.GivesCheckExact | src/engine/board/legality.c:77-121 | On a legal move pos_gives_check answers exactly whether the enemy king is attacked on the resulting board: direct, discovered, promotion, en-passant and castling checks. |
| CheckRule.StepCheck | src/engine/board/legality.c:77-121 | After an ordinary step, check means the arrived piece attacks the king or the mover was screening and left the line. |
| CastleCheck.CastlingRule | src/engine/board/legality.c:77-121 | After castling, check means that the rook attacks from its new square under the old occupancy or that the king was screening the enemy king: nothing else sees it through the vacated squares. |
| EnPassantRule.EpSquareFromPins | src/engine/board/position.c:890-911 | The square pos_do_move sets from pins alone is set exactly when some en-passant capture on it leaves the capturer's king unattacked. |
| EpField.KeptOnParse | src/engine/board/position.c:544-578 | The parser's occupancy test keeps a named square exactly when the pushed pawn stands before it, both squares around are empty, and some capture is legal. |
| EpField.PlayedAsParsed | src/engine/board/position.c:890-911 | After a double push, the move records the square exactly when the parser would keep it. |
| EpField.EscapesExact | src/engine/board/position.c:544-578 | The occupancy with the victim gone, the capturer lifted and the square filled attacks the king exactly when the board after the capture does. |
| Position.Position.PutPiece | src/engine/board/position.c:74-83 | Board, bitboards and counts stay in step, and the threat list gains exactly the change of the threat relation. |
| Position.Position.RemovePiece | src/engine/board/position.c:85-96 | The same for a removal, scanned before the boards change. |
| Position.Position.MovePiece | src/engine/board/position.c:98-118 | The same for a move whose own squares are masked out of both scans: the masked discoveries cancel. |
| Position.Position.SwapPiece | src/engine/board/position.c:120-137 | The same for a replacement in place, which opens and closes no ray. |
| Position.Position.DoCastling | src/engine/board/position.c:729-765 | King and rook change places, forwards or backwards, even when their squares overlap; the threat list grows by the change of the relation. |
| Position.Position.DoMove | src/engine/board/position.c:768-1014 | From a valid position and a legal move: the tables, the keys, the material, the caches, the checkers and the repetition field are those of the position the rules lead to; the history is kept; the threat list nets to the change of the threat relation in at most 80 entries; the piece delta names the mover and its square and balances: what it removes with the pieces of the new board is, square by square, what it adds with the pieces of the old. |
| Position.Position.UndoMove | src/engine/board/position.c:1041-1070 | Takes back the last move exactly: position, records and history are those before it. |
| Position.Position.DoNullMove | src/engine/board/position.c:1072-1128 | A null move out of check flips the side, drops the en-passant square, restarts plies_from_null and leaves clock and ply; everything cached stays exact. |
| Position.Position.UndoNullMove | src/engine/board/position.c:1130-1136 | Takes a null move back exactly. |
| Position.Position.ThreatsBy | src/engine/board/position.h:245-249 | Whichever set is read first, it is the from-scratch set, and filling the cache changes nothing else. |
| Position.Position.Seen | src/engine/board/position.h:87-117 | The fields of a valid object hold one position: board, bitboards, counts, castling data and the top state record all agree with it, and it is well-formed. Every query may assume that. |
| Position.FinishRecord | src/engine/board/position.c:866-938 | The keys, rights, clock and en-passant square of the child, and the piece delta of the move, which `PieceDelta.DirtyBalances` weighs. |
| PieceDelta.DirtyBalances | src/engine/board/position.c:797-845 | The delta of every move removes each piece the move takes off its square and adds each it puts on one, captures, promotions, en passant and castling on shared squares included, as multisets of (square, piece) pairs. |
| Position.CloseRecord | src/engine/board/position.c:961-1004 | The checkers, caches and repetition distance of the child. |
| Caches.ThreatsNeverEmpty | src/engine/board/position.h:245-249 | A real total threat set is never empty, so the empty marker is unambiguous. |
| Caches.SliderBlockers | src/engine/board/position.c:153-180 | Blockers are the lone pieces between king and sniper, pinners the snipers holding a piece of the king's side. |
| Caches.SetExtraBitboards | src/engine/board/position.c:211-237 | Blockers, pinners and check squares are the from-scratch sets; the threat cache is marked unfilled. |
| Caches.AttackersToMember | src/engine/board/position.c:139-149 | A square is in the attackers set exactly when its piece attacks the target under the given occupancy. |
| Caches.CheckersScan | src/engine/board/position.c:978-984 | The attackers scan masked by colour is the from-scratch checkers set. |
| Keys.BoardKeysAfter | src/engine/board/position.c:241-282 | All five keys change by the terms of the victim, the mover and the arriving piece. |
| Keys.BoardKeysCastled | src/engine/board/position.c:241-282 | And under castling by four terms, whatever squares are shared. |
| KeySense.KeySeesAll | src/engine/board/position.c:241-282 | The position key leaves nothing out and adds nothing: two positions have the same key under all tables exactly when they have the same board, side to move, castling rights and en-passant file. |
| KeySense.SameSquare | src/engine/board/position.c:241-282 | Between well-formed positions that is the same en-passant square, so the same position for repetition. |
| KeySense.KeysJoin | src/engine/board/position.c:33-43 | The pawn key and the two non-pawn keys share the board's part of the position key out among them. |
| Records.KeysArrive | src/engine/board/position.c:33-43 | The incrementally toggled keys are the from-scratch keys of the position after the move. |
| Records.RightsStripped | src/engine/board/position.c:871-877 | Masking by the squares left and landed on removes exactly the rights whose king or rook the move touches. |
| Records.HomesKept | src/engine/board/position.c:286-316 | The masks stay exact for every right still held. |
| Chains.ChildFresh | src/engine/board/position.c:768-943 | Position key, auxiliary keys, material key, non-pawn material and counters of the child equal their from-scratch values. |
| Chains.UndoScene | src/engine/board/position.c:1041-1070 | The squares a move touched can be emptied and filled again in reverse order. |
| Chains.NullCheckers | src/engine/board/position.c:1072-1128 | Out of check the carried checkers set is the new mover's too. |
| Threats.UpdatePiece | src/engine/board/threats.c:107-250 | One scan appends exactly the filtered pairs the piece makes or unmakes, with the discoveries behind it, each once, and no more entries in all than its kind allows: 8 for a king, 26 for a pawn, 32 for another piece, the discoveries included. |
| Threats.ScanSizes | src/engine/board/types.h:321-324 | The split behind that total: at most eight targets (two for a pawn), eight sliders in view, sixteen attackers in all. |
| Threats.ProcessSliders | src/engine/board/threats.c:107-136 | Each slider that sees the square contributes its first piece behind it, unless masked or filtered, and its direct pair on request. |
| ThreatDelta.NetRemove | src/engine/board/threats.c:161-250 | A scan before a removal nets to the change of the threat relation. |
| ThreatDelta.NetPut | src/engine/board/threats.c:161-250 | A scan after a placement nets to the change of the relation. |
| ThreatDelta.NetSwap | src/engine/board/threats.c:161-250 | Two direct scans after a swap net to the change of the relation. |
| ThreatDelta.MaskedAlike | src/engine/board/threats.c:124-131 | The discoveries the from-to mask suppresses in the two scans of a move are the same ones, so leaving both out cancels. |
| ThreatDelta.NetSigns | src/engine/board/threats.c:93-97 | In numbers: a pair that has become a threat is added once more often than removed, one that has ceased to be one removed once more often than added, any other as often. |
| Threats.FeatureMapped | src/engine/eval/nnue/nnue_feature.c:73-78 | The filtered relation is the network's own: a pair of kinds is recorded exactly when the feature table has a slot for it. |
| RayPass.ThreatsInit | src/engine/board/threats.c:17-33 | The ray-pass table holds, for each pair, the squares of the ray at, beyond and between: transposed by the square passed first. |
| State.RepetitionMeans | src/engine/board/position.c:989-1004 | The field is 0 when the key does not recur in the window, else the distance to the nearest earlier occurrence, and negative exactly when there is a second one. |
| State.RepetitionWalk | src/engine/board/position.c:989-1004 | The walk two plies at a time computes such a field and stays inside the live chain. |
| State.HasRepeated | src/engine/board/repetition.c:120-133 | True exactly when two states of the window share a key at an even distance of at least four. |
| State.IsRepetitionMeans | src/engine/board/repetition.c:115-118 | pos_is_repetition is true exactly when the key recurs nearer than the root, or when its nearest recurrence has another one behind it. |
| Draws.TotalFalls | src/engine/board/position.c:840-880 | Why the clock may bound the walk: no move adds weight to the board and every capture or pawn move takes some away, so no position returns across one. |
| Draws.QuietReturn | src/engine/board/position.c:989-1004 | And why the walk may start at four and step by two: along reversible moves a position takes an even number of plies, at least four, to return. |
| Draws.RepetitionRule | src/engine/board/repetition.c:115-118 | In the rules' own terms: the test never misses a position (board, side, rights, en-passant square) that has returned since the last null move, nearer than the root or for the second time; and when the keys of the window tell the last position from the others it answers for nothing else. |
| Draws.RecurredMeans | src/engine/board/position.c:989-1004 | The recorded repetition value is nonzero exactly when the position itself has occurred before since the last null move, as long as the keys of its window tell it from the others. |
| Draws.IsDraw | src/engine/board/repetition.c:104-113 | A hundred plies without capture or pawn move draw unless the last of them mates; otherwise repetition decides. |
| State.WindowShrinks | src/engine/board/position.c:989-1004 | No walk inside the window leaves the chain: d plies back the window is d shorter. |
| Cuckoo.CuckooTable.Insert | src/engine/board/repetition.c:41-56 | Displacement keeps the multiset of stored pairs and the pair in hand, and every stored pair stays in one of its key's two slots. Given LIMIT rounds it has met an empty slot exactly when no slots would have to take more pairs than they are; otherwise the loop never ends. |
| Displacement.WalkExact | src/engine/board/repetition.c:41-56 | The displacing ends, after any number of rounds at all, exactly when the pairs have some placing in their two slots each, which is when no set of slots is crowded; and then it has ended within four rounds per slot. The walk goes out until it meets itself, back to where it began, and out a second time. |
| Cuckoo.CuckooTable.Fill | src/engine/board/repetition.c:15-59 | With the rounds that stand for the unbounded loop, building ends exactly when the drawn keys admit any table of the reversible moves; and then the slots hold the pair of each exactly once and nothing else. |
| Cuckoo.LookupExact | src/engine/board/repetition.c:80-88 | Two probes find a nonzero key exactly when it is a reversible move's, and then give back such a move. |
| Cuckoo.EntriesComplete | src/engine/board/repetition.c:23-39 | What is inserted is every non-pawn piece's move between two squares, lower square first, and nothing else. |
| Upcoming.UpcomingRepetition | src/engine/board/repetition.c:62-97 | Yes exactly when at some odd distance inside the window the opponent's moves have cancelled, the table answers with a move whose path is clear, and the earlier state lies below the root or recurred itself. |
| Cycles.AnswerReal | src/engine/board/repetition.c:62-97 | An answer of the table stands for a legal move back to that earlier position, when pieces other than pawns have different keys on different squares and a key difference equal to a reversible move's key means that the two positions differ by that move. |
| Cycles.ZeroedCanTell | src/engine/board/zobrist.c:36-42 | The zero keys a pawn has on its last rank stand in the way of none of that: some tables with them have a different key for every other piece on every square and tell the reversible moves apart. |
| Cycles.LeadsInWindow | src/engine/board/repetition.c:62-72 | A legal move back to any position since the last null move comes after an odd number of plies, at least three, inside the window: the walk's bounds and steps skip nothing. |
| Cycles.UpcomingRule | src/engine/board/repetition.c:62-97 | With keys that tell what they should inside the window, the answer is yes exactly when some legal move leads back to a position since the last null move that lies below the root or had itself occurred before: no such cycle is missed, and nothing else is reported. |
| Upcoming.AnswersMeans | src/engine/board/repetition.c:80-93 | An answer to a nonzero key is a reversible move with that key and a clear path; with distinct keys also the other way round. |
| Perft.Perft | src/engine/search/search.c:615-659 | The tree walk over make and unmake counts exactly the games of that length the rules allow, and gives the position back as it was. |
| Perft.ChecksOf | src/engine/board/legality.c:77-121 | What callers pass as gives_check is whether the move checks. |
| FirstMoves.TwentyMoves | tests/test_main.c:273-293 | The opening position allows exactly the sixteen pawn pushes and four knight moves, and the tree walk's first level counts twenty. |
| Exchange.SeeGe | src/engine/board/legality.c:123-207 | On a normal move, true exactly when the recursive exchange value (least valuable attacker, stop or recapture at each ply, x-rays, the code's pin and king rules) reaches the threshold; on any other move when zero does. |
| Exchange.SwapLoop | src/engine/board/legality.c:150-207 | The loop terminates and decides the recursion with `swap` in the range `res` implies, so the queen branch needs no early-out test. |
| Exchange.GainBounds | src/engine/board/legality.c:123-207 | Stopping is always allowed and nothing gained exceeds the piece that stands. |
| Exchanges.LeastByValue | src/engine/board/legality.c:150-207 | The order the loop tries the kinds in is the order of their values, the king last: the piece the exchange goes on with is no dearer than any other that could take, and the lowest square of its kind. |
| Exchanges.Undefended | src/engine/board/legality.c:123-150 | Taking a piece that no enemy piece reaches gains its listed value: 208, 781, 825, 1276 or 2538, and an empty square nothing. |
| Exchanges.RookTakesPawn | src/engine/board/legality.c:123-207 | A rook that takes a pawn a pawn defends loses 1068, or at best 860 when it is avenged. |
| Exchanges.KnightTakesRook | src/engine/board/legality.c:123-148 | A knight that takes a rook gains at least 495 and at most 1276, whatever follows. |
| Exchanges.KingGuards | src/engine/board/legality.c:190-207 | Where only the king could take back, it does so exactly when nothing else of the mover reaches the square. |
| Rays.SlidingAttack | src/engine/board/attacks.c:97-110 | The four ray loops compute the attack set. |
| Rays.SafeStepIs | src/engine/board/attacks.c:82-95 | The distance test rejects exactly the steps that wrap round the board. |
| Rays.LeaperTables | src/engine/board/attacks.c:352-360 | The knight and king tables hold exactly the moves of the piece. |
| Rays.Diagonals | src/engine/board/attacks.c:348-350 | The two diagonal masks are the full diagonals through the square. |
| Rays.LineMask | src/engine/board/attacks.c:153-163 | Both ways along a line, the square itself excluded. |
| Rays.BetweenAndLine | src/engine/board/attacks.c:370-385 | BetweenBB holds the squares strictly between and the far end; LineBB the full line, empty when not aligned. |
| Rays.MaskedShiftIs | src/engine/board/bitboard.h:67-87 | Shifting the masked set drops exactly the bits that would wrap. |
| Rays.PawnTable | src/engine/board/bitboard.h:89-92 | The two shifts of one square are the pawn's attacks. |
| WordArithmetic.MinusValue | src/engine/board/attacks.c:261-319 | The borrow-chain definition of word subtraction is subtraction of the numbers modulo 2^64. |
| Hyperbola.LaneExact | src/engine/board/attacks.c:261-319 | Subtract, reverse and xor give the ray cast both ways along each line, with the reversed operand taken at the full bit-reversal of the square. |
| Hyperbola.RankExact | src/engine/board/attacks.c:261-319 | The six-bit rank lookup gives the ray cast along the rank: the edge squares carry no information. |
| Hyperbola.BothExact | src/engine/board/attacks.c:261-319 | Both forms of both_attacks_bb equal the ray cast on every square and every occupancy. |
| Magics.EnumerateSubsets | src/engine/board/attacks.c:214-222 | The carry-rippling loop visits every subset of the mask exactly once. |
| Magics.RippleCounts | src/engine/board/attacks.c:214-222 | One step of the rippler adds one to the packed number, or wraps from the full mask to nothing. |
| Magics.PextInjective | src/engine/board/attacks.c:143-149 | Packed indices tell subsets apart. |
| Magics.MaskEnough | src/engine/board/attacks.c:202-209 | A blocker on the far edge cannot change what is attacked. |
| Magics.BlockFits | src/engine/board/attacks.c:194-249 | No mask exceeds twelve squares, so the 4096-slot scratch arrays always suffice. |
| Magics.TryMagic | src/engine/board/attacks.c:226-245 | A candidate is accepted only if every subset's slot holds its attack set; stamps of earlier candidates are harmless. |
| Magics.InitMagics | src/engine/board/attacks.c:194-249 | If the search ends, every lookup lands in the table and is the ray cast, whatever the 64-bit occupancy; later squares never overwrite earlier blocks. |
| MagicSizes.TableSizes | src/engine/board/attacks.c:18-24 | The blocks of all squares fill the declared tables exactly: 0x19000 rook and 0x1480 bishop slots. |
| MagicSizes.InitTable | src/engine/board/attacks.c:335-344 | So on the declared tables init_magics leaves attacks_bb equal to the ray cast. |
| MovePick.MovePicker.constructor | src/engine/search/movepick.c:311-326 | The picker starts at the TT move only when that is usable, and filters the TT move out of the lists either way. |
| MovePick.MovePicker.Next | src/engine/search/movepick.c:502-507 | Returns the next move of what is left to return, or nothing when that is empty, across every stage; the cursor, the loser prefix and the buffer stay in order. |
| PickOrder.Play | src/engine/search/movepick.c:245-507 | A picker of any kind, driven from its start by any calls, judged move by move: after a usable TT move the captures with see_ge(m, -score/18) truncated, then the quiets scoring above -14000, then the other captures, then the other quiets; within a part by falling score and, between equals, as generated (quiets below -3560 times the depth as the sort left them); under ProbCut only captures with see_ge(m, threshold). No move comes twice, none that is not due, after a skip no quiet, and a call comes back empty only when every capture due has come and, without a skip, every move due. |
| MovePick.MovePicker.GenerateStage | src/engine/search/movepick.c:435-493 | The opening, generating and filtering stages hand out the next move of what is left. |
| MovePick.MovePicker.WalkLists | src/engine/search/movepick.c:409-422 | The list-walking stages likewise, with the losers replayed from the start of the buffer. |
| MovePick.MovePicker.SelectGood | src/engine/search/movepick.c:363-390 | Losers met on the way are copied into the prefix behind the cursor, which it never overtakes. |
| MovePick.MovePicker.QuietsOver | src/engine/search/movepick.c:463-475 | Quiets are generated over consumed captures, right behind the losing ones, inside the buffer. |
| MovePick.MovePicker.SkipQuiets | src/engine/search/movepick.h:112-118 | Whatever the stage, a skip removes the quiets still to come and keeps every capture. |
| MovePick.Drive | src/engine/search/movepick.c:502-507 | For every interleaving of next and skip calls, the moves returned are those the abstract agenda returns; `PickOrder.Play` says without the agenda which those are and in what order. |
| MovePick.RunCounts | src/engine/search/movepick.c:351-507 | No move is returned more often than it is listed; once exhausted, every capture has come exactly as often as listed, and without a skip so has everything. |
| MovePick.SkippedReturns | src/engine/search/movepick.h:112-118 | After a skip only captures and the TT move are returned. |
| MovePick.MainCounts | src/engine/search/movepick.c:435-493 | The main agenda lists the TT move once and every other capture and quiet once. |
| MovePick.PlainCounts | src/engine/search/movepick.c:435-493 | So do the evasion and quiescence agendas with their one list. |
| PickLegal.MainPicker | src/engine/search/search_main.c:21-25 | On a represented position, at every depth and with every TT word, the picker mp_set_main_stage sets up has each move on its agenda at most once: in check and at positive depth the legal moves, in quiescence the legal captures and queen promotions, with a usable TT move first in each case; its capture, quiet and evasion lists hold exactly the legal moves of their kind. |
| PickLegal.OffersLegal | src/engine/search/search_main.c:21-25 | In check and at positive depth what is offered is exactly the legal moves if and only if a usable TT word is a legal word itself: the TT test ignores the promotion bits of a normal word, so such a word would come as it stands. |
| PickLegal.ProbCutPicker | src/engine/search/search_main.c:27-36 | Out of check the ProbCut picker has on its agenda, each once, exactly the legal captures and queen promotions see_ge lets past the threshold, and the TT move when it is legal and of the capture stage. |
| PickLegal.LegalRun | src/engine/search/movepick.c:351-507 | Whatever the caller does, no move comes twice and nothing comes but what is offered; run to the end, every offered capture has come, and every offered move if nothing was skipped. |
| Sorting.SortAll | src/engine/search/movepick.c:245-271 | The slice becomes its stable descending order: a permutation, descending, and for every value the entries worth it keep their generation order. |
| Sorting.StableDescentUnique | src/engine/search/movepick.c:245-271 | There is only one such arrangement: contents, descent and stability determine the sorted list. |
| Sorting.PartialInsertionSort | src/engine/search/movepick.c:273-309 | The entries at or above the limit come first, descending, equals among them in generation order; nothing is lost and the rest lie below the limit. |
| Sorting.SortsAgree | src/engine/search/movepick.c:245-309 | Under a limit nothing fails the two sorts give the same list. |
| Handshake.InvRun | src/platform/thread.c:14-137 | Every interleaving of owner and worker steps, spurious wakeups included, keeps the protocol invariant. |
| Handshake.JobsOnce | src/platform/thread.c:14-103 | Jobs run in the order they were handed over, each at most once, at most the last unfinished, and what has run or been handed over is never taken back later in the run; `HandshakeCalls` ties that to the calls. |
| HandshakeCalls.EnteredAre | src/platform/thread.c:91-103 | Said of the calls: in every run the jobs handed over are those of the submit calls entered on a started thread, in order, less the one still before its store. |
| HandshakeCalls.CallDoes | src/platform/thread.c:46-137 | From entry to return: a spawn leaves the thread started, parked and idle; a submit has handed over its own job, the last of all, and does not leave the worker asleep before it; a wait returns only when every job ever entered has run and finished; a join the same, with the worker gone and the thread not started. |
| HandshakeCalls.ReturnsAtOnce | src/platform/thread.c:91-120 | A call on a thread that is not started changes nothing; a spawn that fails leaves it not started. |
| HandshakeCalls.JobsRun | src/platform/thread.c:14-103 | From any point of any run, after 68 own steps and twelve more per wakeup without a new call, or where neither party can step, every job entered has run exactly once, in order, and finished. |
| Handshake.CallReturns | src/platform/thread.c:46-137 | When the owner comes back from a spawn's or a wait's last step, every job handed over has run and finished and the worker is parked; from a join's, the worker is gone as well. `HandshakeCalls.CallDoes` says it from a call's entry to its return. |
| Handshake.NoOverlap | src/platform/thread.c:91-103 | A job is handed over only when the one before it has finished. |
| Handshake.NoDeadlock | src/platform/thread.c:14-137 | In no reachable state inside a call are both parties blocked. |
| Handshake.RestMeansDone | src/platform/thread.c:14-44 | Between calls the worker stops only when parked with nothing left to run. |
| Handshake.StepsBounded | src/platform/thread.c:14-137 | While no new call is made, whatever the schedule and however many spurious wakeups it has, the two parties' own steps use up a rank that a wakeup raises by at most twelve. |
| Handshake.CallsReturn | src/platform/thread.c:14-137 | So from any reachable state inside a call, spurious wakeups allowed, the call returns before the two parties have taken 68 steps of their own plus twelve per wakeup; and at the latest where neither can step. |
| Numa.NumaConfig.NodeInsertSorted | src/platform/numa.c:46-71 | Append or binary search puts the CPU in its place of the ascending list; a CPU already there changes nothing and needs no room; without room nothing changes and the call says so. |
| Numa.NumaConfig.AddCpuToNode | src/platform/numa.c:122-146 | A CPU out of range or already assigned, its own node included, is refused and nothing changes; without memory no CPU is assigned and at most empty nodes appear; otherwise missing lower nodes appear empty, the list and the reverse map gain the CPU, the total grows by one. |
| Numa.NumaConfig.RemoveEmptyNodes | src/platform/numa.c:171-186 | The node list loses exactly its empty nodes, in order, and the reverse map is exact for the new indices. |
| Numa.AddConsistent | src/platform/numa.c:122-146 | An accepted add keeps every list strictly ascending and each CPU on exactly the node the reverse map names. |
| Numa.AssignedIsTotal | src/platform/numa.c:156 | The reverse map has exactly as many entries as the lists hold CPUs. |
| NumaText.ReadUint | src/platform/numa.c:213-247 | The digit loop with its overflow guard reads exactly the specified number. |
| NumaText.ParseUintMeans | src/platform/numa.c:192-247 | A text is accepted with value v exactly when it is digits making v, within size_t, between blanks, or blank with v = 0. |
| NumaText.ReadElement | src/platform/numa.c:251-283 | One number, or two around the only dash whose unsigned difference is below the cap. |
| NumaText.ReversedRange | src/platform/numa.c:239-283 | A reversed range is refused exactly when its ends differ by at most 2^64 - 2^20; beyond that the difference wraps below the cap and the range is accepted. |
| NumaPolicy.ReversedNamesNothing | src/platform/numa.c:239-283 | The input that shows it: the range from 18446744073709551615 to 0 is accepted, and adds no index to any topology. |
| NumaPolicy.ForEachIndex | src/platform/numa.c:295-333 | The character loop adds the indices of each comma element in turn, stops at the first refusal, and under strict reading at the first unreadable element; a failure not of the text's making means that memory ran out. |
| NumaPolicy.FromString | src/platform/numa.c:341-376 | What it builds is exactly the specified topology, marked custom, and a text is refused exactly when the specification refuses it or memory ran out on the way. |
| NumaPolicy.ParsedSound | src/platform/numa.c:341-376 | An accepted policy gives at least one node, none empty, lists ascending, each CPU on one node. |
| NumaPolicy.ToString | src/platform/numa.c:901-936 | Nodes joined by colons, each an ascending list with maximal runs collapsed. |
| NumaPolicy.RenderedParses | src/platform/numa.c:901-936 | A configuration is read back from its own text exactly when it has a node and none is empty. |
| NumaPolicy.CanonicalForm | src/platform/numa.c:341-376 | Whatever a policy was written as, its printed form means the same. |
| NumaPolicy.TwoNodes | src/platform/numa.c:341-376 | An example: "0-2,8:3" puts CPUs 0, 1, 2 and 8 on the first node and CPU 3 on the second. |
| NumaPolicy.RangeCap | src/platform/numa.c:251-283 | A range is accepted exactly when it names at most 2^20 indices. |
| NumaPolicy.LastCpu | src/platform/numa.c:122-124 | CPU 65535 can be added, CPU 65536 cannot. |
| FenBoard.BoardFieldReads | src/engine/board/position.c:369-404 | The board field written rank by rank reads back as the board with the cursor at its end. |
| FenRights.ReadRightsSound | src/engine/board/position.c:442-523 | Every right granted has its king on files b to g and its rook on the right side of it, both on the back rank. |
| FenRights.RightsFieldReads | src/engine/board/fen.c:38-52 | The castling field, in either notation, reads back as the held rights with the rooks its letters name: the held ones in Shredder notation, the outermost ones of each wing in standard notation. |
| FenRights.NamedRookMeans | src/engine/board/position.c:442-523 | The rook a letter names is the one held exactly when the notation is Shredder's or no rook of that colour stands further out on the wing. |
| Fen.ParsedSound | src/engine/board/position.c:355-617 | A FEN that is accepted stands for a well-formed position whose material a game can reach, whose ply parity is the side's and which counts no ply since a null move. |
| ArmyMaterial.MaterialReached | src/engine/board/position.c:418-437 | A side's material is accepted exactly when losing pieces and promoting pawns can lead to it from eight pawns, two knights, two bishops, two rooks and a queen. |
| Opening.StartParses | src/engine/board/position.c:355-617 | The text every game starts from is accepted, and stands for the opening position: each piece on its square, White to move, all four rights with the corner rooks, counters of a new game. |
| Opening.MissingCounters | src/engine/board/position.c:579-600 | Counters that are missing read as in a new game. |
| Opening.SquareNames | src/engine/board/fen.c:38-58 | En-passant squares are written by file letter and rank digit and read back so, Shredder rooks by file letter, upper case for White. |
| Opening.CastlingFromHome | src/engine/board/position.c:729-765 | From its home square the king castles two files towards the rook, which comes to stand on the square it crossed. |
| Opening.StartWorth | src/engine/board/types.h:176-179 | The opening's non-pawn material is 8302 for each side. |
| Fen.RoundTrip | src/engine/board/fen.c:9-62 | For every well-formed position with reachable material, parsing what was printed restores board, side, rights and their rooks, en-passant square, rule-50 counter and game ply if and only if each held rook is nameable in the notation, the counters are in the parser's range and the ply's parity is the side's. |
| Fen.PlyBack | src/engine/board/fen.c:60-61 | The game ply survives printing and parsing exactly when its parity is the side's. |
| Fen.FenReads | src/engine/board/fen.c:9-62 | And in every other case what happens: a counter out of range is rejected with its own reason; otherwise the position comes back with the rooks the letters name and the ply rebuilt from the move number. |
| FenPlay.StandingKept | src/engine/board/position.c:768-1014 | What the parser checks beyond well-formedness (rights and material bounds) every legal move keeps, and the ply goes on fitting the side. |
| FenPlay.StandingKeptNull | src/engine/board/position.c:1072-1143 | A null move keeps it too, but turns the ply's parity against the side: it changes the side and not the ply. |
| FenPlay.GameRoundTrip | src/engine/board/fen.c:9-62 | Every position of every game that began with a parsed FEN, null moves allowed, is restored by parsing its printed form if and only if the notation can name its castling rooks, its counters are in the parser's range and the null moves made are even in number. |
| FenPlay.InnerRookLost | src/engine/board/fen.c:38-52 | The input that shows the first condition: with rooks on a1 and b1 and the right held by the inner one, Shredder notation restores the position and standard notation does not. |
| FenPlay.BareKings | src/engine/board/fen.c:9-62 | Two kings alone meet every condition of that round trip, so it is about something. |
| FenPlay.MaterialKept | src/engine/board/position.c:420-437 | No legal move, promotions included, leaves the material the parser accepts. |
| Setup.ComputeKey | src/engine/board/position.c:241-282 | Position, pawn, minor-piece, non-pawn and material keys are the from-scratch folds. |
| Setup.SetCastlingRight | src/engine/board/position.c:286-316 | Rook square, path and masks are exact for every right read so far, also when a second token takes a right over. |
| Setup.ReadCastling | src/engine/board/position.c:442-523 | The token loop grants exactly the specified rights, dropping those without king or rook. |
| Setup.ReadBoardField | src/engine/board/position.c:369-404 | The character loop puts exactly the specified pieces and fails exactly where specified. |
| Setup.CheckBoard | src/engine/board/position.c:405-437 | The bitboard and count tests find exactly the specified fault. |
| Setup.SetReason | src/engine/board/position.c:355-617 | Accepts exactly what the field-by-field grammar accepts, with its reason otherwise, and builds a valid position object with no history: the start of every run above. |
| Setup.WriteFen | src/engine/board/fen.c:9-62 | The writing loops produce exactly the specified text. |

## Left out

- NNUE weights and accumulators, evaluation, search, the transposition table, time management, Syzygy, UCI and all I/O.
- AVX-512 paths, prefetches, cache-line layout, the history argument of pos_do_move, and the pawn-pair snapshots in the threat record: hardware tuning, or plain copies.
- Bit encodings of squares, pieces, move words and the packed threat word: easy codecs.
- Operating-system calls. Allocation is an input of the NUMA additions (whether each request finds room) and succeeds elsewhere; the growth of capacity is not modelled.
- The state chain: the `previous` pointers are modelled as a stack of records, so their aliasing is not.
- Keys: no claim depends on collisions; where one would, the theorem names what the keys must tell apart as a hypothesis (`Draws.RepetitionRule`, `Draws.RecurredMeans`, `Upcoming.AnswersMeans`, `Cycles.AnswerReal`, `Cycles.UpcomingRule`). The hypotheses speak of the window of the run at hand and of pieces other than pawns, because the tables give a pawn on its last rank the zero key; whether a given draw of the tables meets them is not proved.
- Cuckoo.CuckooTable.Insert: the code has no bound on its loop; here a budget bounds it, and one of LIMIT rounds stands for none, because `Displacement.WalkExact` shows that a walk still going then never ends.
- Magics.InitMagics: the random search is given its draws and may run out of them, because termination depends on concrete seeds.
- MagicSizes.InitTable: likewise.
- PickLegal.MainPicker: assumes, as the buffer's size does, that no position has more than MAX_MOVES legal moves; counting does not give that bound. So does PickLegal.ProbCutPicker. Move scores and see_ge verdicts are arbitrary functions.
- Perft.Perft: the count is unbounded; the 64-bit wrap-around and the printed split are not modelled.
- Fen.RoundTrip: the text has no NUL character; the two counters are unbounded integers, so what scanf does with a number outside `int` is not modelled. Error texts are modelled as reasons.
- Handshake.CallsReturn: one owner thread and one worker, and a call made on a started thread (a failed creation returns at once). It bounds the parties' own steps by the wakeups that happen: a schedule that never lets a party step, or wakes it for ever, is not ruled out.
- The AVX2 form of both_attacks_bb is modelled lane by lane as 64-bit arithmetic; the vector shuffles are taken at their meaning.
- Sorting.PartialInsertionSort: the order of the entries below the limit, which the code shuffles, is not stated.
- pos_flip_fen, pos_pretty, thread distribution over nodes, and the readers of the operating system's topology.
