# A verified model of a small chess rules engine

The engine keeps a position as a 120-cell byte board: 12 rows of 10 cells, where cell
`file + 10 * (10 - rank)` holds square file/rank, so a8 is 21 and h1 is 98. The two top
rows, the two bottom rows and columns 0 and 9 hold the sentinel 255; an empty square holds 0.
A piece byte packs its kind in the low three bits (2 pawn, 3 knight, 4 bishop, 5 rook,
6 queen, 7 king), a castling right in bit 8 (only read on kings) and its colour in bit 32
(set for Black). A game state (`ChessBoard`) is an immutable record: the board, the side to
move, the en-passant cell, the cell of a pawn awaiting promotion, the cached king cells and a
check flag. Every transition returns a new state.

The model, module by module:

- `Squares` holds the board geometry and the byte codes. It has two shape predicates:
  `WellFormed` for real positions, and `Framed` for the trial boards that the legality
  filter builds. It also converts between cells and square names, with both round trips
  proved.
- `Generation` writes pseudo-legal move generation and the attack oracle as specification
  functions: `Ray`, `Leaps`, `PawnTargets`, `KingTargets`, `PieceTargets` and `Attacked`.
  King moves with castling call the attack oracle, and the attack oracle calls the move
  generator without castling. The castling flag therefore carries the termination measure.
  The module proves the occupancy rules of the generated targets.
- `MoveGen` holds the loops the engine runs: sliding, pawn, knight and king generation, the
  dispatcher and the attack scan. Each loop is proved equal to its specification function.
- `Game` holds move simulation (`Applied` / `ApplyMove`), the king-safety filter
  (`LegalTargets` / `LegalMoves`), the move request (`Play` / `Move`, with the state
  construction `Next` / `Commit`) and promotion (`Promote`). Lemmas describe what an
  accepted move does to every field and every cell.
- `Terminal` holds "the side to move has a legal move without castling" (`HasLegalMove`) and the
  insufficient-material table (`Material`).
- `Opening` holds the start position. It proves that `legal_moves(..., castle=True)` returns
  exactly the test table's sets for all 32 pieces. It also proves a few consequences in the
  start position, among them that White may move a Black pawn.

The model follows the code as written, including these behaviours:

- **Ownership test.** It compares a boolean with `board[s] & 32`, so it only refuses Black to
  move naming a White piece.
- **Double step.** It does not look at the cell passed over.
- **En passant.** `en_passant` holds the landing cell of the double-stepped pawn. The capture
  adds a target without any occupancy test, and the captured pawn is never removed.
- **Pawn pushes.** They count as attacks.
- **Legal-move test.** `__bool__` asks for legal moves with `castle=False` (chess.py:47), so
  a side whose only legal move is castling counts as having none.
- **Castling.** It tests only the king's bit and a rook kind three or four cells away.
- **Castling bookkeeping.**
  - A rook of code 5 or 37 landing anywhere clears the castling bit of the mover's cached
    king.
  - Trial moves made with `castle=True` apply the queenside rook shift for every target
    except `s + 2`. This can carry the sentinel into the board.
- **Promotion.** It colours the new piece by the side to move after the flip. The resulting
  state has `check` false.
- **Material.** It uses king and pawn where its comments say king and bishop (see Findings).
  It filters bishops by cell value rather than by cell index, so the same-colour bishop test
  always passes.

## Model

| member | source | states |
|---|---|---|
| Squares.An2i | chess.py:356-360 | a name converts exactly when it is a letter a-h followed by a digit 1-8, else SquareError; the cell is on the board, in column file+1 and row 10-rank |
| Squares.I2an | chess.py:362-363 | every playing square gets a well-formed two-character name |
| Squares.SquareNameRoundTrip | chess.py:356-363 | `_an2i(_i2an(i)) == i` for every playing square |
| Squares.NameRoundTrip | chess.py:356-363 | `_i2an(_an2i(an)) == an` for every well-formed name |
| Generation.Leaps | chess.py:295-306 | every knight or king leap stays on the 120 cells and lands on an empty cell or a piece of the other colour |
| Generation.LeapsExactly | chess.py:295-306 | a cell is a leap target exactly when it is sq plus or minus one of the offsets used and the occupancy rule admits it |
| Generation.Ray | chess.py:339-351 | `_slide` from one cell in one direction: the cells walked through while empty, plus the first enemy piece met; the sentinel or an own piece stops it without being added |
| Generation.MoveBishop | chess.py:308-309 | the union of the four diagonal slides |
| Generation.MoveRook | chess.py:311-312 | the union of the four straight slides |
| Generation.MoveQueen | chess.py:314-315 | the union of the bishop's and the rook's slides |
| Generation.PawnTargets | chess.py:269-293 | one step forward onto an empty cell, two steps from the start row when the cell two ahead is empty (the cell passed over is not tested), a diagonal step onto an enemy piece, and the cell behind the en-passant pawn when that pawn stands beside |
| Generation.KingsideCastle | chess.py:326-331 | a rook kind on s+3, s+1 and s+2 empty, and neither attacked by the other colour |
| Generation.QueensideCastle | chess.py:332-336 | a rook kind on s-4, s-1, s-2 and s-3 empty, and s-1 and s-2 not attacked by the other colour |
| Generation.KingTargets | chess.py:317-337 | the eight neighbour leaps, plus s+2 and s-2 under the castling tests when castling is asked for and the king keeps its castling bit |
| Generation.PieceTargets | chess.py:251-267 | `_move_piece`: dispatches on the piece's kind to the pawn, knight, bishop, rook, queen or king targets |
| Generation.Attacked | chess.py:240-249 | `_under_attack`: some piece of the attacking colour on cells 21..99 has the target among its targets, generated with castling off |
| Generation.RayOccupancy | chess.py:339-351 | every cell of a slide is empty or holds a piece of the other colour, never the sentinel |
| Generation.RayContiguous | chess.py:339-351 | a slide is contiguous from its first cell, every cell before the last is empty, and nothing beyond an occupied cell is reached |
| Generation.RayComplete | chess.py:339-351 | a slide does not stop early: its first cell is reached when it is empty or holds an enemy, and the cell past an empty reached cell is reached when it is empty or holds an enemy |
| Generation.TargetsOccupancy | chess.py:251-351 | every pseudo-legal target is empty or an enemy piece, except the en-passant landing cell beside a pawn |
| Generation.PawnOccupancy | chess.py:269-293 | pawn pushes land on empty cells one or two rows forward, diagonal steps only capture enemy pieces, and the only other target is the en-passant landing cell |
| MoveGen.Slide | chess.py:339-351 | the while loop returns the specified ray |
| MoveGen.MovePawn | chess.py:269-293 | returns the specified pawn targets for both colours |
| MoveGen.MoveKnight | chess.py:295-306 | the loop over the four offsets returns the specified leaps |
| MoveGen.MoveKing | chess.py:317-337 | returns the eight leaps plus, when castling is asked for and the king has its bit, each castling target whose test passes |
| MoveGen.KingsideMove | chess.py:326-331 | returns s+2 exactly when a rook kind stands at s+3, s+1 and s+2 are empty and neither is attacked by the other colour |
| MoveGen.QueensideMove | chess.py:326-336 | returns s-2 exactly when a rook kind stands at s-4, s-1 to s-3 are empty and neither s-1 nor s-2 is attacked by the other colour |
| MoveGen.MovePiece | chess.py:251-267 | dispatches on the kind; bishop, rook and queen targets are the unions of slides (chess.py:308-315) |
| MoveGen.UnderAttack | chess.py:240-249 | the scan answers exactly whether some piece of the attacking colour on cells 21..99 has the target among its targets |
| Game.Applied | chess.py:225-238 | a simulated move keeps the board size and the frame of a trial board |
| Game.ApplyMove | chess.py:225-238 | returns a fresh buffer holding the simulated board; the input is not modified |
| Game.AppliedCells | chess.py:225-238 | the target gets the moved piece, the source is emptied, a castling move carries the rook from s+3 to s+1 or from s-4 to s-1, and every cell other than the source, the target and, for a castling move, that side's two rook cells is unchanged |
| Game.QuietMoveUndone | chess.py:225-238 | a move to an empty cell is undone by the move back |
| Game.TargetsOnBoard | chess.py:207-213 | every pseudo-legal target of a piece in a valid state is a playing square |
| Game.MoverKing | chess.py:217-220 | the king cell a trial move is judged by: the target when the moving piece is a king, else the side to move's cached king cell |
| Game.KeepsKingSafe | chess.py:216-221 | after the trial move, the mover's king cell is not attacked by the other colour, with the state's en-passant cell |
| Game.LegalTargets | chess.py:207-223 | legal targets are playing squares |
| Game.LegalMoves | chess.py:207-223 | the filter loop returns exactly the pseudo-legal targets whose simulated board leaves the king unattacked |
| Game.LegalTargetsOccupancy | chess.py:207-223 | a legal target is pseudo-legal with castling only when asked for and not in check, keeps the king safe, differs from the source, and is empty, an enemy or the en-passant cell |
| Game.LegalCastling | chess.py:207-213 | a king is offered s+2 or s-2 exactly when castling was asked for, the side is not in check, the king has its bit, that side's castling test passes and the king ends safe |
| Game.AllTargetsSafe | chess.py:214-223 | when every pseudo-legal target keeps the king safe, all of them are legal |
| Game.ParseRequest | chess.py:137-153 | SquareError exactly for a malformed or empty source; MoveError exactly for a malformed target that is not a king's 0-0 / 0-0-0; otherwise the source, the target (s+2 / s-2 for castling) and the castling flag |
| Game.OwnerRejected | chess.py:156 | the ownership test as written: the side to move, a boolean, equals the source byte's colour bit, 0 or 32 |
| Game.SelfCapture | chess.py:157 | the target holds a piece whose colour bit equals the source's |
| Game.OwnerRejectedExactly | chess.py:156 | the ownership test fails exactly when Black is to move and names a White piece |
| Game.ClearCastling | chess.py:180-190 | keeps the board well formed, changes at most the target and the king cell, keeps every kind and colour, and only ever turns 15 into 7 or 47 into 39 |
| Game.ClearedCells | chess.py:180-190 | the landing piece keeps kind and colour, a landing king loses its bit, and nothing but the target and the king cell changes |
| Game.CastleTargetSource | chess.py:317-337 | a king target two cells away comes only from a passed castling test with the king's bit set |
| Game.AcceptedIsReady | chess.py:160-164 | the board simulated for an accepted request is well formed again |
| Game.Next | chess.py:163-205 | the state after an accepted request is valid |
| Game.NextFields | chess.py:163-205 | player flips; en_passant is the target iff a pawn moved 20 cells; promoted is the target iff a pawn lands on row 2 or 9; the mover's king cell follows a moving king, the other stays; check iff the mover attacks the other king's cell |
| Game.NextBoardMoved | chess.py:163-190 | the source is empty, the target holds the moved piece, as 7/39 when it was a king 15/47, a castling move has moved its rook |
| Game.NextBoardRest | chess.py:180-190 | a rook 5/37 landing turns a 15/47 on the mover's cached king cell into 7/39; every cell other than the source, the target, that side's castling rook cells and that cleared king cell keeps its content |
| Game.NextBoardExact | chess.py:163-190 | the whole new board cell by cell: the applied move, with a landing king 15/47 turned into 7/39 and, when a rook 5/37 lands, a 15/47 on the mover's cached king cell turned into 7/39 |
| Game.Play | chess.py:129-205 | every successful move yields a valid state |
| Game.PlayOutcome | chess.py:129-161 | SquareError exactly for a bad or empty source; never PromotionError; success exactly when the request parses, the ownership and same-colour tests pass and the target is legal, and the result is then `Next` of that request |
| Game.Move | chess.py:129-205 | the method computes `Play` |
| Game.ReadRequest | chess.py:137-153 | the parsing lines of `move` compute `ParseRequest`: SquareError, MoveError or the request |
| Game.Commit | chess.py:163-205 | the buffer updates and the attack scan compute `Next` |
| Game.ClearCastlingIn | chess.py:180-190 | the buffer updates for the castling bits compute `ClearCastling` of the buffer |
| Game.Promote | chess.py:96-127 | choices 1-4 write queen/rook/bishop/knight of the colour `player` names on the promotion cell and nothing else; any other choice is PromotionError; promoted becomes 0, player, en passant and kings stay, check is false |
| Terminal.HasLegalMove | chess.py:42-47 | `__bool__`: some piece of the side to move has a legal move without castling |
| Terminal.NoLegalMoveRefusesPlay | chess.py:42-47 | when `__bool__` is false, `move` refuses every ordinary request naming a piece of the side to move |
| Terminal.Kinds | chess.py:51-52 | the multiset of kinds of one colour's pieces; no longer than the board |
| Terminal.KindsMember | chess.py:51-52 | a kind is in a colour's list exactly when a cell of that colour holds it |
| Terminal.Bishops | chess.py:65 | the list of kinds of cells whose value is 4, filtered by cell value as written; no longer than the board |
| Terminal.BishopTestPasses | chess.py:63-67 | the bishop list only ever holds 4, so the same-colour test always passes |
| Terminal.Verdict | chess.py:53-90 | the if/elif chain on White's kinds, Black's kinds and the outcome of the bishop test, as written, with king and pawn at lines 73 and 79 and the unswapped second clause of line 73 |
| Terminal.Material | chess.py:49-90 | `material`: the chain over each colour's multiset of kinds, with the bishop test that filters by cell value |
| Terminal.VerdictExactly | chess.py:53-90 | with the bishop test passing, the chain is false exactly for the listed pairs of kind lists |
| Terminal.ListedDraws | chess.py:53-90 | every pair of the written-out draw table reaches a false branch of the chain |
| Terminal.MaterialExactly | chess.py:49-90 | `material` is false exactly for the pairs in the written-out draw table |
| Terminal.HeavyPieceSuffices | chess.py:49-90 | a rook or queen of either colour makes `material` true |
| Terminal.PawnCountedAsBishop | chess.py:72-80 | king and pawn against king and knight is called a draw, and king and pawn against king and two knights is a draw for one colour assignment only |
| Terminal.IntendedVerdict | chess.py:53-90 | the chain as its comments describe it: king and bishop at lines 73 and 79, and the second clause of line 73 with the colours swapped |
| Terminal.IntendedVerdictProperties | chess.py:53-90 | the chain as its comments describe it is symmetric in the colours and never calls a position with a pawn a draw |
| Opening.BackRank | test_chess.py:5-12 | the back rank from file a to h: rook, knight, bishop, queen, king with its castling bit, bishop, knight, rook |
| Opening.StartCell | test_chess.py:4-37 | the start position cell by cell, from which the constants `Start` and `NewGame` (chess.py:92-94) are built: Black's pieces with bit 32 on rows 2 and 3, White's on rows 8 and 9, the sentinel off the board, every other cell empty |
| Opening.OpeningValid | chess.py:92-94 | the start position is valid and both kings carry their castling bits on e1 and e8 |
| Opening.RayStopsAtWall | chess.py:339-351 | a forward slide never passes a row of eleven occupied cells |
| Opening.BlackTargetsBounded | chess.py:251-351 | without en passant or castling, given a wall of eleven occupied cells q..q+10, a Black piece reaches no cell past sq+21 or, for a slider above the wall, past the wall |
| Opening.NotAttackedByBlack | chess.py:240-249 | cells beyond every Black piece's reach are not attacked by Black |
| Opening.BlackSimulationSafe | chess.py:225-238 | no simulated move of a Black piece from the start to a cell up to 58, which covers every Black target there, exposes e1 |
| Opening.WhiteSimulationSafe | chess.py:225-238 | no simulated move of a White piece from the start to a cell from 61 on, which covers every White target there, exposes e1 |
| Opening.OpeningTargets | test_chess.py:4-37 | every piece of the start position has exactly the pseudo-legal targets the table lists |
| Opening.OpeningKnightTargets | test_chess.py:6-35 | each knight has its two targets in front of the pawns |
| Opening.OpeningBlackPawnTargets | test_chess.py:13-20 | Black's pawns have their one- and two-step targets |
| Opening.OpeningWhitePawnTargets | test_chess.py:21-28 | White's pawns have their one- and two-step targets |
| Opening.OpeningSliderTargets | test_chess.py:5-36 | rooks, bishops and queens have no targets |
| Opening.OpeningKingTargets | test_chess.py:9-33 | the kings have no targets, castling included |
| Opening.OpeningLegalMoves | test_chess.py:45-58 | `legal_moves(new_game(), s, castle=True)` equals the table's set for every piece |
| Opening.OpeningHasLegalMove | chess.py:42-47 | the start position has a legal move |
| Opening.OpeningMaterial | chess.py:49-90 | the start position has sufficient material |
| Opening.WhiteMovesBlackPawn | chess.py:155-158 | from the start, White's request e7 e5 succeeds: it moves Black's pawn, sets en passant to e5 and passes the turn |

## Left out

- `__repr__`, `_i2symbol` and the glyph tables (chess.py:7-8, 23-40, 353-354) are presentation only.
- Exception message texts (chess.py:131-135) are left out. Errors are the three-valued `Error` datatype.
- `new_game` (chess.py:92-94) reads `board.bin` from disk. That file is not part of this model. The start position is the constant `Opening.Start`, written from the test table with kings 15 and 47 on cells 95 and 25.
- The interactive loop (chess.py:365-404) is console I/O. It passes the first character of the input line, a string, to `promote`, where `choice == 1` is then never true. This is outside the modelled core.
- Squares.An2i: the regular expression's `$` also accepts a trailing newline ("e4\n"). The model accepts exactly two characters.
- Squares.I2an requires a playing square. Python names a column-0 cell with 'h' through a negative index and raises IndexError in column 9. Nothing in chess.py calls `_i2an`; only its definition exists (chess.py:362).
- Generation.Cell reads a cell past index 119 as the sentinel. Python raises IndexError instead. Only a knight on cell 99 reads that far, and it can get there only in a trial board, through the queenside rook shift of a `castle=True` simulation.
- MoveGen.MovePiece, the other generators, Game.LegalTargets and Game.LegalMoves require a piece on the source cell. `legal_moves` called on an empty cell reaches the SquareError of `_move_piece` (chess.py:265-266) through chess.py:208 and 252. Its callers never pass one: `move` tests for an empty cell first (chess.py:138-139), `__bool__` visits only the side's pieces (chess.py:42-47), and `_under_attack` visits only pieces (chess.py:240-246). The error path itself is not modelled.
- MoveGen.Slide, MoveGen.MovePawn, MoveGen.MoveKnight, MoveGen.MoveKing and Game.LegalMoves return sets, and LegalMoves visits the candidates in increasing cell order. Python builds lists and freezes them, so the order of a frozenset's iteration is not modelled. No result depends on it.
- Terminal.Kinds keeps each colour's kinds as a multiset. Two sorted lists are equal exactly when their multisets are.
- Game.Promote requires a valid state and is stated valid only when a promotion is pending. With `promoted == 0`, the source writes the piece into sentinel cell 0, and the model does the same.
- Byte width: every value the model stores is a cell code from 0 to 255, so out-of-range byte writes, a ValueError in Python, never arise and are not modelled.

## Findings

| source | as written | input that shows it | evidently intended | confidence | as-written member | corrected member |
|---|---|---|---|---|---|---|
| chess.py:73, chess.py:79 | `wp == [2, 7]` (king and pawn) under the comments "KB vs KNN" and "KB vs KN" | White king and pawn against Black king and knight: `material` is False, a draw | `[4, 7]`, king and bishop | high (not executed) | Terminal.PawnCountedAsBishop | Terminal.IntendedVerdictProperties |
| chess.py:73 | the second clause repeats the first instead of swapping the colours | White king and two knights against Black king and pawn: `material` is True, while the colour-swapped position is False | `(bp == [4, 7] and wp == [3, 3, 7])`, the colour swap of the first clause with a bishop | high (not executed) | Terminal.PawnCountedAsBishop | Terminal.IntendedVerdictProperties |
