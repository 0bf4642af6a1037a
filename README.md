# MlChess rules kernel and engines, modelled in Dafny

MlChess is a chess workbench. It has a Rust rules kernel (`chess_core`: squares, bitboards,
attack tables, the position with make/unmake, legal move generation, perft), several engines
that search on top of it, a tournament runner, a GUI game state, and Python training tools.
This project models the rules kernel and the engine-facing logic, and proves properties of the
model.

Modelling decisions that apply throughout:

- A bitboard (`u64` in the source) is modelled as the set of the squares it holds (`set<nat>`,
  every element below 64). The operators map as follows:
  - `|` is union;
  - `&` is intersection;
  - `!` is `Not` (the complement within the 64 squares);
  - a shift is a translation of every square, dropping those that leave the board.

  `lsb` is the least element of the set and `popcount` is its cardinality. The bit-level
  encoding of the 16-bit packed move is modelled on bit-vectors (module `PackedMoves`).
- The rules kernel works on the move record `Types.Move(from, to, promo, isEnPassant, isCastle)`.
  This record is the move the call sites build and read: the generator (movegen.rs:292-293),
  the UCI reader, make/unmake in board.rs and the GUI game state. The `u16` packing of
  types.rs:72-171 is modelled on its own, in `PackedMoves`. The overlap of the promotion field
  and the castle bit (see "## Findings") therefore never reaches generation, make/unmake or UCI
  in the model.
- The position (`Position` in board.rs) is a class. Its fields are the mailbox, the per-piece
  bitboards, the side to move, the castling rights, the en-passant square and the two clocks.
  Its methods are specified by pure state functions (`Positions.MakeState`,
  `Positions.UnmakeState`, `Generation.LegalMoves`, ...), and the properties of the rules are
  proved about those functions.
- The Zobrist keys are 64-bit words (`bv64`), and the xorshift64 generator is modelled bit for bit.
  That all 781 keys are distinct is proved from two facts. First, a generator step is invertible.
  Second, the seed does not come back within 780 steps. The second fact is proved by listing the
  780 states after the seed and checking each against the one before it (`Zobrist.Orbit0` onwards).
- Move buffers (`Vec<Move>` in the source) are objects of class `MoveGen.MoveBuffer`. They are
  filled by pushing and emptied by `clear`, as the source does.
- The three negamax searches share one specification (`SearchSpec`): plain negamax (`Minimax`),
  the fail-soft alpha-beta value (`AlphaBeta`), its node count and the root scan. A game is a record
  of functions (moves, making a move, draw rules, leaf evaluation), so the kernel's game and the
  engine variants are instances of it. Each search method is proved to compute that value on its
  game and to restore the position and the repetition history. The fail-soft theorem ties
  `AlphaBeta` to `Minimax`.
- The clock, the random choice of the random engine, a loaded neural network, Stockfish, the PGN
  reader and the engines of a match are parameters or choices the model leaves open. Every
  property is proved for all of their behaviours.
- The position encoders (`Features`, `Dataset`) produce sequences of reals. The exact index of
  every entry and the colour-swap symmetry are proved about them.
- The GUI game state (`Gui.GameState`), the tournament results (`Results.TournamentResults`) and
  the engines are classes. Their methods are specified by functions of the state before.
- The small text tools (the EPD line reader of the perft tests, the test-block mover script) are
  functions on strings. These are paired with imperative versions where the source loops.

## Model

| member | source | states |
|---|---|---|
| Types.Color.Other | crates/chess_core/src/types.rs:8-13 | the opponent colour differs from the colour |
| Types.Color.Idx | crates/chess_core/src/types.rs:15-20 | the index is below 2 and is 0 exactly for White |
| Types.PieceKind.Idx | crates/chess_core/src/types.rs:35-44 | the table index of a kind is below 6 |
| Types.KindsInOrder | crates/chess_core/src/types.rs:35-53 | the index of a kind is its position in `PieceKind::ALL` (Pawn, Knight, Bishop, Rook, Queen, King) |
| Types.Sq | crates/chess_core/src/types.rs:198-205 | a square exists exactly when file and rank are both in 0..8, and it has that file and rank |
| Types.SqFromCoords | crates/chess_core/src/types.rs:207-209 | for an on-board file the square has the given file and rank |
| Types.SqToCoord | crates/chess_core/src/types.rs:211-215 | the coordinate has two characters, a file letter a-h and a rank digit 1-8 for a board square |
| Types.CoordToSq | crates/chess_core/src/types.rs:217-231 | a square is found exactly for a two-character string of a file letter a-h then a rank digit 1-8 |
| Types.CoordRoundTrip | crates/chess_core/src/types.rs:211-231 | parsing the coordinate of any board square gives the square back |
| Types.CoordToSqInverse | crates/chess_core/src/types.rs:211-231 | printing the square of a parsed coordinate gives the coordinate back |
| Types.FileRankSplit | crates/chess_core/src/types.rs:187-195 | `file_of` is below 8, `rank_of` is below 8 exactly for squares on the board, and `rank * 8 + file` is the square |
| Types.SqOfFileRank | crates/chess_core/src/types.rs:188-205 | splitting a square into file and rank and joining them gives the square back |
| PackedMoves.NewReadsBack | crates/chess_core/src/types.rs:86-102 | a fresh move reads back its from- and to-squares, with no promotion and no flags |
| PackedMoves.WideToSquareSpills | crates/chess_core/src/types.rs:86-89 | as written, a to-square of 64 or more reads back as its low six bits, and its high bits read as a knight, bishop or rook promotion |
| PackedMoves.SetMinorPromoReadsBack | crates/chess_core/src/types.rs:104-133 | setting a knight, bishop or rook promotion reads back the same piece and leaves the squares and the en-passant flag alone |
| PackedMoves.SetPromoReadsBack | crates/chess_core/src/types.rs:104-131 | after any promotion update the field reads back the piece when it is a knight, bishop, rook or queen and no promotion otherwise, and the squares and the en-passant flag are kept |
| PackedMoves.PromoClearReadsNone | crates/chess_core/src/types.rs:118-131 | setting no promotion, a pawn or a king reads back as no promotion, keeps the squares and the en-passant flag, and leaves the castle bit clear |
| PackedMoves.QueenPromoKeeps | crates/chess_core/src/types.rs:104-131 | setting a queen promotion reads back a queen and keeps the squares and the en-passant flag |
| PackedMoves.SetPromoClearsCastle | crates/chess_core/src/types.rs:118-133 | setting any promotion other than queen clears the castle bit |
| PackedMoves.EnPassantFlagIndependent | crates/chess_core/src/types.rs:143-157 | the en-passant flag reads back what was set, and the squares, the promotion and the castle flag are unchanged |
| PackedMoves.EnPassantKeepsSquares | crates/chess_core/src/types.rs:149-157 | setting the en-passant flag keeps both squares |
| PackedMoves.CastleFlagIndependent | crates/chess_core/src/types.rs:159-172 | the castle flag reads back what was set, and the squares and the en-passant flag are unchanged |
| PackedMoves.CastleKeepsSquares | crates/chess_core/src/types.rs:165-172 | setting the castle flag keeps both squares |
| PackedMoves.CastleKeepsEnPassant | crates/chess_core/src/types.rs:165-172 | setting the castle flag keeps the en-passant flag |
| PackedMoves.EnPassantKeepsPromo | crates/chess_core/src/types.rs:149-157 | setting the en-passant flag keeps the promotion |
| PackedMoves.PackedMove.New | crates/chess_core/src/types.rs:86-90 | the new move holds the from- and to-square bits |
| PackedMoves.PackedMove.From | crates/chess_core/src/types.rs:91-94 | the from-square read from the low six bits is below 64 |
| PackedMoves.PackedMove.To | crates/chess_core/src/types.rs:97-100 | the to-square read from bits 6-11 is below 64 |
| PackedMoves.PackedMove.Promo | crates/chess_core/src/types.rs:103-114 | the promotion read back is never a pawn or a king |
| PackedMoves.PackedMove.IsEnPassant | crates/chess_core/src/types.rs:142-145 | the flag is set exactly when the bits are at least 2^15 |
| PackedMoves.PackedMove.IsCastle | crates/chess_core/src/types.rs:158-161 | the flag is set exactly when the promotion code is 4 or more, the overlap of the two fields |
| PackedMoves.PackedMove.SetPromo | crates/chess_core/src/types.rs:117-131 | the new bits are the old ones with bits 12-14 replaced by the promotion's code; what then reads back is stated by SetPromoReadsBack |
| PackedMoves.PackedMove.WithPromo | crates/chess_core/src/types.rs:134-139 | a fresh move whose bits are those of the two squares with the promotion's code set |
| PackedMoves.PackedMove.SetEnPassant | crates/chess_core/src/types.rs:149-157 | the flag reads back the value set, and the new bits are the old ones with bit 15 set or cleared; EnPassantFlagIndependent states that nothing else changes |
| PackedMoves.PackedMove.SetCastle | crates/chess_core/src/types.rs:165-172 | the flag reads back the value set, and the new bits are the old ones with bit 14 set or cleared; CastleFlagIndependent states that the squares and the en-passant flag are kept |
| PackedMoves.QueenPromotionReadsAsCastle | crates/chess_core/src/types.rs:80-82 | as written, a queen promotion also reads as a castling move |
| PackedMoves.CastleReadsAsQueenPromotion | crates/chess_core/src/types.rs:80-82 | as written, a castling move also reads as a queen promotion |
| PackedMoves.CorrectedRoundTrip | crates/chess_core/src/types.rs:74-172 | with disjoint fields, unpacking a packed move gives back every field |
| PackedMoves.CorrectedFlags | crates/chess_core/src/types.rs:143-172 | with disjoint fields, each flag bit is set exactly when its flag is |
| Bitboards.Not | crates/chess_core/src/bitboard.rs:195-201 | a board square is in the complement exactly when it is not in the bitboard |
| Bitboards.FromSquare | crates/chess_core/src/bitboard.rs:44-48 | the bitboard holds exactly the given square |
| Bitboards.SetSquare | crates/chess_core/src/bitboard.rs:62-66 | the square is added and every other square is unchanged |
| Bitboards.ClearSquare | crates/chess_core/src/bitboard.rs:68-72 | the square is removed and every other square is unchanged |
| Bitboards.Lsb | crates/chess_core/src/bitboard.rs:80-88 | no square exactly for the empty bitboard, otherwise its least member |
| Bitboards.PopLsb | crates/chess_core/src/bitboard.rs:90-98 | returns the least square and removes exactly it; the popcount drops by one |
| Bitboards.AscendingEnumerates | crates/chess_core/src/bitboard.rs:220-230 | iteration yields each member exactly once, in increasing order, popcount many |
| Bitboards.Collect | crates/chess_core/src/bitboard.rs:220-230 | the pop-lsb loop yields the squares in increasing order |
| Bitboards.ShiftMember | crates/chess_core/src/bitboard.rs:203-218 | a square is in a shifted bitboard exactly when it is on the board and its pre-image is in the original |
| Bitboards.JumpMember | crates/chess_core/src/bitboard.rs:102-148 | a square is in a masked directional shift exactly when its source is in the bitboard and the move does not wrap around a file edge |
| Bitboards.JumpSquare | crates/chess_core/src/bitboard.rs:102-148 | shifting one square gives its neighbour in that direction when one exists, and nothing otherwise |
| Bitboards.PopcountAnchors | crates/chess_core/src/bitboard.rs:241-248 | the popcounts of the empty board, one square, the A file, the first rank and the full board are 0, 1, 8, 8 and 64 |
| Bitboards.IteratorAnchor | crates/chess_core/src/bitboard.rs:250-255 | iterating squares 1 and 3 yields 1 then 3 |
| Bitboards.ShiftAnchors | crates/chess_core/src/bitboard.rs:257-264 | north of a1 is a2, east of a1 is b1, west of a1 is empty, east of h1 is empty and west of h1 is g1 |
| Attacks.BuildKnightAttacks | crates/chess_core/src/attacks.rs:12-43 | the table entry of every square is the set of squares a knight jump away |
| Attacks.BuildKingAttacks | crates/chess_core/src/attacks.rs:45-68 | the table entry of every square is the set of adjacent squares |
| Attacks.BuildPawnAttacks | crates/chess_core/src/attacks.rs:70-103 | the table entry of every square is the set of squares diagonally ahead for the colour |
| Attacks.BuildRays | crates/chess_core/src/attacks.rs:132-240 | the ray table holds, per direction and square, every square on that ray up to the edge |
| Attacks.PositiveRayCut | crates/chess_core/src/attacks.rs:243-275 | on an increasing ray, removing what lies beyond the least blocker gives the squares up to and including the first blocker |
| Attacks.NegativeRayCut | crates/chess_core/src/attacks.rs:243-275 | on a decreasing ray, removing what lies beyond the greatest blocker gives the squares up to and including the first blocker |
| Attacks.ComputeBishopAttacks | crates/chess_core/src/attacks.rs:243-274 | the bishop attacks are the four diagonal rays, each cut at its first blocker |
| Attacks.ComputeRookAttacks | crates/chess_core/src/attacks.rs:276-305 | the rook attacks are the four orthogonal rays, each cut at its first blocker |
| Attacks.QueenReach | crates/chess_core/src/attacks.rs:307-309 | a square is a queen attack exactly when it lies on one of the eight rays cut at its first blocker |
| Attacks.ComputeQueenAttacks | crates/chess_core/src/attacks.rs:307-309 | the queen attacks are the union of the bishop and rook attacks, i.e. the squares of the eight cut rays |
| AttackAnchors.KnightSquaresE4 | crates/chess_core/src/attacks_tests.rs:4-7 | a knight on e4 attacks exactly d2, f2, c3, g3, c5, g5, d6 and f6 |
| AttackAnchors.KnightFromE4 | crates/chess_core/src/attacks_tests.rs:4-7 | a knight on e4 attacks eight squares |
| AttackAnchors.KnightFromCorners | crates/chess_core/src/attacks_tests.rs:9-18 | a knight on a1 attacks exactly two squares, b3 and c2 among them; one on h1 attacks two |
| AttackAnchors.KingFromE4 | crates/chess_core/src/attacks_tests.rs:21-24 | a king on e4 attacks eight squares |
| AttackAnchors.KingFromA1 | crates/chess_core/src/attacks_tests.rs:26-28 | a king on a1 attacks three squares |
| AttackAnchors.PawnAnchors | crates/chess_core/src/attacks_tests.rs:32-43 | a white pawn on e4 attacks exactly d5 and f5, and one on a2 attacks only b3 |
| AttackAnchors.RookE4EmptyBoard | crates/chess_core/src/attacks_tests.rs:46-50 | a rook on e4 on an empty board attacks fourteen squares |
| AttackAnchors.BishopE4EmptyBoard | crates/chess_core/src/attacks_tests.rs:53-57 | a bishop on e4 on an empty board attacks thirteen squares |
| AttackAnchors.RookA1BlockedOnA4 | crates/chess_core/src/attacks_tests.rs:60-71 | a rook on a1 blocked on a4 reaches a2, a3, a4, b1 and h1 but not a5 |
| Threats.KnightSymmetric | crates/chess_core/src/board.rs:295-332 | a knight on s attacks t exactly when a knight on t attacks s |
| Threats.KingSymmetric | crates/chess_core/src/board.rs:295-332 | adjacency is symmetric |
| Threats.PawnSymmetric | crates/chess_core/src/board.rs:295-332 | a pawn of one colour on s attacks t exactly when a pawn of the other colour on t attacks s |
| Threats.BishopSymmetric | crates/chess_core/src/board.rs:295-332 | with the same occupancy, s sees t diagonally exactly when t sees s |
| Threats.RookSymmetric | crates/chess_core/src/board.rs:295-332 | with the same occupancy, s sees t orthogonally exactly when t sees s |
| Threats.LookupsFindAttackers | crates/chess_core/src/board.rs:295-332 | the reverse lookups from the target find an attacker exactly when some piece of the attacker's colour attacks the target |
| Positions.OccupiedSet | crates/chess_core/src/board.rs:33-36 | a square is occupied exactly when the mailbox holds a piece there |
| Positions.PieceBitboards.Occupied | crates/chess_core/src/board.rs:33-36 | the occupancy is the union of both colours |
| Positions.PieceBitboards.Set | crates/chess_core/src/board.rs:43-49 | the square joins the placed piece's bitboard and colour, and every other bitboard is unchanged |
| Positions.PieceBitboards.Clear | crates/chess_core/src/board.rs:51-57 | the square leaves the removed piece's bitboard and colour, and every other bitboard is unchanged |
| Positions.EmptyBoardSynced | crates/chess_core/src/board.rs:22-29 | the empty bitboards agree with the empty mailbox |
| Positions.SyncedUnique | crates/chess_core/src/board.rs:22-66 | the bitboards that agree with a mailbox are unique |
| Positions.SetPieceSync | crates/chess_core/src/board.rs:271-283 | updating a square of the mailbox and the bitboards together keeps them in agreement |
| Positions.CastleRookSquares | crates/chess_core/src/board.rs:485-505 | a castling rook move goes between two distinct board squares, neither of them the king's |
| Positions.MakeThenCanUnmake | crates/chess_core/src/board.rs:433-654 | after a move is made, the undo record it returns can be taken back |
| Positions.UnmakeMake | crates/chess_core/src/board.rs:433-654 | unmaking a move with its undo record restores the whole position |
| Board.StartBoardComplete | crates/chess_core/src/board.rs:93-154 | placing the pawns and back ranks square by square builds the standard start position |
| Board.Position.StartPos | crates/chess_core/src/board.rs:93-154 | the start position is consistent and is the standard start state |
| Board.Position.FromParts | crates/chess_core/src/board.rs:156-258 | a position built from a mailbox and header fields is consistent and holds exactly those fields |
| Board.Position.Clone | crates/chess_core/src/board.rs:92 | the clone holds the same state |
| Board.Position.KingSq | crates/chess_core/src/board.rs:260-263 | no square exactly when the colour has no king, otherwise a square that holds its king, the least one |
| Board.Position.SetPiece | crates/chess_core/src/board.rs:271-283 | the mailbox changes at that square only and the bitboards stay in agreement |
| Board.Position.IsSquareAttacked | crates/chess_core/src/board.rs:295-332 | the result is true exactly when some piece of the attacking colour attacks the target |
| Board.Position.InCheck | crates/chess_core/src/board.rs:285-293 | the result is true exactly when the colour's king square is attacked by the other colour |
| Board.Position.MakeMove | crates/chess_core/src/board.rs:433-598 | the new state is the made state and the undo record holds what unmaking needs |
| Board.Position.UnmakeMove | crates/chess_core/src/board.rs:600-654 | the new state is the unmade state |
| MakeRules.SideAndFullmove | crates/chess_core/src/board.rs:582-586 | the side to move alternates and the fullmove number grows after Black's move only |
| MakeRules.HalfmoveRule | crates/chess_core/src/board.rs:445-504 | the halfmove clock restarts after a pawn move, a capture or an en-passant capture, except for a castling king move, and otherwise grows by one |
| MakeRules.QuietMoveCounts | crates/chess_core/src/board.rs:576-580 | a quiet non-pawn move without capture increments the halfmove clock |
| MakeRules.RightsOnlyShrink | crates/chess_core/src/board.rs:507-560 | a move never grants a castling right |
| MakeRules.KingMoveDropsRights | crates/chess_core/src/board.rs:508-527 | a king move gives up both rights of its colour |
| MakeRules.RookLeavingDropsRight | crates/chess_core/src/board.rs:514-535 | a rook leaving its corner gives up the right on that side |
| MakeRules.RookCapturedDropsRight | crates/chess_core/src/board.rs:538-560 | a rook captured on its corner takes that right with it |
| MakeRules.RightsKeptOtherwise | crates/chess_core/src/board.rs:507-560 | a move by neither king nor rook that lands on no corner keeps the rights |
| MakeRules.EnPassantOnlyOnDoublePush | crates/chess_core/src/board.rs:562-574 | the en-passant square is set exactly by a double pawn push from the home rank, and it is the square passed over |
| MakeRules.VictimBehind | crates/chess_core/src/board.rs:450-457 | the en-passant victim square lies one rank behind the target square |
| MakeRules.EnPassantRemovesVictim | crates/chess_core/src/board.rs:450-463 | an en-passant capture removes the pawn behind the target and records it as captured |
| MakeRules.CastlingMovesRook | crates/chess_core/src/board.rs:485-505 | castling moves the rook from its corner to the square the king crossed, and the undo record holds that rook move |
| MakeRules.MoverArrives | crates/chess_core/src/board.rs:465-483 | the moved piece lands on the to-square, as the promotion piece (a queen by default) when a pawn reaches its last rank |
| MakeRules.MakeFrame | crates/chess_core/src/board.rs:433-598 | every square but the from-, to-, victim and rook squares keeps its occupant |
| Board.Position.PositionHash | crates/chess_core/src/board.rs:656-703 | the hash is the FNV-style fold of board, side, castling and en-passant codes |
| Hashing.HashIgnoresClocks | crates/chess_core/src/board.rs:650-696 | the hash does not depend on the halfmove clock or the fullmove number |
| Hashing.WhitePawnInvisible | crates/chess_core/src/board.rs:686-692 | as written, a white pawn on a square has the code of the empty square |
| Hashing.BoardHashAlike | crates/chess_core/src/board.rs:686-693 | mailboxes that differ only where one has a white pawn and the other an empty square fold to the same hash |
| Hashing.WhitePawnsHashAlike | crates/chess_core/src/board.rs:656-696 | as written, positions that differ only by white pawns on otherwise empty squares have the same hash |
| Hashing.TagRoundTrip | crates/chess_core/src/board.rs:686-692 | with the kind index plus one as the kind's tag, the piece is read back from the tag |
| Hashing.CorrectedCodeInjective | crates/chess_core/src/board.rs:686-692 | with that corrected tag, different entries of one square have different codes |
| Hashing.HashDependsOnIdentity | crates/chess_core/src/board.rs:656-696 | positions that agree on board, side, castling and en-passant have the same hash |
| Board.Position.IsInsufficientMaterial | crates/chess_core/src/board.rs:705-778 | the counting loop decides the insufficient-material rule |
| Draws.BareKingsDraw | crates/chess_core/src/board.rs:754-757 | king against king is a draw |
| Draws.MajorPreventsDraw | crates/chess_core/src/board.rs:749-752 | any pawn, rook or queen rules out the draw |
| Draws.SingleMinorDraw | crates/chess_core/src/board.rs:759-762 | a lone knight or bishop against bare king is a draw |
| Draws.SameShadeBishopsDraw | crates/chess_core/src/board.rs:764-772 | one bishop each on the same shade is a draw |
| Draws.TwoKnightsNotDraw | crates/chess_core/src/board.rs:759-775 | two knights of one side are not insufficient material |
| Draws.OppositeBishopsNotDraw | crates/chess_core/src/board.rs:764-772 | one bishop each on opposite shades is not insufficient material |
| Draws.SameShadeByFlags | crates/chess_core/src/board.rs:725-738 | with one bishop each, the light-square flags agree exactly when the bishops share a shade |
| Board.Position.IsFiftyMoveDraw | crates/chess_core/src/board.rs:780-782 | the draw holds exactly when the halfmove clock is at least 100 |
| MoveGen.MoveBuffer.Push | crates/chess_core/src/movegen.rs:21-33 | the move is appended to the buffer |
| MoveGen.MoveBuffer.Clear | crates/chess_core/src/movegen.rs:21-33 | the buffer is emptied |
| MoveGen.PushTargets | crates/chess_core/src/movegen.rs:187-273 | the pop-lsb loop appends one quiet move per target square, in increasing order |
| MoveGen.AddPromotions | crates/chess_core/src/movegen.rs:172-183 | the four promotions are appended, queen first |
| MoveGen.GenPawnMoves | crates/chess_core/src/movegen.rs:59-67 | the pawns of the side to move are read from the bitboards and exactly the pawn moves of the specification are appended |
| MoveGen.PushPawnMoves | crates/chess_core/src/movegen.rs:59-169 | the pawn generator appends exactly the pawn-move sequence of the specification, segment by segment |
| MoveGen.PushEpMoves | crates/chess_core/src/movegen.rs:152-168 | the en-passant captures from the left and the right are appended |
| MoveGen.GenPieceMoves | crates/chess_core/src/movegen.rs:187-273 | the knight, bishop, rook, queen and king generators append the moves of each piece to its non-own targets |
| MoveGen.GenCastlingMoves | crates/chess_core/src/movegen.rs:275-337 | the castling moves appended are exactly the allowed ones |
| MoveGen.PseudoMovesInto | crates/chess_core/src/movegen.rs:36-52 | pawn, piece and castling moves are appended in the source's order |
| MoveGen.TestMove | crates/chess_core/src/movegen.rs:25-31 | making, testing and unmaking a move leaves the position as it was and reports whether the mover's king is safe |
| MoveGen.RetainSafe | crates/chess_core/src/movegen.rs:25-31 | the buffer keeps exactly the moves that leave the king safe, in order |
| MoveGen.LegalMovesInto | crates/chess_core/src/movegen.rs:21-33 | the buffer ends up holding the legal moves, and the position is restored |
| MoveGen.LegalMovesOf | crates/chess_core/src/movegen.rs:13-18 | the result is the legal moves and the caller's position is untouched |
| Generation.LegalMovesExactly | crates/chess_core/src/movegen.rs:21-33 | a move is legal exactly when it is pseudo-legal and the mover is not in check after it |
| Generation.KeepLegalMembers | crates/chess_core/src/movegen.rs:25-31 | the kept moves are exactly those of the list that keep the king safe |
| Generation.PseudoMovesSound | crates/chess_core/src/movegen.rs:36-52 | every pseudo-legal move starts on an own piece and ends on a square not held by an own piece |
| Generation.PieceMovesExactly | crates/chess_core/src/movegen.rs:187-273 | a piece move is generated exactly from an own piece of that kind to one of its attacked, non-own squares |
| Generation.PawnPromotionsOnly | crates/chess_core/src/movegen.rs:59-150 | a pawn move carries a promotion exactly when it ends on the last rank |
| Generation.CastlingMembers | crates/chess_core/src/movegen.rs:275-337 | a castling move is generated exactly when the side is not in check and the castling case holds |
| Generation.CastlingConditions | crates/chess_core/src/movegen.rs:275-337 | a generated castling move has the right, a clear path and unattacked transit squares |
| Generation.CastlingOffered | crates/chess_core/src/movegen.rs:275-337 | castling with the right, a clear path and a safe transit is generated |
| Generation.WellFormedRestorable | crates/chess_core/src/board.rs:433-654 | in a well-formed position every generated move can be made and taken back |
| Generation.StartWellFormed | crates/chess_core/src/board.rs:93-154 | the start position is well formed |
| Perft.PerftZero | crates/chess_core/src/perft.rs:6-8 | depth zero counts one node |
| Perft.PerftOne | crates/chess_core/src/perft.rs:10-29 | depth one counts the legal moves |
| Perft.Inner | crates/chess_core/src/perft.rs:10-29 | the recursion returns the leaf count of the tree and restores the position |
| Perft.PlayAndCount | crates/chess_core/src/perft.rs:19-26 | make, count below, unmake: the leaf count below the move, with the position restored |
| Perft.CountChildren | crates/chess_core/src/perft.rs:18-28 | the loop adds up the leaf counts below every move of the buffer |
| Perft.PerftNodes | crates/chess_core/src/perft.rs:5-33 | the node count is the leaf count of the legal-move tree of that depth, and the position is restored |
| Perft.Children | crates/chess_core/src/perft.rs:18-26 | a playable position can run the legal filter, and each of its legal moves can be taken back and leads to a playable position |
| StartMoves.StartPawnMoves | crates/chess_core/src/movegen.rs:59-169 | in the initial position White has 16 pawn moves, each a quiet move from the second rank onto the third or fourth |
| StartMoves.StartKnightMoves | crates/chess_core/src/movegen.rs:187-197 | in the initial position White has 4 knight moves, b1 and g1 onto the third rank |
| StartMoves.StartHomeMoves | crates/chess_core/src/movegen.rs:201-271 | in the initial position the bishops, rooks, queen and king have no moves |
| StartMoves.StartNoCastling | crates/chess_core/src/movegen.rs:275-337 | in the initial position no castling move is generated, as the squares between king and rooks are occupied |
| StartMoves.StartPseudoMoves | crates/chess_core/src/movegen.rs:36-52 | in the initial position 20 pseudo-legal moves are generated, each a quiet move onto the third or fourth rank |
| StartMoves.ShapedMoveSafe | crates/chess_core/src/movegen.rs:21-33 | each of those moves can be made and does not leave the white king attacked |
| StartMoves.StartTwentyMoves | crates/chess_core/src/movegen_tests.rs:3-9 | the initial position has exactly 20 legal moves: the legal filter keeps every pseudo-legal move |
| StartMoves.StartPerftOne | crates/chess_core/src/movegen_tests.rs:3-9 | perft to depth one from the initial position counts 20 |
| Play.PawnMovesShape | crates/chess_core/src/movegen.rs:59-169 | every generated pawn move is a single push or a double push onto empty squares, a capture of an enemy piece on an attacked square, or an en-passant capture onto the en-passant square |
| Play.PseudoMovesGenerated | crates/chess_core/src/movegen.rs:36-337 | every pseudo-legal move has its castle, en-passant and promotion flags fixed by its piece and its two squares, and lands on an empty square or one the mover attacks |
| Play.SameSquaresSameFlags | crates/chess_core/src/movegen.rs:36-337 | two generated moves with the same from- and to-squares agree on both flags and on whether they promote |
| Play.NoKingCapture | crates/chess_core/src/board.rs:285-293 | in a playable position no generated move captures the opponent's king |
| Play.LegalGenerated | crates/chess_core/src/movegen.rs:21-33 | every legal move of a playable position is generated, can be made and taken back, and leaves the mover's king unattacked |
| Play.KingOrigin | crates/chess_core/src/board.rs:465-505 | after a move, every king stands where it stood before or is the moved king on its to-square |
| Play.KingsStayUnique | crates/chess_core/src/board.rs:433-598 | making a generated move keeps one king per colour |
| Play.RightStillHome | crates/chess_core/src/board.rs:507-560 | a castling right held after a move still has its king and its rook on their home squares |
| Play.EpStaysWellFormed | crates/chess_core/src/board.rs:562-574 | a new en-passant square is the empty square the double push passed over, on the rank the next side captures onto |
| Play.LegalKeepsPlayable | crates/chess_core/src/board.rs:433-598 | every legal move of a playable position leads to a playable position |
| Play.StartKingsUnique | crates/chess_core/src/board.rs:93-154 | the start position has one king of each colour |
| Play.StartNotInCheck | crates/chess_core/src/board.rs:285-293 | in the start position the black king is not attacked |
| Play.StartPlayable | crates/chess_core/src/board.rs:93-154 | the start position is playable |
| Play.OverwriteKeepsPlayable | crates/chess_core/src/uci.rs:42-44 | writing any promotion piece into a legal move still gives a move that leads to a playable position |
| Uci.ParsePromo | crates/chess_core/src/uci.rs:27-37 | the suffix letter is read in either case, and only q, r, b and n name a promotion |
| Uci.PromoCharParses | crates/chess_core/src/uci.rs:7-16 | the letter written for each promotion piece reads back as that piece |
| Uci.MoveToUci | crates/chess_core/src/uci.rs:3-18 | the text is the two coordinates followed by the promotion letter, four or five characters |
| Uci.FirstMatch | crates/chess_core/src/uci.rs:40-41 | the index found is the first move between the two squares, or the end when there is none |
| Uci.MatchAmong | crates/chess_core/src/uci.rs:39-52 | a move is found exactly when some candidate joins the two squares, and it joins them |
| Uci.ParseUci | crates/chess_core/src/uci.rs:20-26 | text shorter than four characters gives nothing, and a result is between the two squares the text names |
| Uci.ParseAmongSome | crates/chess_core/src/uci.rs:25-52 | a parse succeeds exactly when both coordinates name squares and some candidate joins them |
| Uci.ParseAmongFirst | crates/chess_core/src/uci.rs:39-52 | a result is the first candidate between the squares in generation order, with the suffix's promotion written into it |
| Uci.ParseAmongRoundTrip | crates/chess_core/src/uci.rs:3-52 | among candidates whose squares fix their flags, every candidate reads back from its own text |
| Uci.LegalMovesNameable | crates/chess_core/src/uci.rs:21 | in a playable position, legal moves between the same squares agree on their flags, so the squares name the move |
| Uci.UciRoundTrip | crates/chess_core/src/uci.rs:3-52 | every legal move of a playable position reads back from its own UCI text, flags included |
| Uci.ParsedKeepsPlayable | crates/chess_core/src/uci.rs:74-76 | a parsed move can be made and leads to a playable position |
| Uci.Step | crates/chess_core/src/uci.rs:74-77 | a token that does not parse leaves the position unchanged |
| Uci.StepPlayable | crates/chess_core/src/uci.rs:74-77 | playing a token keeps the position playable |
| Uci.ReplayPlayable | crates/chess_core/src/uci.rs:73-78 | playing a list of tokens keeps the position playable |
| Uci.PlayFromStartPlayable | crates/chess_core/src/uci.rs:55-80 | every position set up from UCI tokens is playable |
| Uci.ReplaySnoc | crates/chess_core/src/uci.rs:73-78 | playing one more token plays it on the position the earlier tokens reached |
| Uci.MoveTokens | crates/chess_core/src/uci.rs:58-72 | the tokens played are those after a "moves" that comes first or comes after "startpos" |
| Uci.ParseUciMove | crates/chess_core/src/uci.rs:20-53 | the method returns what the specification of `parse_uci_move` gives |
| Uci.FindMove | crates/chess_core/src/uci.rs:39-52 | the loop returns the first legal move between the squares, promotion overwritten; the mismatch test at lines 45-48 never fires |
| Uci.ResetToStart | crates/chess_core/src/uci.rs:58-69 | the position becomes the initial position |
| Uci.PlayToken | crates/chess_core/src/uci.rs:74-77 | one pass of the loop plays the token's move when it parses |
| Uci.SetPositionFromUci | crates/chess_core/src/uci.rs:55-80 | the position is the initial position with the move tokens played in order, skipping those that do not parse |
| Fen.Fields | crates/chess_core/src/board.rs:158 | every field of `split_whitespace` is non-empty and holds no whitespace |
| Fen.FieldsUnwords | crates/chess_core/src/board.rs:158 | words joined by spaces split back into the same words |
| Fen.SplitOn | crates/chess_core/src/board.rs:169 | `split('/')` gives at least one piece, and no piece holds the separator |
| Fen.JoinSplit | crates/chess_core/src/board.rs:169 | joining the pieces with the separator gives back the text |
| Fen.SplitJoin | crates/chess_core/src/board.rs:169 | pieces without the separator, joined by it, split back into the same pieces |
| Fen.ParseU32 | crates/chess_core/src/board.rs:232-237 | a clock that parses fits in 32 bits and starts with a digit or `+`; an empty text or a lone `+` is rejected |
| Fen.ParseU32Decimal | crates/chess_core/src/board.rs:232-237 | every 32-bit number parses back from its decimal numeral |
| Fen.PieceLetter | crates/chess_core/src/board.rs:179-192 | the letter of each piece reads back as that piece |
| Fen.RankRejectsBadChar | crates/chess_core/src/board.rs:184-191 | a rank holding a character that is neither a digit nor one of the twelve piece letters is rejected |
| Fen.RankFitsIff | crates/chess_core/src/board.rs:172-199 | a rank of digits and letters is accepted exactly when it covers the remaining files; too few is the not-enough-files error |
| Fen.RankOkIff | crates/chess_core/src/board.rs:172-199 | a rank is accepted exactly when it is made of digits and piece letters covering 8 files |
| Fen.RankFrame | crates/chess_core/src/board.rs:193-194 | reading a rank changes no square of any other rank |
| Fen.RanksOkIff | crates/chess_core/src/board.rs:172-200 | the ranks from a given index on are read exactly when each of them is accepted |
| Fen.PlacementOkIff | crates/chess_core/src/board.rs:168-200 | the placement is accepted exactly when it has eight `/`-separated ranks and each is accepted |
| Fen.ParseRank | crates/chess_core/src/board.rs:173-199 | the character loop with its file counter returns what the rank specification gives, error included |
| Fen.ParseSide | crates/chess_core/src/board.rs:202-206 | the side field is accepted exactly when it is `w` or `b`, and `w` is White |
| Fen.CastlingFromIff | crates/chess_core/src/board.rs:214-223 | castling letters are accepted exactly when all are among `KQkq`, and each right is held exactly when its letter occurs or it was held |
| Fen.CastlingOkIff | crates/chess_core/src/board.rs:208-224 | the castling field is accepted exactly when it is `-` or letters among `KQkq`; `-` grants nothing, otherwise a right is held exactly when its letter occurs |
| Fen.ParseCastlingField | crates/chess_core/src/board.rs:208-224 | the castling loop returns what the castling specification gives, error included |
| Fen.ParseEnPassant | crates/chess_core/src/board.rs:226-230 | a square is read exactly when the field is not `-` and names a square, and it is the square named; any other text gives none |
| Fen.FenOkIff | crates/chess_core/src/board.rs:156-237 | a FEN is accepted exactly when it has at least four fields, an accepted placement, side `w` or `b`, a `-` or `KQkq` castling field and clocks that parse as 32-bit numbers |
| Fen.FenFieldsRead | crates/chess_core/src/board.rs:161-237 | each field of an accepted FEN goes to its part of the position, and absent clocks read as 0 and 1 |
| Fen.FromFieldsRead | crates/chess_core/src/board.rs:161-237 | the board, side, castling rights, en-passant square and clocks are those the fields give |
| Fen.DefaultClocks | crates/chess_core/src/board.rs:165-166 | the default clock texts read as 0 and 1 |
| Fen.FromFen | crates/chess_core/src/board.rs:156-256 | the method returns the parsed position exactly when the FEN is accepted, with bitboards that agree with the mailbox, and otherwise the specification's error |
| Fen.PlacementRoundTrip | crates/chess_core/src/board.rs:168-200 | every board reads back from its written placement |
| Fen.CastlingRoundTrip | crates/chess_core/src/board.rs:208-224 | every set of castling rights reads back from its written field |
| Fen.FenRoundTrip | crates/chess_core/src/board.rs:156-256 | every position with its en-passant square on the board and 32-bit clocks reads back from its FEN |
| Fen.ClocksDefault | crates/chess_core/src/board.rs:165-166 | a FEN without its clocks reads back with halfmove clock 0 and fullmove number 1 |
| Zobrist.XorshiftInverse | crates/chess_core/src/zobrist.rs:40-45 | one xorshift64 step (shift left 13, right 7, left 17, each xored in) is undone by its inverse, so distinct states step to distinct states |
| Zobrist.IterateCancel | crates/chess_core/src/zobrist.rs:40-47 | two equal generator states i and j steps from the seed mean the seed recurs after j - i steps |
| Zobrist.SeedAvoided | crates/chess_core/src/zobrist.rs:40-47 | from seed 0x123456789ABCDEF0 the generator does not return to the seed within 780 steps |
| Zobrist.KeysDistinct | crates/chess_core/src/zobrist.rs:47-86 | the 781 keys, the states after 1 to 781 steps, are pairwise distinct |
| Zobrist.PieceTable | crates/chess_core/src/zobrist.rs:50-64 | the piece table is filled in the nesting order colour, kind, square, entry number k holding the state after k + 1 steps, and the generator ends 768 steps after the seed |
| Zobrist.FillSquares | crates/chess_core/src/zobrist.rs:55-60 | the inner loop stores the next 64 states for one colour and kind and keeps the entries already filled |
| Zobrist.CastlingTable | crates/chess_core/src/zobrist.rs:70-77 | castling right i gets key number 769 + i |
| Zobrist.EpTable | crates/chess_core/src/zobrist.rs:79-86 | en-passant file f gets key number 773 + f |
| Zobrist.Tables | crates/chess_core/src/zobrist.rs:47-93 | the pieces, then the side to move (key 768), then the castling and en-passant tables, one generator step per key |
| Zobrist.ZobristKeys.constructor | crates/chess_core/src/zobrist.rs:38-94 | a fresh key set whose tables hold all 781 keys in drawing order |
| Zobrist.ZobristKeys.PieceKey | crates/chess_core/src/zobrist.rs:98-100 | the key of a piece on a square is key number 384 * colour index + 64 * kind index + square |
| Zobrist.ZobristKeys.CastlingKey | crates/chess_core/src/zobrist.rs:104-106 | the key of castling right i is key number 769 + i |
| Zobrist.ZobristKeys.EpKey | crates/chess_core/src/zobrist.rs:110-112 | the key of en-passant file f is key number 773 + f |
| Zobrist.ZobristKeys.KeyOf | crates/chess_core/src/zobrist.rs:88-112 | the stored key of every piece-square, side, castling and en-passant feature is the key at its drawing position |
| Zobrist.IndexInjective | crates/chess_core/src/zobrist.rs:17-27 | different features have different drawing positions |
| Zobrist.KeysUnique | crates/chess_core/src/zobrist_tests.rs:4-36 | no two features share a stored key: all 781 table entries are pairwise distinct |
| Zobrist.PawnKeysDiffer | crates/chess_core/src/zobrist_tests.rs:38-47 | a White pawn has different keys on squares 0 and 1 |
| Eval.PieceValue | crates/classical_engine/src/eval.rs:31-40 | the value of a kind agrees with the `PIECE_VALUES` table, lies between 0 and 900, and is 0 only for the king |
| Eval.EvaluateMailbox | crates/chess_core/src/eval.rs:3-25 | the square-by-square sum is the position's material balance seen from the side to move |
| Eval.EvaluateBitboards | crates/engines/classical/src/eval.rs:17-34 | the popcount sum per kind equals the mailbox evaluation of the same position |
| Eval.KindsStep | crates/engines/classical/src/eval.rs:21-26 | one more square adds exactly its own signed value to the per-kind balance |
| Eval.MaterialByKinds | crates/engines/classical/src/eval.rs:21-26 | summing square by square and summing kind by kind give the same balance |
| Eval.KindsEmpty | crates/engines/classical/src/eval.rs:21-26 | no squares give a zero per-kind balance |
| Eval.PopcountByKinds | crates/engines/classical/src/eval.rs:21-26 | with the bitboards in step with the mailbox, the popcount balance of the first kinds equals their mailbox count balance |
| Eval.PopcountAgrees | crates/engines/classical/src/eval.rs:17-34 | bitboard material equals mailbox material whenever the bitboards match the mailbox |
| Eval.MaterialBelowBound | crates/chess_core/src/eval.rs:6-18 | each square moves the balance by at most 900 either way |
| Eval.EvaluateBound | crates/chess_core/src/eval.rs:3-25 | the evaluation stays within 57600 centipawns either way |
| Eval.EvaluateIgnoresRest | crates/chess_core/src/eval.rs:3-25 | only the mailbox and the side to move affect the evaluation |
| Eval.EvaluateOtherSide | crates/chess_core/src/eval.rs:20-24 | passing the move to the other side negates the evaluation |
| History.KeyStack.constructor | crates/chess_core/src/search.rs:48 | an empty history of position keys |
| History.KeyStack.Push | crates/chess_core/src/search.rs:49-53 | the key is appended at the end; nothing else changes |
| History.KeyStack.Pop | crates/chess_core/src/search.rs:61 | the newest key is removed and the rest are kept in order; an empty history stays empty |
| History.KeyStack.Last | crates/chess_core/src/search.rs:84 | the newest key, or none for an empty history |
| History.KeyStack.Count | crates/chess_core/src/search.rs:85 | the number of keys in the history equal to the given key |
| History.PushPop | crates/chess_core/src/search.rs:106-108 | a push followed by a pop gives back the history before the push |
| SearchSpec.ChessBounded | crates/chess_core/src/search.rs:93-100 | with an evaluation strictly inside the mate score, every verdict and leaf of a chess game lies within the mate score |
| SearchSpec.TerminalBound | crates/classical_engine/src/search.rs:142-165 | a verdict before the move loop is 0 or -100000, and a node without a verdict has legal moves |
| SearchSpec.CoreBounded | crates/chess_core/src/search.rs:99-100 | with mailbox material at the leaves every score stays within the mate score |
| SearchSpec.ChessPlays | crates/chess_core/src/search.rs:105-106 | a child is the position `make_move` reaches, keyed by the position hash |
| SearchSpec.PlayedChildScore | crates/chess_core/src/search.rs:105-107 | a child's score is the negated search of the child one ply down, with the window negated and swapped and its key pushed |
| SearchSpec.CutoffStep | crates/chess_core/src/search.rs:111-119 | each move raises best and then alpha to the score, and the loop ends once alpha reaches beta |
| SearchSpec.SearchedNode | crates/chess_core/src/search.rs:103-121 | a node without a verdict above depth zero returns the loop over its moves one ply shallower, starting from `i32::MIN + 1` |
| SearchSpec.ChessOpen | crates/chess_core/src/search.rs:79-98 | a position with legal moves and no draw by rule has no verdict and searches its legal moves |
| SearchSpec.ChessMovesKey | crates/chess_core/src/search.rs:90-91 | the moves searched are the legal moves, and positions are keyed by their hash |
| SearchSpec.ChessTerminalNodes | crates/classical_engine/src/search.rs:142-169 | a draw by rule, a position without legal moves, or depth zero makes no move |
| SearchSpec.SearchedNodeCount | crates/classical_engine/src/search.rs:171-199 | a searched node counts the moves of its loop |
| SearchSpec.PlayedChildNodes | crates/classical_engine/src/search.rs:174-178 | the moves counted below a child are those of its own search |
| SearchSpec.CutoffNodesStep | crates/classical_engine/src/search.rs:173-196 | each move tried counts one node plus its child's, and the rest of the loop only without a cutoff |
| SearchSpec.CutoffDone | crates/chess_core/src/search.rs:104-121 | past the last move the loop returns its best and counts nothing more |
| SearchSpec.RuleDrawScoresZero | crates/chess_core/src/search.rs:79-88 | a fifty-move or threefold draw scores 0 at every depth and window, pruned or not |
| SearchSpec.RepetitionScoresZero | crates/chess_core/src/search.rs:84-88 | when the newest key occurs three times in the history the score is 0 |
| SearchSpec.NoMovesScore | crates/chess_core/src/search.rs:93-98 | without legal moves the score is -100000 in check and 0 otherwise |
| SearchSpec.LeafEvaluates | crates/chess_core/src/search.rs:99-101 | at depth zero a position with moves and no draw scores its static evaluation |
| SearchSpec.MaxChildAtLeast | crates/chess_core/src/search.rs:103-121 | the unpruned loop never returns less than its starting best |
| SearchSpec.AlphaBetaFailSoft | crates/chess_core/src/search.rs:72-122 | the pruned score is fail-soft for the unpruned negamax value: exact inside the window, a bound on the correct side outside it |
| SearchSpec.ChildFailSoft | crates/chess_core/src/search.rs:107 | searching a child with the negated, swapped window gives the fail-soft guarantee for the negated child value |
| SearchSpec.CutoffFailSoft | crates/chess_core/src/search.rs:104-121 | the pruned move loop is fail-soft for the unpruned maximum over the same moves |
| SearchSpec.MinimaxBound | crates/chess_core/src/search.rs:72-122 | the unpruned value lies within the mate score |
| SearchSpec.MaxChildBound | crates/chess_core/src/search.rs:103-121 | the unpruned loop's maximum lies within the mate score once a move is seen |
| SearchSpec.AlphaBetaBound | crates/chess_core/src/search.rs:72-122 | the pruned score lies within the mate score, so negating it never overflows an `i32` |
| SearchSpec.CutoffBound | crates/chess_core/src/search.rs:103-121 | the pruned loop's result lies within the mate score once a move is seen |
| SearchSpec.ChildScoreBound | crates/chess_core/src/search.rs:107 | a child's negated score lies within the mate score |
| SearchSpec.WideWindowExact | crates/chess_core/src/search.rs:54-60 | a window wider than the mate score on both sides gives the exact negamax value |
| SearchSpec.RootScanStep | crates/chess_core/src/search.rs:64-67 | a root move replaces the choice only with a strictly higher score |
| SearchSpec.RootScanDone | crates/chess_core/src/search.rs:69 | after the last root move the choice is kept |
| SearchSpec.RootChildScore | crates/chess_core/src/search.rs:49-60 | a root child searched with `(i32::MIN / 2, i32::MAX / 2)` and the root's key as history scores its root score |
| SearchSpec.RootPrefixStep | crates/chess_core/src/search.rs:51-68 | root move k extends the choice over the first k moves as the loop does |
| SearchSpec.RootPrefixScan | crates/chess_core/src/search.rs:51-68 | continuing the loop from the choice after k moves finishes the whole loop |
| SearchSpec.RootPrefixComplete | crates/chess_core/src/search.rs:51-68 | the choice after every root move is the result of the root loop |
| SearchSpec.PickBestOfScan | crates/chess_core/src/search.rs:37-70 | no moves give none; otherwise the move and score chosen by the root loop |
| SearchSpec.CorePickBestOfScan | crates/chess_core/src/search.rs:37-70 | the same on the legal moves of the position, keyed by its hash |
| SearchSpec.ChessPickBestOfPrefix | crates/classical_engine/src/search.rs:59-123 | the same read off the choice after all the root moves |
| SearchSpec.RootScoreExact | crates/chess_core/src/search.rs:54-60 | every root score is the exact negamax value of its move, within the mate score |
| SearchSpec.RootScanFirstBest | crates/chess_core/src/search.rs:45-68 | the root loop ends on the first move of highest value, with that value |
| SearchSpec.RootPrefixFirstBest | crates/classical_engine/src/search.rs:83-123 | after k root moves the choice is the first best of those k, as a stopped root reports it |
| SearchSpec.PickBestSpec | crates/chess_core/src/search.rs:37-70 | none exactly when there is no move; otherwise a move of the list whose score is its exact value, no move scoring more and no earlier move scoring as much |
| SearchSpec.CorePickBest | crates/chess_core/src/search.rs:37-70 | on a position, none exactly without legal moves; otherwise the move picked is legal |
| SearchSpec.NodesCountMoves | crates/classical_engine/src/search.rs:171-199 | a searched node counts at least one move exactly when it has moves |
| SearchSpec.RootNodesAtLeast | crates/classical_engine/src/search.rs:83-92 | the root counts at least one node per root move searched |
| CoreSearch.ReadyChildren | crates/chess_core/src/search.rs:104-109 | every legal move of a playable position can be made, unmade and its child searched |
| CoreSearch.Negamax | crates/chess_core/src/search.rs:72-122 | the value is the alpha-beta value of the position, and the position and history are restored |
| CoreSearch.NodeValue | crates/chess_core/src/search.rs:90-121 | once no draw rule applies, the value is the alpha-beta value |
| CoreSearch.NoMovesValue | crates/chess_core/src/search.rs:93-98 | without legal moves the value is the mate or stalemate verdict |
| CoreSearch.LeafValue | crates/chess_core/src/search.rs:99-101 | at depth zero the value is the evaluation |
| CoreSearch.SearchedValue | crates/chess_core/src/search.rs:103-121 | above depth zero the value is the move loop's |
| CoreSearch.DrawnByRule | crates/chess_core/src/search.rs:79-88 | true exactly for the fifty-move rule or the newest key three times in the history |
| CoreSearch.SearchMoves | crates/chess_core/src/search.rs:103-121 | the loop's best is the specification's pruned loop over the buffer; position and history restored |
| CoreSearch.PlayChild | crates/chess_core/src/search.rs:105-109 | the child's negated score, with position and history restored |
| CoreSearch.PickBestMove | crates/chess_core/src/search.rs:37-70 | the result is the first best move and its score, or none without legal moves |
| CoreSearch.PickFromMoves | crates/chess_core/src/search.rs:41-69 | the same once the legal moves are generated |
| CoreSearch.PickAmong | crates/chess_core/src/search.rs:45-69 | with moves, the best move is the entry the root loop chooses, with its score |
| CoreSearch.ScanRoot | crates/chess_core/src/search.rs:51-68 | the loop's best move and score are the root scan's choice; position and history restored |
| CoreSearch.RootStep | crates/chess_core/src/search.rs:52-67 | one root move updates the best only on a strictly higher score |
| CoreSearch.RootChild | crates/chess_core/src/search.rs:52-62 | a root child's negated score in the root window, with position and history restored |
| Engines.CheckSpacing | crates/chess_core/src/time_control.rs:142-146 | the clock is read at a multiple of 1024 nodes, again 1024 nodes later, and never in between |
| Engines.TimeOracle.constructor | crates/chess_core/src/time_control.rs:93-101 | a clock with or without a limit, not started and not stopped |
| Engines.TimeOracle.Start | crates/chess_core/src/time_control.rs:103-106 | the clock is started and the stop flag lowered |
| Engines.TimeOracle.CheckTime | crates/chess_core/src/time_control.rs:125-138 | true whenever already stopped; otherwise it can fire only with a limit after `start`, and firing raises the stop flag |
| TimedSearch.Evaluate | crates/engines/neural/src/lib.rs:129-139 | the leaf score is the network's when one is loaded and material from the side to move otherwise |
| TimedSearch.Negamax | crates/classical_engine/src/search.rs:128-200 | position and history restored even when stopped; the node count only grows; unstopped, the value is the alpha-beta value with insufficient material as a draw and the count grows by exactly the moves made |
| TimedSearch.Unclocked | crates/classical_engine/src/search.rs:142-199 | the same, once the clock has not stopped the node |
| TimedSearch.DrawnByAnyRule | crates/classical_engine/src/search.rs:142-155 | true exactly for the fifty-move rule, the newest key three times in the history, or insufficient material |
| TimedSearch.NodeValue | crates/classical_engine/src/search.rs:157-199 | once no draw rule applies: the alpha-beta value and node count, unless stopped |
| TimedSearch.LeafValue | crates/classical_engine/src/search.rs:167-169 | at depth zero the value is the leaf evaluation |
| TimedSearch.SearchedValue | crates/classical_engine/src/search.rs:171-199 | above depth zero the value and count of the move loop, unless stopped |
| TimedSearch.TimedOpen | crates/classical_engine/src/search.rs:153-171 | a position with legal moves, no draw and depth left is the move loop over its legal moves, in value and in count |
| TimedSearch.SearchMoves | crates/classical_engine/src/search.rs:171-199 | unstopped, the pruned loop's best and exactly one node per move made plus the children's |
| TimedSearch.CutoffSoFarDone | crates/classical_engine/src/search.rs:184-199 | the loop left at a stop, a cutoff or the end has, unless stopped, the specified best and count |
| TimedSearch.CutoffSoFarStep | crates/classical_engine/src/search.rs:188-196 | a move searched in full raises best and alpha and adds its node and its child's |
| TimedSearch.MoveStep | crates/classical_engine/src/search.rs:173-196 | one pass of the loop: a stop keeps best, otherwise the loop invariant moves on by one move or ends at a cutoff |
| TimedSearch.PlayChild | crates/classical_engine/src/search.rs:174-186 | the move is counted; unstopped, the child's negated score and its subtree's count; position and history restored |
| TimedSearch.Descend | crates/classical_engine/src/search.rs:174-182 | make, search and unmake: the child's key is its hash and its value the alpha-beta value one ply down |
| TimedSearch.SearchKeyed | crates/classical_engine/src/search.rs:175-181 | push the position's key, count its node, search, pop |
| TimedSearch.PickBestMove | crates/classical_engine/src/search.rs:59-123 | none with no stop and no node exactly without legal moves; otherwise the first best of the root moves searched in full (`moves[0]` and `i32::MIN + 1` when none was); unstopped, the pick of `PickBest` with one node per move made |
| TimedSearch.PickOnCopy | crates/classical_engine/src/search.rs:65-123 | the same on the engine's own copy of the position |
| TimedSearch.PickFromMoves | crates/classical_engine/src/search.rs:69-123 | the same once the legal moves are generated |
| TimedSearch.NoMovesOutcome | crates/classical_engine/src/search.rs:69-74 | without legal moves the root reports nothing, no stop and no node |
| TimedSearch.SearchedOutcome | crates/classical_engine/src/search.rs:108-122 | the root loop's choice is the reported outcome, and the pick of `PickBest` when every move was searched |
| TimedSearch.RootSearch | crates/classical_engine/src/search.rs:76-122 | with moves, the loop's best move is its prefix choice, and unstopped every move was searched |
| TimedSearch.ScanRoot | crates/classical_engine/src/search.rs:83-117 | the clock read before each root move or a stopped child ends the loop; the choice is the first strict best over the scores of the moves searched, and unstopped the count adds every move's nodes |
| TimedSearch.RootStep | crates/classical_engine/src/search.rs:84-116 | one root move: a stop keeps the choice, otherwise a strictly higher score replaces the best and the count grows by that move's nodes |
| TimedSearch.RootTallies | crates/classical_engine/src/search.rs:83-117 | the first strict best over the table of root scores is the root's prefix choice, and the sum of the table's counts its prefix node count |
| TimedSearch.RootTalliesSoFar | crates/classical_engine/src/search.rs:83-117 | what the root loop keeps over the table is the root's state after that many moves |
| TimedSearch.RootChild | crates/classical_engine/src/search.rs:90-106 | the root move is counted; unstopped, its score is its root score and the count its subtree's |
| TimedSearch.TimedBounded | crates/classical_engine/src/eval.rs:11-27 | material and any network score strictly inside the mate score keep every score of the timed game within it |
| TimedSearch.StoppedReport | crates/classical_engine/src/search.rs:76-122 | a stopped root still reports one of its moves: `moves[0]` with `i32::MIN + 1` if none was searched in full, otherwise the first move of highest exact value among those searched |
| TimedSearch.UnstoppedCountsRootMoves | crates/classical_engine/src/search.rs:92 | an unstopped search counts at least one node per root move |
| Neural.Lower | crates/engines/neural/src/lib.rs:336 | each character lower-cased, length kept |
| Neural.ModelOptionNames | crates/engines/neural/src/lib.rs:336-337 | "ModelVersion", "MODEL" and "model" name the model option; "Hash" and "models" do not |
| Neural.ModelOptionIgnoresCase | crates/engines/neural/src/lib.rs:336 | two names equal up to case are both the model option or both not |
| Neural.ReportedOfOutcome | crates/engines/neural/src/lib.rs:308-321 | a root outcome counted from zero gives a result with no move and score 0 exactly without legal moves, a legal move otherwise, `PickBest` and its node count unstopped, and the first best of the moves searched when stopped |
| Neural.NeuralEngine.constructor | crates/engines/neural/src/lib.rs:62-73 | no model, version "random-v0", name "Neural-random-v0", no nodes |
| Neural.NeuralEngine.WithModel | crates/engines/neural/src/lib.rs:85-117 | the path `models/<version>/model.onnx`, the version, name "Neural-" + version, no nodes, the loaded network |
| Neural.NeuralEngine.Source | crates/engines/neural/src/lib.rs:129-161 | the leaf evaluation is the network when one is loaded and popcount material otherwise |
| Neural.NeuralEngine.SearchInternal | crates/engines/neural/src/lib.rs:166-224 | the root outcome of the timed game with the engine's evaluation, counted on from the engine's node count |
| Neural.NeuralEngine.Search | crates/engines/neural/src/lib.rs:308-321 | the clock is started; the node count is reset, the depth echoed, and the result is as `Reported` states |
| Neural.NeuralEngine.NewGame | crates/engines/neural/src/lib.rs:331-333 | the node count is reset |
| Neural.NeuralEngine.SetOption | crates/engines/neural/src/lib.rs:335-349 | accepted exactly for a model option whose load succeeds, and then the engine is the loaded one; otherwise nothing changes |
| MlEngine.ScoreWithin | crates/ml_engine/src/lib.rs:184-192 | with evaluations within a bound below `-i32::MIN`, every move's score lies within it |
| MlEngine.ValueWithin | crates/ml_engine/src/lib.rs:150-203 | the score returned lies within the same bound |
| MlEngine.PrefixFirstMax | crates/ml_engine/src/lib.rs:177-200 | after k > 0 moves the choice is the first move of highest score among them |
| MlEngine.ValueSpec | crates/ml_engine/src/lib.rs:150-203 | none exactly without moves; otherwise the move is one of them, with its score, no move scoring more and no earlier move scoring as much |
| MlEngine.MovelessChildScoresZero | crates/ml_engine/src/lib.rs:184-190 | above depth 1 a child without moves, checkmate included, scores 0 |
| MlEngine.DepthZeroIsDepthOne | crates/ml_engine/src/lib.rs:159-174 | depth 0 gives the same answer as depth 1: each move scored by the negated evaluation of the child |
| MlEngine.PrefixDepthZeroOne | crates/ml_engine/src/lib.rs:159-200 | the two loops make the same choice after every number of moves |
| MlEngine.ChessValue | crates/ml_engine/src/lib.rs:150-157 | on a chess position the answer is none exactly without legal moves, and otherwise a legal move |
| MlEngine.ValueMoves | crates/ml_engine/src/lib.rs:150-203 | the answer is none exactly without moves, and otherwise one of the moves |
| MlEngine.PrefixIndex | crates/ml_engine/src/lib.rs:177-200 | after k > 0 moves the choice is one of the first k |
| MlEngine.ScanStep | crates/ml_engine/src/lib.rs:180-199 | the next move replaces the choice only with a strictly higher score, and adds its own node and its child's |
| MlEngine.ScanDone | crates/ml_engine/src/lib.rs:202 | the scan of all the moves is the answer, and its count the node count |
| MlEngine.SourceOf | crates/ml_engine/src/lib.rs:114-124 | the evaluation is the network when one is loaded and mailbox material otherwise |
| MlEngine.NeuralEngine.constructor | crates/ml_engine/src/lib.rs:59-67 | no model, version "random-v0", no nodes |
| MlEngine.NeuralEngine.WithModel | crates/ml_engine/src/lib.rs:79-106 | the path `models/<version>/model.onnx`, the version, no nodes, the loaded network |
| MlEngine.NeuralEngine.Name | crates/ml_engine/src/lib.rs:219-222 | "Neural-" followed by the version |
| MlEngine.NeuralEngine.SearchInternal | crates/ml_engine/src/lib.rs:150-203 | the answer of the non-pruning search, and the node count grows by one per move made |
| MlEngine.NeuralEngine.SearchCopy | crates/ml_engine/src/lib.rs:151-203 | the same on the engine's copy of the position |
| MlEngine.NeuralEngine.GenerateMoves | crates/ml_engine/src/lib.rs:151-153 | the buffer holds the legal moves, each ready to be made and unmade |
| MlEngine.NeuralEngine.ScanMoves | crates/ml_engine/src/lib.rs:177-200 | the loop's best move and score are the choice over all the moves, with their node count |
| MlEngine.NeuralEngine.ChildScore | crates/ml_engine/src/lib.rs:181-194 | make, score and unmake one move, counting its node and its child's |
| MlEngine.NeuralEngine.MoveScore | crates/ml_engine/src/lib.rs:181-194 | the same, once the move is known to be ready |
| MlEngine.NeuralEngine.ReplyOf | crates/ml_engine/src/lib.rs:184-192 | minus the evaluation, or above depth 1 minus the child's own search and 0 without one |
| MlEngine.NeuralEngine.DeepReplyOf | crates/ml_engine/src/lib.rs:184-189 | above depth 1, minus the child's own search one ply shallower, 0 when it has no move, with the child search's nodes |
| MlEngine.NeuralEngine.LeafReplyOf | crates/ml_engine/src/lib.rs:190-192 | at depth 1 or 0, minus the evaluation of the child, with no further nodes |
| MlEngine.Reported | crates/ml_engine/src/lib.rs:211-216 | the reported move and score are the search's answer, score 0 when there is no move; the depth echoed, the node count, never stopped |
| MlEngine.ReportedValue | crates/ml_engine/src/lib.rs:150-157 | the answer of a chess position is no move exactly without legal moves, otherwise a legal move |
| MlEngine.NeuralEngine.Search | crates/ml_engine/src/lib.rs:207-217 | the node count is reset; no move and score 0 exactly without legal moves, otherwise a legal move; the depth echoed and never stopped; the move and score are the search's answer |
| MlEngine.NeuralEngine.NewGame | crates/ml_engine/src/lib.rs:228-230 | the node count is reset |
| MlEngine.NeuralEngine.SetOption | crates/ml_engine/src/lib.rs:232-246 | accepted exactly for a model option whose load succeeds, and then the engine is the loaded one; otherwise nothing changes |
| Random.RandomEngine.constructor | crates/engines/random/src/lib.rs:27-29 | nothing counted |
| Random.RandomEngine.Search | crates/engines/random/src/lib.rs:33-51 | no move exactly without legal moves, otherwise a legal move; score 0, depth 1, one node, never stopped, the position unchanged |
| Random.RandomEngine.NewGame | crates/engines/random/src/lib.rs:61-63 | the node count is reset |
| Features.SourceSquare | crates/ml_engine/src/features.rs:61 | the square an entry looks at is on the board |
| Features.Encoded | crates/ml_engine/src/features.rs:30-75 | 768 entries, each 0.0 or 1.0 |
| Features.IndexDecodes | crates/ml_engine/src/features.rs:35-38 | the entry written for a piece on a square is below 768, and an entry is that one exactly when it decodes to that piece and square |
| Features.EntryOfPiece | crates/ml_engine/src/features.rs:33-41 | the entry of a piece on a square is 1.0 exactly when the piece stands there |
| Features.FillPlanes | crates/ml_engine/src/features.rs:55-74 | the loop over the squares builds the encoding seen from the given side |
| Features.ExtractFeatures | crates/ml_engine/src/features.rs:30-47 | the encoding with White's pieces in planes 0-5 whoever is to move |
| Features.ExtractFeaturesRelative | crates/ml_engine/src/features.rs:54-75 | the encoding seen from the side to move |
| Features.RelativeForWhite | crates/ml_engine/src/features.rs:56-61 | with White to move the relative encoding is the absolute one |
| Features.RelativeForBlack | crates/ml_engine/src/features.rs:56-70 | with Black to move a piece is found at its kind, offset 0 for Black and 6 for White, on the square 63 - sq |
| Features.Mirror | crates/ml_engine/src/features.rs:61-66 | every square holds the piece of the opposite square with its colour swapped |
| Features.MirrorInvariant | crates/ml_engine/src/features.rs:49-75 | swapping the board end for end, the colours and the side to move leaves the relative encoding unchanged |
| Features.NonZeroIsPieceCount | crates/ml_engine/src/features.rs:30-75 | the number of non-zero entries is the number of pieces on the board |
| Features.StartNonZero | crates/ml_engine/src/features.rs:107-116 | the initial position has 32 non-zero entries, seen from either side |
| Features.StartFriendlyPawns | crates/ml_engine/src/features.rs:119-130 | in the initial position the White pawns fill plane 0 on squares 8-15 |
| Features.Extras | crates/ml_engine/src/features.rs:88-97 | six appended entries |
| Features.ExtrasRange | crates/ml_engine/src/features.rs:88-97 | the castling and clock entries lie in [0, 1]; the en-passant entry is -1.0 exactly without a square and otherwise in [0, 1] |
| Features.ExtractFeaturesExtended | crates/ml_engine/src/features.rs:84-100 | 774 entries: the relative encoding, then the four castling rights, the en-passant square and the halfmove clock |
| Features.StartExtras | crates/ml_engine/src/features.rs:133-151 | in the initial position the extras are 1, 1, 1, 1, -1 and 0 |
| Dataset.PlanesAreKindIndices | training/dataset.py:61-68 | the dictionary's plane of every kind is the kind's index in the Rust encoder |
| Dataset.BoardToFeaturesRelative | training/dataset.py:71-90 | the features are the relative encoding of the Rust extractor, seen from the side to move |
| Dataset.FeaturesOnePerPiece | training/dataset.py:76-88 | every entry is 0.0 or 1.0, and exactly one entry per piece is non-zero |
| Dataset.StockfishEvalToValue | training/dataset.py:93-97 | a mate gives 1.0 when positive and -1.0 otherwise; centipawns give tanh of the score over 400 |
| Dataset.ValueRange | training/dataset.py:93-97 | every label lies in [-1, 1], has the sign of the centipawns, and is 0 at 0 |
| Dataset.ValueOdd | training/dataset.py:97 | opposite centipawns give opposite labels |
| Dataset.EvaluatePosition | training/dataset.py:100-111 | a mate is labelled through the mate branch with centipawns 0, a score through the centipawn branch |
| Dataset.GamesRead | training/dataset.py:147-151 | at most `max_games` games and at most the games in the file, all of them when the file ends first, none for a non-positive maximum |
| Dataset.CappedSize | training/dataset.py:166-167 | a game contributes the smaller of its candidate count and `positions_per_game`, drawn from its candidates |
| Dataset.CandidatesAtMost | training/dataset.py:157-164 | a game has at most one candidate per position |
| Dataset.CollectedAtMost | training/dataset.py:148-173 | the games read contribute at most `positions_per_game` examples each |
| Dataset.CandidateValues | training/dataset.py:160 | the label of every example lies in [-1, 1] |
| Dataset.CollectedValues | training/dataset.py:147-173 | the label of every example collected from the games read lies in [-1, 1] |
| Dataset.PgnReader.constructor | training/dataset.py:145 | the file is opened at its first game |
| Dataset.PgnReader.ReadGame | training/dataset.py:149-151 | the next game and the reader moves on, or none at the end of the file |
| Dataset.StockfishClient.constructor | training/dataset.py:140 | a running engine |
| Dataset.StockfishClient.Quit | training/dataset.py:178-179 | the engine is no longer running |
| Dataset.GamePositions | training/dataset.py:153-164 | the examples of every position after which the mover has a legal move, in order |
| Dataset.GameExamples | training/dataset.py:153-171 | the game's candidates, sampled down to `positions_per_game` when there are more |
| Dataset.FromPgn | training/dataset.py:128-188 | the engine is quit whatever happens; an error exactly when no example was collected, otherwise the examples of the games read, in order |
| Dataset.ReadGames | training/dataset.py:147-173 | the loop stops after `max_games` games or at the end of the file, and the examples are those of the games read, each game's in turn |
| Dataset.SplitSizesSum | training/dataset.py:212-214 | the training and validation sizes add up to the dataset size, and with a split in [0, 1] the validation size is the floor of the exact product of n and the split |
| Dataset.DefaultSplit | training/dataset.py:208-214 | the default split keeps 100 of 1000 positions for validation |
| OnnxExport.StateDictKeys | training/export_onnx.py:26-29 | the keys of `model_state_dict` when the checkpoint has one, otherwise the checkpoint's own keys |
| OnnxExport.DetectCases | training/export_onnx.py:33-39 | policy-value exactly with a `conv` and an `fc_pol` key, conv exactly with `conv` and no `fc_pol`, simple exactly without `conv` |
| OnnxExport.PolicyHeadAloneIsSimple | training/export_onnx.py:33-39 | a policy head without a convolution key is still detected as simple |
| OnnxExport.ConvAndPolicyHead | training/export_onnx.py:33-35 | `conv1.weight` with `fc_pol.weight` is a policy-value network |
| OnnxExport.ConvWithoutPolicyHead | training/export_onnx.py:33-37 | `conv1.weight` with `fc_val.bias` is a conv network |
| OnnxExport.PlanExport | training/export_onnx.py:23-64 | an error exactly when the state dictionary cannot be read; otherwise the detected architecture, whatever was passed in, with its input name and shape, its outputs, and axis 0 of each of them dynamic |
| GameRules.RulesMoves | crates/gui/src/game.rs:93-95 | on a playable position the rules list the kernel's legal moves |
| GameRules.RulesCheck | crates/gui/src/game.rs:190 | the rules' check test is the kernel's `in_check` of the side to move |
| GameRules.RulesPlay | crates/gui/src/game.rs:129 | a legal move is made as the kernel's `make_move` makes it, and the position reached is playable |
| Gui.FindWith | crates/gui/src/game.rs:112-118 | a move found is in the list and joins the squares with that promotion; none exactly when no such move is listed |
| Gui.SanCastle | crates/gui/src/game.rs:155-157 | castling is written O-O towards the h-file and O-O-O towards the a-file |
| Gui.SanPawnCapture | crates/gui/src/game.rs:159-168 | a pawn capture, en passant included, starts with the origin file and `x` |
| Gui.SanPromotion | crates/gui/src/game.rs:170-180 | a promotion to a queen, rook, bishop or knight ends in `=` and its letter |
| Gui.SanQuietPiece | crates/gui/src/game.rs:146-180 | a quiet piece move is the piece letter and the target square, three characters |
| Gui.ChosenPrefersPlain | crates/gui/src/game.rs:111-119 | the move chosen is legal and joins the squares; it is the move without promotion when one exists, else the queen promotion; none exactly when neither exists |
| Gui.ClickOwnPiece | crates/gui/src/game.rs:67-73 | a click on a piece of the side to move selects it with exactly the destinations of its legal moves, and changes neither position nor records |
| Gui.ClickElsewhere | crates/gui/src/game.rs:76-85 | any other click clears the selection and plays the chosen move exactly when a piece was selected and the square is one of its targets, adding one record |
| Gui.ResultDecided | crates/gui/src/game.rs:184-203 | from a game in progress the result is decided exactly without legal moves or at halfmove clock 100; a win exactly at checkmate, for the side that just moved |
| Gui.ResultSticky | crates/gui/src/game.rs:184-203 | a decided result stays decided |
| Gui.ClickPlaysLegal | crates/gui/src/game.rs:66-86 | a click either changes neither position nor records, or plays one legal move to the clicked square and adds its record |
| Gui.ClickKeepsTargetsSelected | crates/gui/src/game.rs:66-86 | destinations are only ever shown for a selected piece |
| Gui.GameState.constructor | crates/gui/src/game.rs:48-58 | the initial position, no records, no selection, no last move, in progress, engine idle |
| Gui.GameState.Reset | crates/gui/src/game.rs:61-63 | the state is that of a new game |
| Gui.GameState.SelectSquare | crates/gui/src/game.rs:66-86 | the new state is the click's, as `Clicked` describes |
| Gui.GameState.SelectPiece | crates/gui/src/game.rs:68-72 | the piece is selected with the destinations of its legal moves |
| Gui.GameState.ClickOther | crates/gui/src/game.rs:76-85 | the move is played when the square is a target, and the selection is cleared |
| Gui.GameState.UpdateLegalMoves | crates/gui/src/game.rs:89-103 | the destinations of the selected square's legal moves, none without a selection |
| Gui.GameState.MakeMoveFromTo | crates/gui/src/game.rs:106-124 | the chosen move applied, or nothing when there is none |
| Gui.GameState.ChooseMove | crates/gui/src/game.rs:107-119 | the plain move, else the queen promotion, among the legal moves |
| Gui.GameState.RuleMoves | crates/gui/src/game.rs:107-109 | the legal moves of the position, all on the board |
| Gui.GameState.CollectDestinations | crates/gui/src/game.rs:97-101 | the set of destinations of the moves from the square |
| Gui.GameState.FindMove | crates/gui/src/game.rs:112-118 | the first listed move joining the squares with that promotion |
| Gui.GameState.ApplyMove | crates/gui/src/game.rs:127-139 | the move made, its record appended, the last move set, the selection cleared, the result updated |
| Gui.GameState.Record | crates/gui/src/game.rs:131-135 | one record appended, the last move set, the selection cleared |
| Gui.GameState.PlayAndJudge | crates/gui/src/game.rs:129-138 | the move made and the result updated from the new position |
| Gui.GameState.PlayRule | crates/gui/src/game.rs:129 | the move made as the rules make it |
| Gui.GameState.PlayOnBoard | crates/gui/src/game.rs:129 | the kernel's `make_move` on the game's position |
| Gui.GameState.UpdateResult | crates/gui/src/game.rs:184-203 | the result as `update_result` decides it from the position |
| Gui.GameState.Judge | crates/gui/src/game.rs:184-203 | with no legal move the side to move loses when in check and the game is drawn otherwise, a halfmove clock of 100 draws, and otherwise the result is kept; the position is unchanged |
| Tournament.FlipInvolution | crates/tournament/src/match_runner.rs:75-80 | flipping twice gives the result back, and only a draw is its own flip |
| Tournament.SearchLimitsOf | crates/tournament/src/match_runner.rs:40-45 | the configured depth, and the time per move when there is one |
| Tournament.DefaultConfigValues | crates/tournament/src/match_runner.rs:25-36 | ten games of at most 200 moves at depth 4 without a clock, alternating colours, verbose |
| Tournament.OutOfMoves | crates/tournament/src/match_runner.rs:164-165 | a game with no moves left is a draw |
| Tournament.NoMoveEnds | crates/tournament/src/match_runner.rs:136-151 | no answer and no legal move: White loses when mated, Black loses when mated, stalemate draws |
| Tournament.SilentEngineWaits | crates/tournament/src/match_runner.rs:132-158 | no answer while legal moves exist keeps the position and uses up one move, unless the fifty-move rule draws |
| Tournament.FiftyMoveDraw | crates/tournament/src/match_runner.rs:155-158 | a move that brings the halfmove clock to 100 draws the game |
| Tournament.StalledGameDraws | crates/tournament/src/match_runner.rs:122-165 | when neither engine answers on a position with legal moves, the game is drawn |
| Tournament.PlayGame | crates/tournament/src/match_runner.rs:113-166 | the result of the game from the initial position with the configured limits and maximum number of moves |
| Tournament.MatchTotal | crates/tournament/src/match_runner.rs:83-87 | every game played is counted exactly once |
| Tournament.MirrorTally | crates/tournament/src/match_runner.rs:75-87 | counting a game and swapping the engines is counting the flipped game |
| Tournament.SwapEngines | crates/tournament/src/match_runner.rs:68-87 | with alternating colours, an even number of games with the engines swapped gives the swapped counts |
| Tournament.SelfPlayBalanced | crates/tournament/src/match_runner.rs:190-208 | an engine playing itself with alternating colours over an even number of games wins as often as it loses |
| Tournament.FixedColoursRepeat | crates/tournament/src/match_runner.rs:70-73 | without alternating colours every game is the same game with engine 1 as White |
| Tournament.RunMatch | crates/tournament/src/match_runner.rs:61-110 | the counts of the games in order, each from engine 1's point of view, adding up to the number of games |
| Tournament.QuickConfig | crates/tournament/src/match_runner.rs:176-180 | the default configuration with the number of games and the depth given |
| Tournament.QuickMatch | crates/tournament/src/match_runner.rs:170-183 | the counts of a match under that configuration, adding up to the number of games |
| Results.PadRight | crates/tournament/src/results.rs:100-106 | the text followed by spaces up to the width, longer text kept whole |
| Results.PadLeft | crates/tournament/src/results.rs:100-106 | spaces up to the width followed by the text, longer text kept whole |
| Results.RowsAppend | crates/tournament/src/results.rs:99-107 | a match added at the end adds its line at the end of the table |
| Results.RowsPrefix | crates/tournament/src/results.rs:99-107 | the lines of the first i + 1 matches extend those of the first i by the line of match i |
| Results.ReportAppend | crates/tournament/src/results.rs:58-64 | after `add_match` the report is the report before with that match's line appended |
| Results.DecimalLength | crates/tournament/src/results.rs:100-106 | a count below 10^k is written with at most k digits |
| Results.RowWidth | crates/tournament/src/results.rs:100-106 | the line of a match between names of at most 20 characters, with counts below 100000, is 63 characters, newline included |
| Results.RowsWidth | crates/tournament/src/results.rs:99-107 | with every match within those bounds the table is 63 characters per match, so its columns line up |
| Results.DefaultTournamentConfigValues | crates/tournament/src/results.rs:37-45 | ten games a match at depth 4 and 200 moves a game, the same numbers as the default match configuration |
| Results.TournamentResults.constructor | crates/tournament/src/results.rs:48-55 | the name, participants and configuration, and no match yet |
| Results.TournamentResults.AddMatch | crates/tournament/src/results.rs:58-64 | one entry appended at the end; nothing else changes |
| Results.TournamentResults.GenerateReport | crates/tournament/src/results.rs:81-110 | the report of the record: the head, then one line per match in the order added |
| Results.PushRows | crates/tournament/src/results.rs:99-107 | the head followed by the lines of the matches in order |
| Epd.TrimStart | crates/chess_core/tests/perft_tests.rs:12 | a suffix of the text whose removed part is all whitespace and which does not start with whitespace |
| Epd.TrimEnd | crates/chess_core/tests/perft_tests.rs:12 | a prefix of the text whose removed part is all whitespace and which does not end with whitespace |
| Epd.TrimShape | crates/chess_core/tests/perft_tests.rs:12-15 | the trimmed text neither starts nor ends with whitespace, and is empty exactly when the text is all whitespace |
| Epd.ParseBelow | crates/chess_core/tests/perft_tests.rs:29-34 | a number read is below the type's limit; the empty text and a lone `+` are refused |
| Epd.ParseBelowDecimal | crates/chess_core/tests/perft_tests.rs:29-34 | every number the type holds is read back from its numeral |
| Epd.ParseBelowOverflow | crates/chess_core/tests/perft_tests.rs:29-34 | a numeral too large for `u8` or `u64` is refused |
| Epd.SegmentCases | crates/chess_core/tests/perft_tests.rs:19-35 | an entry yields nothing exactly when its key does not start with `D`, panics exactly when it does and a token does not read, and yields the depth and count exactly when both read |
| Epd.MissingCount | crates/chess_core/tests/perft_tests.rs:25-34 | a depth key without a count makes the test panic |
| Epd.Outcomes | crates/chess_core/tests/perft_tests.rs:18 | one outcome per segment, in order |
| Epd.CollectErr | crates/chess_core/tests/perft_tests.rs:18-36 | collecting panics exactly when one of the segments is malformed |
| Epd.CollectFrom | crates/chess_core/tests/perft_tests.rs:18-36 | the entries collected are exactly those the segments yield |
| Epd.CollectStops | crates/chess_core/tests/perft_tests.rs:31-34 | after the first malformed segment the later ones change nothing |
| Epd.InsertKeeps | crates/chess_core/tests/perft_tests.rs:40 | insertion adds the entry and nothing else |
| Epd.InsertSorted | crates/chess_core/tests/perft_tests.rs:40 | inserting into entries sorted by depth keeps them sorted |
| Epd.InsertAtDepth | crates/chess_core/tests/perft_tests.rs:40 | an inserted entry comes first among the entries of its depth |
| Epd.SortByDepthCorrect | crates/chess_core/tests/perft_tests.rs:40 | `sort_by_key` orders by depth, keeps every entry, and keeps the order of the entries at each depth (a stable sort) |
| Epd.BlankFenSkipped | crates/chess_core/tests/perft_tests.rs:11-15 | a line whose text before the first `;` is blank is skipped |
| Epd.PanicIff | crates/chess_core/tests/perft_tests.rs:17-36 | a line with a FEN panics exactly when one of its entries is malformed |
| Epd.LineRead | crates/chess_core/tests/perft_tests.rs:10-42 | a line read gives the trimmed, non-empty FEN and at least one entry, sorted by depth, each from one of its `D` entries and each of those present |
| Epd.SortedFrom | crates/chess_core/tests/perft_tests.rs:35-41 | the sorted entries are exactly the collected ones |
| Epd.NoDepthsSkipped | crates/chess_core/tests/perft_tests.rs:37-39 | a line with a FEN but no `D` entry is skipped |
| Epd.CollectNothing | crates/chess_core/tests/perft_tests.rs:17-28 | segments that yield nothing collect nothing |
| Epd.ReadSegment | crates/chess_core/tests/perft_tests.rs:19-35 | the outcome of one segment, read as the loop body reads it |
| Epd.ParseEpdLine | crates/chess_core/tests/perft_tests.rs:10-42 | the loop computes `parse_epd_line` as specified by `ParseEpd` |
| Epd.ReadSegments | crates/chess_core/tests/perft_tests.rs:17-35 | the loop over the segments after the FEN collects their entries in order and stops with the panic of the first malformed one |
| InlineTests.Find | scripts/move_inline_tests.py:49-57 | `str.find`: the first position at or after the start where the pattern occurs, and none when it occurs nowhere from there on |
| InlineTests.Close | scripts/move_inline_tests.py:59-67 | the first position from i on where the brace depth counted from the `{` is back to zero; none when the depth never returns to zero before the end |
| InlineTests.LevelStep | scripts/move_inline_tests.py:60-64 | the depth after a character is the depth before it plus one for `{`, minus one for `}`, unchanged otherwise |
| InlineTests.DepthPositive | scripts/move_inline_tests.py:59-66 | from a `{`, the depth stays positive at every position before the first one where it reaches zero |
| InlineTests.BlockShape | scripts/move_inline_tests.py:43-67 | a block found starts at a `#[cfg(test)]`, its opening position holds `{`, its closing position a `}` at which the depth returns to zero, and the depth is positive in between |
| InlineTests.NoBlockWhenMissing | scripts/move_inline_tests.py:49-57 | no block when the attribute occurs nowhere, when no `mod tests` follows its first occurrence, or when no `{` follows that `mod tests` |
| InlineTests.UnbalancedNoBlock | scripts/move_inline_tests.py:59-67 | no block when the `{` found is never balanced before the end of the text |
| InlineTests.MatchBrace | scripts/move_inline_tests.py:59-67 | the loop over the characters from the `{`, keeping the depth, returns the balancing position of the brace-depth specification, or none |
| InlineTests.FindTestBlock | scripts/move_inline_tests.py:43-67 | the imperative `find_test_block` returns exactly the block of the specification, none in every missing case |
| InlineTests.RStrip | scripts/move_inline_tests.py:84 | `rstrip()`: a prefix of the text, everything cut off is whitespace, and the result does not end in whitespace |
| InlineTests.LStripNewlines | scripts/move_inline_tests.py:85 | `lstrip("\n")`: a suffix of the text, everything cut off is a newline, and the result does not start with a newline |
| InlineTests.SpliceKeeps | scripts/move_inline_tests.py:84-86 | the spliced text is the text before the cut up to its trailing whitespace, then the middle, then the text after the cut from its first character that is not a newline |
| InlineTests.RewriteKeepsOutside | scripts/move_inline_tests.py:77-86 | a source with a test block is rewritten, and the rewritten source keeps the text before the attribute (less trailing whitespace) and after the closing brace (less leading newlines) and puts the `#[cfg(test)] mod <stem>_tests;` declaration between blank lines in place of the block |
| InlineTests.NoBlockNoRewrite | scripts/move_inline_tests.py:72-75 | a source without a test block is not rewritten |

## Left out

- Bitboards are sets of squares, not 64-bit words. The word-level tricks (`trailing_zeros`,
  `count_ones`, two's-complement `b & (b - 1)`) are therefore modelled by their set meaning.
- Board.Position.MakeMove, Board.Position.UnmakeMove: `make_move` panics when the from-square
  is empty. These methods require a state where the move can be made (`Positions.CanMake`),
  and reversibility (`Positions.Reversible`) where a round trip is claimed.
- Perft.Inner, Perft.PerftNodes: the perft recursion is proved for playable positions
  (`Play.Playable`: well formed, one king of each colour, the side that just moved not in check),
  which include every position reached from the start by legal moves. A position from a FEN
  that breaks these rules (two white kings, a castling right without its rook) is not covered.
- Generation.LegalMoves: an en-passant square off the board (index 64 or more) is not modelled.
  The source would index out of range there.
- Generation.LegalMoves, MoveGen.LegalMovesInto: both require `Generation.Restorable`, so every
  generated move can be made and taken back. Positions where the source's legal filter
  misbehaves are not covered:
  - a castling right without its rook makes `make_move` panic;
  - an occupied en-passant target, or an occupied rook destination, is overwritten by
    `make_move` and not restored by `unmake_move`.
  Every well-formed position is restorable (`Generation.WellFormedRestorable`).
- Generation.LegalMovesExactly, Perft.PerftOne: the 20 legal moves of the start position are
  proved (`StartMoves.StartTwentyMoves`). The 48 moves of Kiwipete (movegen_tests.rs:11-18) and
  the node counts of the perft test file are not stated. Proving them means unfolding the
  set-based generator and the legality filter on a crowded concrete position, move by move.
  That is beyond the proof budget of this model.
- Perft.PerftNodes returns an unbounded natural number. The source counts in `u64`, and the
  64-bit wrap-around is not modelled.
- The halfmove and fullmove clocks are unbounded. The source uses `u32` counters; their
  wrap-around on overflow is not modelled.
- MoveGen.RetainSafe: `Vec::retain` is modelled as building the list of kept moves and
  assigning it to the buffer.
- `is_square_attacked_mailbox` (board.rs:334) is a legacy attack test that nothing calls, so
  it is not modelled.
- The `Debug` formatting of `Move` is not modelled: it is output only.
- UCI text is a sequence of characters. The source measures and slices it in bytes, which is the
  same for ASCII text. A token with a multi-byte character before its fifth byte, where the
  source's slicing would panic, is not modelled.
- Uci.ParseUci: a promotion letter after a move that does not promote is still written into the
  move, as the source does. `make_move` ignores it, so the position reached is the same.
- Fen.ParseFen: each panic of `from_fen` is an `Err` naming the failed check; the panic message
  is not modelled. `Fen.ToFen` is a reference writer for stating the round trip, and the source has no
  FEN writer.
- Fen.RankFrom: the source's `i8` file counter cannot overflow (it is checked after every character and so stays
  below 18), so it is a natural number here.
- Zobrist: the key tables are not used by any other part of the repository (the position hash
  is the FNV hash of `Hashing`), so no incremental hash update is modelled.
- Engines.TimeOracle.CheckTime: the wall clock of `TimeControl` is not modelled. Whether the limit has passed is a
  choice left open, so every property proved about the timed searches holds however the clock behaves.
- TimedSearch.Negamax: the value and node count of a search the clock stops are not specified. The source returns a
  partial value there, and the root discards it. TimedSearch.PickBestMove still states a stopped root's report: the first
  best of the moves searched in full.
- The engines' `i32` scores, `u8` depths and `u64` node counts are unbounded integers here. The `i32::MIN` start of the
  older search and the `i32::MIN / 2` root window are modelled by their values. An overflow of the node counter is not
  modelled.
- Neural.Lower: only ASCII letters are lowered, as `to_lowercase` does on the option names the engine compares against.
- Neural.NeuralEngine.WithModel, Neural.NeuralEngine.SetOption: checking the model path and loading the ONNX session are
  I/O. The outcome of a load is a parameter (`ModelLoad`), and a loaded network is a function from positions to scores.
- TimedSearch.Evaluate: the network and its arithmetic (the relative features it is given and its `f32` output turned
  into centipawns) are not modelled. The network is a score oracle on positions.
- MlEngine.NeuralEngine.SearchInternal: the source's depth-0 branch scores every move by the negated evaluation, as
  depth 1 does, so the two are one case of the model.
- MlEngine.NeuralEngine.Search: the source's result has no stopped field. The shared `SearchResult` of the model has
  one, and it is always false here.
- MlEngine.NeuralEngine.Search: with a model loaded, `evaluate` encodes the position with the absolute
  `extract_features` and runs the network. The network is a score oracle, as in `TimedSearch`.
- The engines' names and authors (`name`, `author`, `Random`) are display text and not modelled.
- Features: the entries are reals. The single-precision rounding of the scaled en-passant and halfmove entries is not
  modelled.
- Dataset: Stockfish, the PGN reader, python-chess's move generator, `random.sample` and `tanh` are parameters
  (`Oracles`, `PgnReader`, `StockfishClient`). Only the properties the code relies on are stated about them.
- Dataset.FromPgn: the Stockfish client is passed in rather than started from a path, and `engine.configure` is not
  modelled.
- Dataset.SplitSizes: `torch.utils.data.random_split` and the `DataLoader`s built on it are not modelled; only the two
  sizes are.
- Dataset.SplitSizes, Dataset.SplitSizesSum: `val_split` is taken as an exact real, and the rounding of the double
  product `n * val_split` before `int()` is not modelled. The two can differ: for n = 100 and `val_split` = 0.29
  the double product is 28.999999999999996, so the source keeps 28 positions for validation where the model keeps 29.
  The default split of 0.1 agrees on 1000 positions, and the two sizes add up to n either way.
- OnnxExport.PlanExport: building the torch model, loading its weights and `torch.onnx.export` itself are not modelled.
  The plan states what the exporter is given.
- The concrete checkmate and stalemate positions of the draw tests are not modelled as FEN texts. `Play` states the
  rules they exercise for every position.
- Gui.GameState.ApplyMove: requires a legal move. The public `apply_move` of the source accepts any move. Within the
  game, `make_move_from_to` passes only moves from the legal list. The front end (crates/gui/src/app.rs) also passes
  engine answers, which are not part of this model.
- Gui: the engines the front end can ask for a move (and their threads) are not modelled. A move they return enters
  through `ApplyMove`.
- Tournament: an engine is a pure function of the position and the limits. Engine state, `new_game`, the node counts
  and the time each search takes are not modelled. A move the engine answers is played by the rules record as given,
  and no answer while moves exist leaves the position as it is, as the source does.
- Tournament.PlayGame: the printing of verbose progress is not modelled, and a move time is a number of milliseconds
  rather than a `Duration`.
- Results: saving and loading JSON and `print_report` are I/O and not modelled. The Elo arithmetic of
  crates/tournament/src/elo.rs is floating point and not part of this model.
- Results.PushRows: the lines of the matches are gathered first and then appended to the head. This is the same text as
  pushing each line onto one `String`.
- Results.ReportHead: the title, participant and configuration lines are stated by their definition only.
- Epd.ParseEpd: a panic of the test on a malformed depth or count is an error naming the offending text (`Panic`); the
  panic message itself is not modelled.
- Epd.SortByDepth: `sort_by_key` is modelled as a stable insertion sort on a sequence, not as an in-place sort.
- Epd: reading the suite files (`include_str!`), the environment variables, the parallel runs (`rayon`) and the perft
  runs themselves are not modelled.
- InlineTests: reading and writing the files and the progress printing of `move_tests` and `main` are not modelled.
- InlineTests: the body moved to the new test file (`textwrap.dedent` of the text between the braces) is not modelled.
  Only the rewritten source is.

## Findings

| source | as written | input that shows it | evidently intended | confidence | as-written member | corrected member |
|---|---|---|---|---|---|---|
| crates/chess_core/src/types.rs:80-82 | the promotion field (bits 12-14) and the castle flag (bit 14) overlap, so the queen code 4 sets the castle bit | a queen promotion e7-e8=Q reads back as a castling move, and a castle flag on e1-g1 reads back as a queen promotion | disjoint fields for promotion and flags | not executed | PackedMoves.QueenPromotionReadsAsCastle | PackedMoves.CorrectedRoundTrip |
| crates/chess_core/src/board.rs:686-692 | a square's code XORs in the colour index at bit 6 and the kind index at bit 3, and a white pawn has colour index 0 and kind index 0, so it gets the code of an empty square | the start position and the same position without the pawn on e2 hash alike, so a search that keys repetitions on this hash (crates/chess_core/src/search.rs:85, crates/classical_engine/src/search.rs:148) can score a position as a repetition that is not one | a non-zero tag for every piece, such as the kind index plus one | not executed | Hashing.WhitePawnsHashAlike | Hashing.CorrectedCodeInjective |

The searches in this model keep the hash as written, since their repetition scores are to follow
the source; the corrected tag (`Hashing.CorrectedTag`) is proved separately.
