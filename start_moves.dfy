/**
 * The start-position anchor of the move generator tests
 * (crates/chess_core/src/movegen_tests.rs): the initial position has
 * exactly 20 legal moves, the sixteen pawn pushes and the four knight
 * jumps, and perft of depth one counts them.
 *
 * The proof follows the generator: the pawn segments are computed as
 * square ranges, the knights' targets as two-square sets, and every other
 * white piece is shown to reach only its own pieces on the first two
 * ranks. No black piece can reach e1 whatever the occupancy, so every
 * pseudo-legal move is legal.
 */
module StartMoves {
  import opened Wrappers
  import opened Types
  import opened Bitboards
  import opened Attacks
  import opened Positions
  import opened Generation
  import Threats
  import Perft
  import AttackAnchors

  /** A quiet move of a pawn or knight from the first two ranks onto an empty square of the middle of the board. */
  predicate StartShaped(mv: Move)
  {
    && mv == Quiet(mv.from, mv.to)
    && (mv.from == 1 || mv.from == 6 || 8 <= mv.from < 16)
    && 16 <= mv.to < 48
  }

  // ---------------------------------------------------------------------
  // The squares of the initial position
  // ---------------------------------------------------------------------

  lemma StartColors()
    ensures ColorSet(StartState().board, White) == Range(0, 16)
    ensures ColorSet(StartState().board, Black) == Range(48, 64)
    ensures Not(OccupiedSet(StartState().board)) == Range(16, 48)
  {
    var b := StartState().board;
    assert forall s :: 0 <= s < 64 ==> b[s] == StartPiece(s);
  }

  lemma StartWhitePieces()
    ensures PieceSet(StartState().board, Piece(White, Pawn)) == Range(8, 16)
    ensures PieceSet(StartState().board, Piece(White, Knight)) == {1, 6}
    ensures forall k :: k != Pawn && k != Knight ==> PieceSet(StartState().board, Piece(White, k)) <= Range(0, 8)
  {
    var b := StartState().board;
    assert forall s :: 0 <= s < 64 ==> b[s] == StartPiece(s);
  }

  // ---------------------------------------------------------------------
  // Pawns
  // ---------------------------------------------------------------------

  lemma StartPushes()
    ensures SinglePushes(White, Range(8, 16), Range(16, 48)) == Range(16, 24)
    ensures DoublePushes(White, Range(8, 16), Range(16, 48)) == Range(24, 32)
  {
    forall t: nat
      ensures t in North(Range(8, 16)) <==> 16 <= t < 24
    {
      JumpMember(Range(8, 16), 0, 1, t);
    }
    assert Range(8, 16) * StartRank(White) == Range(8, 16);
    var first := PushAll(White, Range(8, 16)) * Range(16, 48);
    assert first == Range(16, 24);
    forall t: nat
      ensures t in North(Range(16, 24)) <==> 24 <= t < 32
    {
      JumpMember(Range(16, 24), 0, 1, t);
    }
  }

  lemma StartNoPawnCaptures()
    ensures AttackLeft(White, Range(8, 16)) * Range(48, 64) == {}
    ensures AttackRight(White, Range(8, 16)) * Range(48, 64) == {}
  {
    forall t: nat | t in AttackLeft(White, Range(8, 16))
      ensures t < 24
    {
      JumpMember(Range(8, 16), -1, 1, t);
    }
    forall t: nat | t in AttackRight(White, Range(8, 16))
      ensures t < 24
    {
      JumpMember(Range(8, 16), 1, 1, t);
    }
  }

  lemma {:induction false} PawnMovesToSize(tos: seq<nat>, delta: int, promote: bool)
    ensures |PawnMovesTo(tos, delta, promote)| == (if promote then 4 else 1) * |tos|
    decreases |tos|
  {
    if tos != [] {
      PawnMovesToSize(tos[1..], delta, promote);
    }
  }

  lemma {:induction false} PlainPawnMoves(tos: seq<nat>, delta: int, mv: Move)
    requires mv in PawnMovesTo(tos, delta, false)
    ensures exists to :: to in tos && mv == Quiet(Back(to, delta), to)
    decreases |tos|
  {
    if mv !in [Quiet(Back(tos[0], delta), tos[0])] {
      PlainPawnMoves(tos[1..], delta, mv);
      var to :| to in tos[1..] && mv == Quiet(Back(to, delta), to);
      assert to in tos;
    }
  }

  /** The generator's arguments in the initial position. */
  lemma StartPawnArgs()
    ensures PawnMoves(StartState()) == PawnMovesOf(White, Range(8, 16), Range(48, 64), Range(16, 48), None)
  {
    StartColors();
    StartWhitePieces();
  }

  /** A pawn generation without captures, promotions or en passant consists of its pushes. */
  lemma PushesOnly(pawns: Bitboard, their: Bitboard, empty: Bitboard, singles: Bitboard, doubles: Bitboard, mv: Move)
    requires SinglePushes(White, pawns, empty) == singles && DoublePushes(White, pawns, empty) == doubles
    requires singles * Not(RANK_8) == singles && singles * RANK_8 == {}
    requires AttackLeft(White, pawns) * their == {} && AttackRight(White, pawns) * their == {}
    ensures |PawnMovesOf(White, pawns, their, empty, None)|
         == |PawnMovesTo(Ascending(singles), -8, false)| + |PawnMovesTo(Ascending(doubles), -16, false)|
    ensures mv in PawnMovesOf(White, pawns, their, empty, None)
        ==> mv in PawnMovesTo(Ascending(singles), -8, false) || mv in PawnMovesTo(Ascending(doubles), -16, false)
  {
    var left := AttackLeft(White, pawns) * their;
    var right := AttackRight(White, pawns) * their;
    NoSegment(singles * RANK_8, -8, true);
    NoSegment(left * Not(RANK_8), -7, false);
    NoSegment(left * RANK_8, -7, true);
    NoSegment(right * Not(RANK_8), -9, false);
    NoSegment(right * RANK_8, -9, true);
  }

  lemma NoSegment(b: Bitboard, delta: int, promote: bool)
    requires b == {}
    ensures PawnMovesTo(Ascending(b), delta, promote) == []
  {
  }

  lemma PushOrigin(to: nat, delta: int)
    requires 0 <= to + delta < 256
    ensures Back(to, delta) == to + delta
  {
  }

  /** The pushes onto the eight squares from lo, each from the square `delta` away. */
  lemma PushSegment(lo: nat, delta: int, mv: Move)
    requires (lo, delta) == (16, -8) || (lo, delta) == (24, -16)
    ensures |PawnMovesTo(Ascending(Range(lo, lo + 8)), delta, false)| == 8
    ensures mv in PawnMovesTo(Ascending(Range(lo, lo + 8)), delta, false) ==> StartShaped(mv)
  {
    var tos := Ascending(Range(lo, lo + 8));
    AscendingMembers(Range(lo, lo + 8));
    RangeCard(lo, lo + 8);
    PawnMovesToSize(tos, delta, false);
    if mv in PawnMovesTo(tos, delta, false) {
      PlainPawnMoves(tos, delta, mv);
      var to :| to in tos && mv == Quiet(Back(to, delta), to);
      PushOrigin(to, delta);
    }
  }

  /** The pawn moves of the initial position: eight single and eight double pushes. */
  lemma StartPawnMoves()
    ensures |PawnMoves(StartState())| == 16
    ensures forall mv :: mv in PawnMoves(StartState()) ==> StartShaped(mv)
  {
    StartPawnArgs();
    StartPushes();
    StartNoPawnCaptures();
    assert Range(16, 24) * Not(RANK_8) == Range(16, 24);
    assert Range(16, 24) * RANK_8 == {};
    PushesOnly(Range(8, 16), Range(48, 64), Range(16, 48), Range(16, 24), Range(24, 32), Quiet(0, 0));
    PushSegment(16, -8, Quiet(0, 0));
    PushSegment(24, -16, Quiet(0, 0));
    forall mv | mv in PawnMoves(StartState())
      ensures StartShaped(mv)
    {
      PushesOnly(Range(8, 16), Range(48, 64), Range(16, 48), Range(16, 24), Range(24, 32), mv);
      PushSegment(16, -8, mv);
      PushSegment(24, -16, mv);
    }
  }

  // ---------------------------------------------------------------------
  // Knights
  // ---------------------------------------------------------------------

  /** On the first rank a step lands on the offset file and the offset rank. */
  lemma StepFromRank1(f: nat, df: int, dr: int)
    requires f < 8
    ensures Step(f, df, dr) == Sq(f + df, dr)
  {
  }

  /** The squares a knight on b1 attacks: d2, a3 and c3. */
  lemma KnightSquaresB1()
    ensures KnightAttacks(1) == {11, 16, 18}
  {
    StepFromRank1(1, 1, 2); StepFromRank1(1, -1, 2); StepFromRank1(1, 2, 1); StepFromRank1(1, -2, 1);
    StepFromRank1(1, 2, -1); StepFromRank1(1, -2, -1); StepFromRank1(1, 1, -2); StepFromRank1(1, -1, -2);
    forall t: nat
      ensures t in KnightAttacks(1) <==> t in {11, 16, 18}
    {
      AttackAnchors.KnightBySteps(1, t);
    }
  }

  /** The squares a knight on g1 attacks: e2, f3 and h3. */
  lemma KnightSquaresG1()
    ensures KnightAttacks(6) == {12, 21, 23}
  {
    StepFromRank1(6, 1, 2); StepFromRank1(6, -1, 2); StepFromRank1(6, 2, 1); StepFromRank1(6, -2, 1);
    StepFromRank1(6, 2, -1); StepFromRank1(6, -2, -1); StepFromRank1(6, 1, -2); StepFromRank1(6, -1, -2);
    forall t: nat
      ensures t in KnightAttacks(6) <==> t in {12, 21, 23}
    {
      AttackAnchors.KnightBySteps(6, t);
    }
  }

  /** Masking off the first two ranks keeps a knight's targets on the third. */
  lemma MaskLowRanks(att: Bitboard, c: nat, a: nat, b: nat, mask: Bitboard)
    requires att == {c, a, b} && c < 16 && 16 <= a < 64 && 16 <= b < 64
    requires mask == Not(Range(0, 16))
    ensures att * mask == {a, b}
  {
    assert c !in mask && a in mask && b in mask;
  }

  /** The empty squares a knight on b1 jumps to while the first two ranks are White's: a3 and c3. */
  lemma KnightTargetsB1(s: PosState)
    requires s.side == White && ColorSet(s.board, White) == Range(0, 16)
    ensures Targets(s, Knight, 1) == {16, 18}
  {
    var att, mask := KnightAttacks(1), Not(Range(0, 16));
    assert Targets(s, Knight, 1) == att * mask;
    KnightSquaresB1();
    MaskLowRanks(att, 11, 16, 18, mask);
  }

  /** The empty squares a knight on g1 jumps to while the first two ranks are White's: f3 and h3. */
  lemma KnightTargetsG1(s: PosState)
    requires s.side == White && ColorSet(s.board, White) == Range(0, 16)
    ensures Targets(s, Knight, 6) == {21, 23}
  {
    var att, mask := KnightAttacks(6), Not(Range(0, 16));
    assert Targets(s, Knight, 6) == att * mask;
    KnightSquaresG1();
    MaskLowRanks(att, 12, 21, 23, mask);
  }

  /** The knight moves of the initial position: b1-a3, b1-c3, g1-f3 and g1-h3. */
  lemma StartKnightMoves()
    ensures |PieceMoves(StartState(), Knight)| == 4
    ensures forall mv :: mv in PieceMoves(StartState(), Knight) ==> StartShaped(mv)
  {
    StartColors();
    StartWhitePieces();
    KnightTargetsB1(StartState());
    KnightTargetsG1(StartState());
    KnightPair(StartState(), {16, 18}, {21, 23});
  }

  lemma KnightPair(s: PosState, ta: Bitboard, tb: Bitboard)
    requires PieceSet(s.board, Piece(s.side, Knight)) == {1, 6}
    requires ta == {16, 18} && tb == {21, 23}
    requires Targets(s, Knight, 1) == ta && Targets(s, Knight, 6) == tb
    ensures |PieceMoves(s, Knight)| == 4
    ensures forall mv :: mv in PieceMoves(s, Knight) ==> StartShaped(mv)
  {
    TwoOrigins(s, Knight, 1, 6, ta, tb);
    KnightShapes(PieceMoves(s, Knight), ta, tb);
  }

  /** Moves from b1 onto a3 or c3 and from g1 onto f3 or h3: four of them, each of the start shape. */
  lemma KnightShapes(moves: seq<Move>, ta: Bitboard, tb: Bitboard)
    requires ta == {16, 18} && tb == {21, 23}
    requires |moves| == |ta| + |tb|
    requires forall mv :: mv in moves ==>
      mv == Quiet(mv.from, mv.to) && ((mv.from == 1 && mv.to in ta) || (mv.from == 6 && mv.to in tb))
    ensures |moves| == 4
    ensures forall mv :: mv in moves ==> StartShaped(mv)
  {
  }

  /** The moves of two pieces of one kind, with the targets of each given. */
  lemma TwoOrigins(s: PosState, k: PieceKind, a: nat, b: nat, ta: Bitboard, tb: Bitboard)
    requires a < b < 64
    requires PieceSet(s.board, Piece(s.side, k)) == {a, b}
    requires Targets(s, k, a) == ta && Targets(s, k, b) == tb
    ensures |PieceMoves(s, k)| == |ta| + |tb|
    ensures forall mv :: mv in PieceMoves(s, k) ==>
      mv == Quiet(mv.from, mv.to) && ((mv.from == a && mv.to in ta) || (mv.from == b && mv.to in tb))
  {
    var both: Bitboard := {a, b};
    MovesFromStep(s, k, both);
    assert Lsb(both).value == a && both - {a} == {b};
    MovesFromStep(s, k, {b});
    assert Lsb({b}).value == b && {b} - {b} == {};
    assert Ascending({}) == [];
    AscendingMembers(ta);
    AscendingMembers(tb);
    forall mv | mv in PieceMoves(s, k)
      ensures mv == Quiet(mv.from, mv.to) && ((mv.from == a && mv.to in ta) || (mv.from == b && mv.to in tb))
    {
      MovesToMembers(a, Ascending(ta), mv);
      MovesToMembers(b, Ascending(tb), mv);
    }
  }

  // ---------------------------------------------------------------------
  // Bishops, rooks, the queen and the king
  // ---------------------------------------------------------------------

  /** From the first rank, with the first two ranks full, a slide stops on the first two ranks. */
  lemma BackRankSlide(d: nat, sq: nat, occ: Bitboard, t: nat)
    requires d < 8 && sq < 8 && Range(0, 16) <= occ && t in Slide(d, sq, occ)
    ensures t < 16
  {
    if t >= 16 {
      var u := FirstStep(d, sq, t);
      assert false;
    }
  }

  /** A ray from the first rank that reaches the third rank passes the second rank first. */
  lemma FirstStep(d: nat, sq: nat, t: nat) returns (u: nat)
    requires d < 8 && sq < 8 && 16 <= t && t in Ray(d, sq)
    ensures u < 16 && u in Ray(d, sq) && Dist(sq, u) < Dist(sq, t)
  {
    var df := DirFile(d);
    SquareCoords(t);
    assert RankOf(sq) == 0 && FileOf(sq) == sq;
    assert DirRank(d) == 1 && 0 <= sq + df < 8;
    u := 8 + sq + df;
    assert FileOf(u) == sq + df && RankOf(u) == 1;
  }

  lemma {:induction false} BackRankSlides(dirs: seq<nat>, sq: nat, occ: Bitboard)
    requires forall i :: 0 <= i < |dirs| ==> dirs[i] < 8
    requires sq < 8 && Range(0, 16) <= occ
    ensures SlideUnion(dirs, sq, occ) <= Range(0, 16)
    decreases |dirs|
  {
    if |dirs| > 0 {
      var d := dirs[|dirs| - 1];
      var slide := Slide(d, sq, occ);
      BackRankSlides(dirs[..|dirs| - 1], sq, occ);
      forall t | t in slide
        ensures t < 16
      {
        BackRankSlide(d, sq, occ, t);
      }
    }
  }

  /** The white pieces other than pawns and knights only reach their own side's squares. */
  lemma HomeTargetsEmpty(k: PieceKind, from: nat)
    requires k != Pawn && k != Knight && from < 8
    ensures Targets(StartState(), k, from) == {}
  {
    var occ := OccupiedSet(StartState().board);
    StartColors();
    assert Range(0, 16) <= occ;
    var attacks := Threats.PieceAttacks(Piece(White, k), from, occ);
    if k == King {
      forall t | t in attacks
        ensures t < 16
      {
        SquareCoords(t);
      }
    } else {
      BackRankSlides([1, 7, 3, 5], from, occ);
      BackRankSlides([0, 2, 4, 6], from, occ);
    }
    assert attacks <= Range(0, 16);
  }

  lemma {:induction false} NoMovesFrom(k: PieceKind, origins: seq<nat>)
    requires k != Pawn && k != Knight
    requires forall o :: o in origins ==> o < 8
    ensures MovesFrom(StartState(), k, origins) == []
    decreases |origins|
  {
    if origins != [] {
      assert origins[0] in origins;
      assert forall o :: o in origins[1..] ==> o in origins;
      HomeTargetsEmpty(k, origins[0]);
      assert Ascending({}) == [];
      NoMovesFrom(k, origins[1..]);
    }
  }

  lemma StartHomeMoves(k: PieceKind)
    requires k != Pawn && k != Knight
    ensures PieceMoves(StartState(), k) == []
  {
    var home := PieceSet(StartState().board, Piece(White, k));
    StartWhitePieces();
    AscendingMembers(home);
    NoMovesFrom(k, Ascending(home));
  }

  /** No castling: the squares between king and rooks are occupied. */
  lemma StartNoCastling()
    ensures CastlingMoves(StartState()) == []
  {
    StartColors();
    assert 5 in OccupiedSet(StartState().board) * {5, 6};
    assert 1 in OccupiedSet(StartState().board) * {1, 2, 3};
  }

  /** The pseudo-legal moves of the initial position: twenty, each a quiet pawn or knight move. */
  lemma StartPseudoMoves()
    ensures |PseudoMoves(StartState())| == 20
    ensures forall mv :: mv in PseudoMoves(StartState()) ==> StartShaped(mv)
  {
    var s := StartState();
    StartPawnMoves();
    StartKnightMoves();
    StartHomeMoves(Bishop);
    StartHomeMoves(Rook);
    StartHomeMoves(Queen);
    StartHomeMoves(King);
    StartNoCastling();
  }

  // ---------------------------------------------------------------------
  // King safety
  // ---------------------------------------------------------------------

  /** A square of the last two ranks off the e-file shares no line with e1. */
  lemma OffLineOfE1(d: nat, a: nat)
    requires 48 <= a < 64 && a % 8 != 4
    ensures 4 !in Ray(d, a)
  {
    SquareCoords(a);
  }

  lemma {:induction false} SlidesMiss(dirs: seq<nat>, a: nat, occ: Bitboard)
    requires 48 <= a < 64 && a % 8 != 4
    ensures 4 !in SlideUnion(dirs, a, occ)
    decreases |dirs|
  {
    if |dirs| > 0 {
      SlidesMiss(dirs[..|dirs| - 1], a, occ);
      OffLineOfE1(dirs[|dirs| - 1], a);
    }
  }

  /** While Black's pieces stand on their initial squares, none of them attacks e1, whatever else is on the board. */
  lemma E1Unattacked(b: Mailbox)
    requires forall a :: 0 <= a < 64 && b[a].Some? && b[a].value.color == Black ==> 48 <= a && b[a] == StartPiece(a)
    ensures !Threats.Attacked(b, 4, Black)
  {
    var occ := OccupiedSet(b);
    forall a | 0 <= a < 64 && b[a].Some? && b[a].value.color == Black
      ensures 4 !in Threats.PieceAttacks(b[a].value, a, occ)
    {
      SquareCoords(a);
      var k := b[a].value.kind;
      if k == Bishop || k == Rook || k == Queen {
        SlidesMiss([1, 7, 3, 5], a, occ);
        SlidesMiss([0, 2, 4, 6], a, occ);
      }
    }
  }

  /** Each start-shaped move can be made and leaves the white king on e1 unattacked. */
  lemma ShapedMoveSafe(mv: Move)
    requires StartShaped(mv)
    ensures CanMake(StartState(), mv) && KeepsKingSafe(StartState(), mv)
  {
    var s := StartState();
    assert forall q :: 0 <= q < 64 ==> s.board[q] == StartPiece(q);
    SquareCoords(mv.to);
    var b := MakeBoard(s, mv);
    assert b == s.board[mv.from := None][mv.to := s.board[mv.from]];
    assert PieceSet(b, Piece(White, King)) == {4};
    assert Lsb({4}).value == 4;
    E1Unattacked(b);
  }

  lemma {:induction false} KeepLegalAll(s: PosState, moves: seq<Move>)
    requires forall mv :: mv in moves ==> CanMake(s, mv) && KeepsKingSafe(s, mv)
    ensures KeepLegal(s, moves) == moves
    decreases |moves|
  {
    if moves != [] {
      var init := moves[..|moves| - 1];
      assert forall mv :: mv in init ==> mv in moves;
      KeepLegalAll(s, init);
      assert moves == init + [moves[|moves| - 1]];
    }
  }

  // ---------------------------------------------------------------------
  // The anchors
  // ---------------------------------------------------------------------

  /** `test_startpos_moves`: the initial position has 20 legal moves, all of its pseudo-legal moves. */
  lemma StartTwentyMoves()
    ensures Restorable(StartState())
    ensures LegalMoves(StartState()) == PseudoMoves(StartState())
    ensures |LegalMoves(StartState())| == 20
    ensures forall mv :: mv in LegalMoves(StartState()) ==> StartShaped(mv)
  {
    var s := StartState();
    StartWellFormed();
    StartPseudoMoves();
    forall mv | mv in PseudoMoves(s)
      ensures CanMake(s, mv) && KeepsKingSafe(s, mv)
    {
      ShapedMoveSafe(mv);
    }
    KeepLegalAll(s, PseudoMoves(s));
  }

  /** Perft of depth one from the initial position is 20. */
  lemma StartPerftOne()
    ensures Perft.Generable(StartState())
    ensures Perft.PerftCount(StartState(), 1) == 20
  {
    StartTwentyMoves();
    Perft.PerftOne(StartState());
  }
}
