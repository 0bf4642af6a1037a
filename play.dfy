/**
 * Positions reached in play (crates/chess_core/src/movegen.rs and
 * board.rs). The generator and `make_move` are written for positions that
 * arise from the start position by legal moves: well formed, one king of
 * each colour, and the side that just moved not in check. `Playable`
 * names these; the lemmas here prove that the start position is playable
 * and that every legal move keeps a position playable, and they describe
 * the shape of every generated move (its flags and promotion follow from
 * its two squares), which is what lets UCI text name a move by its squares.
 */
module Play {
  import opened Wrappers
  import opened Types
  import opened Bitboards
  import opened Attacks
  import opened Positions
  import opened Generation
  import Threats
  import MakeRules

  /** The square n pawn steps ahead of sq for colour c. */
  function Ahead(c: Color, sq: nat, n: nat): int
  {
    if c == White then sq + 8 * n else sq - 8 * n
  }

  /**
   * A generated pawn move: it starts on a pawn of the side to move and is
   * an en-passant capture onto the empty en-passant square, a capture of
   * an enemy piece on a square the pawn attacks, a single push onto an
   * empty square, or a double push from the start rank over an empty
   * square onto an empty square.
   */
  predicate PawnShape(s: PosState, mv: Move)
  {
    && mv.from < 64 && mv.to < 64
    && s.board[mv.from] == Some(Piece(s.side, Pawn)) && !mv.isCastle
    && (if mv.isEnPassant then
          s.enPassant == Some(mv.to) && s.board[mv.to].None? && mv.to in PawnAttacks(mv.from, s.side == White)
        else
          || (s.board[mv.to].Some? && s.board[mv.to].value.color == s.side.Other()
              && mv.to in PawnAttacks(mv.from, s.side == White))
          || (s.board[mv.to].None? && mv.to == Ahead(s.side, mv.from, 1))
          || (&& s.board[mv.to].None? && mv.to == Ahead(s.side, mv.from, 2) && mv.from in StartRank(s.side)
              && 0 <= Ahead(s.side, mv.from, 1) < 64 && s.board[Ahead(s.side, mv.from, 1)].None?))
  }

  // ---------------------------------------------------------------------
  // Pawn moves, segment by segment
  // ---------------------------------------------------------------------

  lemma {:induction false} PawnMovesToMembers(tos: seq<nat>, delta: int, promote: bool, mv: Move)
    requires mv in PawnMovesTo(tos, delta, promote)
    ensures mv.to in tos && mv.from == Back(mv.to, delta) && !mv.isEnPassant && !mv.isCastle
    decreases |tos|
  {
    var head := if promote then Promotions(Back(tos[0], delta), tos[0]) else [Quiet(Back(tos[0], delta), tos[0])];
    assert PawnMovesTo(tos, delta, promote) == head + PawnMovesTo(tos[1..], delta, promote);
    if mv !in head {
      PawnMovesToMembers(tos[1..], delta, promote, mv);
    }
  }

  /** The moves onto the squares of T from the pawns `delta` away have the pawn shape when each plain one does. */
  lemma SegmentShape(s: PosState, T: Bitboard, delta: int, promote: bool)
    requires forall t :: t in T ==> PawnShape(s, Quiet(Back(t, delta), t))
    ensures forall mv :: mv in PawnMovesTo(Ascending(T), delta, promote) ==> PawnShape(s, mv)
  {
    AscendingEnumerates(T);
    forall mv | mv in PawnMovesTo(Ascending(T), delta, promote)
      ensures PawnShape(s, mv)
    {
      PawnMovesToMembers(Ascending(T), delta, promote, mv);
      assert PawnShape(s, Quiet(Back(mv.to, delta), mv.to));
    }
  }

  /** A one-step shift by (df, dr) lands on the square at those offsets from its source. */
  lemma JumpGeometry(b: Bitboard, df: int, dr: int, t: nat)
    requires -1 <= df <= 1 && -1 <= dr <= 1 && t in Jump(b, df, dr)
    ensures var o := Back(t, -(8 * dr + df));
            o in b && o < 64 && t < 64 && o == t - (8 * dr + df) && DFile(o, t) == df && DRank(o, t) == dr
  {
    JumpMember(b, df, dr, t);
    var o := t - (8 * dr + df);
    assert Back(t, -(8 * dr + df)) == o;
    SquareCoords(o);
    SquareCoords(t);
  }

  lemma PushShape(s: PosState, T: Bitboard)
    requires T <= SinglePushes(s.side, PieceSet(s.board, Piece(s.side, Pawn)), Not(OccupiedSet(s.board)))
    ensures forall t :: t in T ==> PawnShape(s, Quiet(Back(t, BackDir(s.side)), t))
  {
    var pawns := PieceSet(s.board, Piece(s.side, Pawn));
    forall t | t in T
      ensures PawnShape(s, Quiet(Back(t, BackDir(s.side)), t))
    {
      if s.side == White { JumpGeometry(pawns, 0, 1, t); } else { JumpGeometry(pawns, 0, -1, t); }
    }
  }

  lemma DoubleShape(s: PosState)
    ensures var pawns := PieceSet(s.board, Piece(s.side, Pawn));
            forall t :: t in DoublePushes(s.side, pawns, Not(OccupiedSet(s.board))) ==>
              PawnShape(s, Quiet(Back(t, 2 * BackDir(s.side)), t))
  {
    var c := s.side;
    var pawns := PieceSet(s.board, Piece(c, Pawn));
    var empty := Not(OccupiedSet(s.board));
    var home := pawns * StartRank(c);
    var firstPush := PushAll(c, home) * empty;
    forall t | t in DoublePushes(c, pawns, empty)
      ensures PawnShape(s, Quiet(Back(t, 2 * BackDir(c)), t))
    {
      var dr := if c == White then 1 else -1;
      JumpGeometry(firstPush, 0, dr, t);
      var mid := t - 8 * dr;
      JumpGeometry(home, 0, dr, mid);
      assert Back(t, 2 * BackDir(c)) == mid - 8 * dr;
    }
  }

  lemma CaptureShape(s: PosState, T: Bitboard, df: int)
    requires df == -1 || df == 1
    requires var pawns := PieceSet(s.board, Piece(s.side, Pawn));
             T <= (if df == -1 then AttackLeft(s.side, pawns) else AttackRight(s.side, pawns)) * ColorSet(s.board, s.side.Other())
    ensures forall t :: t in T ==> PawnShape(s, Quiet(Back(t, if df == -1 then BackLeft(s.side) else BackRight(s.side)), t))
  {
    var pawns := PieceSet(s.board, Piece(s.side, Pawn));
    var dr := if s.side == White then 1 else -1;
    forall t | t in T
      ensures PawnShape(s, Quiet(Back(t, if df == -1 then BackLeft(s.side) else BackRight(s.side)), t))
    {
      JumpGeometry(pawns, df, dr, t);
    }
  }

  lemma EpShape(s: PosState, pawns: Bitboard)
    requires WellFormed(s) && pawns == PieceSet(s.board, Piece(s.side, Pawn))
    ensures forall mv :: mv in EpMoves(s.side, pawns, s.enPassant) ==> PawnShape(s, mv)
  {
    if s.enPassant.Some? {
      var e := s.enPassant.value;
      var dr := if s.side == White then 1 else -1;
      if e in AttackLeft(s.side, pawns) {
        JumpGeometry(pawns, -1, dr, e);
      }
      if e in AttackRight(s.side, pawns) {
        JumpGeometry(pawns, 1, dr, e);
      }
    }
  }

  /** Every move of the list has the pawn shape. */
  predicate AllShaped(s: PosState, moves: seq<Move>)
  {
    forall mv :: mv in moves ==> PawnShape(s, mv)
  }

  /** The pushes: quiet, promoting, double. */
  lemma PushesShape(s: PosState)
    ensures var us := s.side;
            var pawns := PieceSet(s.board, Piece(us, Pawn));
            var empty := Not(OccupiedSet(s.board));
            var single := SinglePushes(us, pawns, empty);
            && AllShaped(s, PawnMovesTo(Ascending(single * Not(PromoRank(us))), BackDir(us), false))
            && AllShaped(s, PawnMovesTo(Ascending(single * PromoRank(us)), BackDir(us), true))
            && AllShaped(s, PawnMovesTo(Ascending(DoublePushes(us, pawns, empty)), 2 * BackDir(us), false))
  {
    var us := s.side;
    var pawns := PieceSet(s.board, Piece(us, Pawn));
    var single := SinglePushes(us, pawns, Not(OccupiedSet(s.board)));
    PushShape(s, single * Not(PromoRank(us)));
    SegmentShape(s, single * Not(PromoRank(us)), BackDir(us), false);
    PushShape(s, single * PromoRank(us));
    SegmentShape(s, single * PromoRank(us), BackDir(us), true);
    DoubleShape(s);
    SegmentShape(s, DoublePushes(us, pawns, Not(OccupiedSet(s.board))), 2 * BackDir(us), false);
  }

  /** The captures on one side, quiet and promoting. */
  lemma CapturesShape(s: PosState, df: int)
    requires df == -1 || df == 1
    ensures var us := s.side;
            var pawns := PieceSet(s.board, Piece(us, Pawn));
            var hits := (if df == -1 then AttackLeft(us, pawns) else AttackRight(us, pawns)) * ColorSet(s.board, us.Other());
            var delta := if df == -1 then BackLeft(us) else BackRight(us);
            && AllShaped(s, PawnMovesTo(Ascending(hits * Not(PromoRank(us))), delta, false))
            && AllShaped(s, PawnMovesTo(Ascending(hits * PromoRank(us)), delta, true))
  {
    var us := s.side;
    var pawns := PieceSet(s.board, Piece(us, Pawn));
    var hits := (if df == -1 then AttackLeft(us, pawns) else AttackRight(us, pawns)) * ColorSet(s.board, us.Other());
    var delta := if df == -1 then BackLeft(us) else BackRight(us);
    CaptureShape(s, hits * Not(PromoRank(us)), df);
    SegmentShape(s, hits * Not(PromoRank(us)), delta, false);
    CaptureShape(s, hits * PromoRank(us), df);
    SegmentShape(s, hits * PromoRank(us), delta, true);
  }

  /** Every generated pawn move has the pawn shape. */
  lemma PawnMovesShape(s: PosState)
    requires WellFormed(s)
    ensures AllShaped(s, PawnMoves(s))
  {
    var us := s.side;
    var pawns := PieceSet(s.board, Piece(us, Pawn));
    var empty := Not(OccupiedSet(s.board));
    var single := SinglePushes(us, pawns, empty);
    var left := AttackLeft(us, pawns) * ColorSet(s.board, us.Other());
    var right := AttackRight(us, pawns) * ColorSet(s.board, us.Other());
    var promo := PromoRank(us);
    var s1 := PawnMovesTo(Ascending(single * Not(promo)), BackDir(us), false);
    var s2 := PawnMovesTo(Ascending(single * promo), BackDir(us), true);
    var s3 := PawnMovesTo(Ascending(DoublePushes(us, pawns, empty)), 2 * BackDir(us), false);
    var s4 := PawnMovesTo(Ascending(left * Not(promo)), BackLeft(us), false);
    var s5 := PawnMovesTo(Ascending(left * promo), BackLeft(us), true);
    var s6 := PawnMovesTo(Ascending(right * Not(promo)), BackRight(us), false);
    var s7 := PawnMovesTo(Ascending(right * promo), BackRight(us), true);
    var s8 := EpMoves(us, pawns, s.enPassant);
    assert PawnMoves(s) == s1 + s2 + s3 + s4 + s5 + s6 + s7 + s8;
    PushesShape(s);
    CapturesShape(s, -1);
    CapturesShape(s, 1);
    EpShape(s, pawns);
    assert AllShaped(s, s8);
  }

  // ---------------------------------------------------------------------
  // The shape of every generated move
  // ---------------------------------------------------------------------

  /**
   * A move whose flags and promotion follow from its two squares: it is a
   * castling move exactly when a king goes to a square it does not attack,
   * an en-passant capture exactly when a pawn changes file onto an empty
   * square, and it carries a promotion piece (queen, rook, bishop or
   * knight) exactly when a pawn reaches its last rank.
   */
  predicate Determined(s: PosState, mv: Move)
  {
    && mv.from < 64 && mv.to < 64 && s.board[mv.from].Some?
    && (mv.isCastle <==> s.board[mv.from].value.kind == King && mv.to !in KingAttacks(mv.from))
    && (mv.isEnPassant <==> s.board[mv.from].value.kind == Pawn && s.board[mv.to].None? && FileOf(mv.to) != FileOf(mv.from))
    && (mv.promo.Some? <==> s.board[mv.from].value.kind == Pawn && mv.to in PromoRank(s.side))
    && (mv.promo.Some? ==> mv.promo.value in PROMOTION_ORDER)
  }

  /** A move lands on an empty square or on one the mover attacks. */
  predicate Lands(s: PosState, mv: Move)
    requires mv.to < 64
  {
    s.board[mv.to].None? || Threats.Attacked(s.board, mv.to, s.side)
  }

  /** The facts every generated move satisfies. */
  predicate Generated(s: PosState, mv: Move)
  {
    && Determined(s, mv) && Lands(s, mv) && Sound(s, mv)
    && (s.board[mv.from].value.kind == Pawn ==> PawnShape(s, mv))
    && (mv.isCastle ==> mv in CastlingMoves(s))
  }

  lemma PawnGenerated(s: PosState, mv: Move)
    requires PawnShape(s, mv) && PromotesOn(mv, PromoRank(s.side)) && Sound(s, mv)
    ensures Generated(s, mv)
  {
    if !mv.isEnPassant && s.board[mv.to].Some? {
      assert mv.to in Threats.PieceAttacks(s.board[mv.from].value, mv.from, OccupiedSet(s.board));
    }
  }

  lemma PawnMovesGenerated(s: PosState)
    requires WellFormed(s)
    ensures forall mv :: mv in PawnMoves(s) ==> Generated(s, mv)
  {
    PawnMovesShape(s);
    PawnPromotionsOnly(s);
    PawnMovesSound(s);
    forall mv | mv in PawnMoves(s)
      ensures Generated(s, mv)
    {
      PawnGenerated(s, mv);
    }
  }

  lemma PieceMovesGenerated(s: PosState, k: PieceKind)
    requires k != Pawn
    ensures forall mv :: mv in PieceMoves(s, k) ==> Generated(s, mv)
  {
    PieceMovesSound(s, k);
    forall mv | mv in PieceMoves(s, k)
      ensures Generated(s, mv)
    {
      PieceMovesExactly(s, k, mv);
      assert Threats.PieceAttacks(s.board[mv.from].value, mv.from, OccupiedSet(s.board))
          == Threats.PieceAttacks(Piece(s.side, k), mv.from, OccupiedSet(s.board));
    }
  }

  lemma CastlingMovesGenerated(s: PosState)
    requires WellFormed(s)
    ensures forall mv :: mv in CastlingMoves(s) ==> Generated(s, mv)
  {
    CastlingMovesSound(s);
    forall mv | mv in CastlingMoves(s)
      ensures Generated(s, mv)
    {
      CastlingConditions(s, mv);
      assert mv.to !in KingAttacks(mv.from) by {
        assert DFile(mv.from, mv.to) == 2 || DFile(mv.from, mv.to) == -2;
      }
    }
  }

  /** In a well-formed position every pseudo-legal move is generated in the shape above. */
  lemma PseudoMovesGenerated(s: PosState)
    requires WellFormed(s)
    ensures forall mv :: mv in PseudoMoves(s) ==> Generated(s, mv)
  {
    PawnMovesGenerated(s);
    PieceMovesGenerated(s, Knight);
    PieceMovesGenerated(s, Bishop);
    PieceMovesGenerated(s, Rook);
    PieceMovesGenerated(s, Queen);
    PieceMovesGenerated(s, King);
    CastlingMovesGenerated(s);
  }

  /** Two generated moves between the same two squares differ at most in the promotion piece. */
  lemma SameSquaresSameFlags(s: PosState, a: Move, b: Move)
    requires Determined(s, a) && Determined(s, b) && a.from == b.from && a.to == b.to
    ensures a.isEnPassant == b.isEnPassant && a.isCastle == b.isCastle && a.promo.Some? == b.promo.Some?
  {
  }

  // ---------------------------------------------------------------------
  // Playable positions
  // ---------------------------------------------------------------------

  /** No colour has two kings. */
  predicate KingsUnique(board: Mailbox)
  {
    forall a, b :: 0 <= a < 64 && 0 <= b < 64 && board[a].Some? && board[a].value.kind == King && board[b] == board[a] ==> a == b
  }

  /**
   * A position reached in play: well formed (so the legal filter is
   * exact), one king per colour, and the side that just moved not in check.
   */
  predicate Playable(s: PosState)
  {
    && WellFormed(s) && Restorable(s) && KingsUnique(s.board)
    && !Threats.InCheck(s.board, s.side.Other())
  }

  /** With one king of a colour, that king is the one `in_check` looks at. */
  lemma LoneKing(board: Mailbox, q: nat, c: Color)
    requires KingsUnique(board) && q < 64 && board[q] == Some(Piece(c, King))
    ensures PieceSet(board, Piece(c, King)) == {q}
    ensures Lsb(PieceSet(board, Piece(c, King))) == Some(q)
  {
  }

  /** No generated move of a playable position captures the opponent's king. */
  lemma NoKingCapture(s: PosState, mv: Move)
    requires Playable(s) && Generated(s, mv)
    ensures s.board[mv.to] != Some(Piece(s.side.Other(), King))
  {
    if s.board[mv.to] == Some(Piece(s.side.Other(), King)) {
      LoneKing(s.board, mv.to, s.side.Other());
      assert Threats.InCheck(s.board, s.side.Other());
    }
  }

  /** Every legal move of a playable position is generated in the shape above and can be made. */
  lemma LegalGenerated(s: PosState, mv: Move)
    requires Playable(s) && mv in LegalMoves(s)
    ensures Generated(s, mv) && CanMake(s, mv) && Reversible(s, mv)
    ensures !Threats.InCheck(MakeState(s, mv).board, s.side)
  {
    LegalMovesExactly(s, mv);
    PseudoMovesGenerated(s);
    SoundReversible(s, mv);
  }

  /** The en-passant victim square lies on the rank behind the en-passant square, never on a back rank. */
  lemma VictimRank(s: PosState, mv: Move)
    requires Playable(s) && Generated(s, mv) && CanMake(s, mv) && EpCapture(s, mv).Some?
    ensures EpCapture(s, mv).value < 64 && RankOf(EpCapture(s, mv).value) == (if s.side == White then 4 else 3)
  {
    MakeRules.VictimBehind(s.board[mv.from].value.color, mv.to);
  }

  /** A back-rank square that the move neither leaves, enters nor uses for the rook keeps its occupant. */
  lemma BackRankKept(s: PosState, mv: Move, q: nat)
    requires Playable(s) && Generated(s, mv) && CanMake(s, mv)
    requires q < 64 && (RankOf(q) == 0 || RankOf(q) == 7) && q != mv.from && q != mv.to
    requires RookMove(s, mv).Some? ==> q != RookMove(s, mv).value.0 && q != RookMove(s, mv).value.1
    ensures MakeState(s, mv).board[q] == s.board[q]
  {
    if EpCapture(s, mv).Some? {
      VictimRank(s, mv);
    }
    MakeRules.MakeFrame(s, mv, q);
  }

  /** A king after the move is the moved king on its to-square, or a king that was already on its square. */
  lemma KingOrigin(s: PosState, mv: Move, q: nat)
    requires Playable(s) && Generated(s, mv) && CanMake(s, mv) && q < 64
    requires MakeState(s, mv).board[q].Some? && MakeState(s, mv).board[q].value.kind == King
    ensures (q == mv.to && s.board[mv.from] == MakeState(s, mv).board[q])
            || (q != mv.from && s.board[q] == MakeState(s, mv).board[q])
  {
    var b' := MakeState(s, mv).board;
    var moved := s.board[mv.from].value;
    MakeRules.MoverArrives(s, mv);
    if q == mv.to {
    } else if q == mv.from {
    } else if EpCapture(s, mv).Some? && q == EpCapture(s, mv).value {
      MakeRules.EnPassantRemovesVictim(s, mv);
    } else if RookMove(s, mv).Some? && (q == RookMove(s, mv).value.0 || q == RookMove(s, mv).value.1) {
      CastlingConditions(s, mv);
      MakeRules.CastlingMovesRook(s, mv);
    } else {
      MakeRules.MakeFrame(s, mv, q);
    }
  }

  lemma KingsStayUnique(s: PosState, mv: Move)
    requires Playable(s) && Generated(s, mv) && CanMake(s, mv)
    ensures KingsUnique(MakeState(s, mv).board)
  {
    var b' := MakeState(s, mv).board;
    forall a, b | 0 <= a < 64 && 0 <= b < 64 && b'[a].Some? && b'[a].value.kind == King && b'[b] == b'[a]
      ensures a == b
    {
      KingOrigin(s, mv, a);
      KingOrigin(s, mv, b);
    }
  }

  /** The corner a castling right belongs to, and that right. */
  function RightAt(cr: CastlingRights, corner: nat): bool
  {
    match corner
    case 7 => cr.wk
    case 0 => cr.wq
    case 63 => cr.bk
    case 56 => cr.bq
    case _ => false
  }

  /** A right still held after the move still has its king and rook at home. */
  lemma RightStillHome(s: PosState, mv: Move, x: Color, home: nat, corner: nat)
    requires Playable(s) && Generated(s, mv) && CanMake(s, mv)
    requires (x, home, corner) in {(White, 4, 7), (White, 4, 0), (Black, 60, 63), (Black, 60, 56)}
    requires RightAt(MakeState(s, mv).castling, corner)
    ensures MakeState(s, mv).board[home] == Some(Piece(x, King))
    ensures MakeState(s, mv).board[corner] == Some(Piece(x, Rook))
  {
    var c := s.side;
    var moved := s.board[mv.from].value;
    MakeRules.RightsOnlyShrink(s, mv);
    assert RightAt(s.castling, corner);
    assert s.board[home] == Some(Piece(x, King)) && s.board[corner] == Some(Piece(x, Rook));
    if x == c {
      if moved.kind == King {
        MakeRules.KingMoveDropsRights(s, mv);
        assert false;
      }
      if mv.from == corner {
        MakeRules.RookLeavingDropsRight(s, mv);
        assert false;
      }
    } else {
      NoKingCapture(s, mv);
      if mv.to == corner {
        MakeRules.RookCapturedDropsRight(s, mv);
        assert false;
      }
    }
    BackRankKept(s, mv, home);
    BackRankKept(s, mv, corner);
  }

  /** A new en-passant square is the empty square a double push passed over, on the rank the next side captures onto. */
  lemma EpStaysWellFormed(s: PosState, mv: Move)
    requires Playable(s) && Generated(s, mv) && CanMake(s, mv)
    requires MakeState(s, mv).enPassant.Some?
    ensures var e := MakeState(s, mv).enPassant.value;
            && e < 64 && MakeState(s, mv).board[e].None?
            && RankOf(e) == (if MakeState(s, mv).side == White then 5 else 2)
  {
    MakeRules.EnPassantOnlyOnDoublePush(s, mv);
    var e := MakeState(s, mv).enPassant.value;
    assert 0 <= Ahead(s.side, mv.from, 1) < 64 && e == Ahead(s.side, mv.from, 1) && s.board[e].None?;
    MakeRules.MakeFrame(s, mv, e);
  }

  /** Every legal move keeps a position playable. */
  lemma LegalKeepsPlayable(s: PosState, mv: Move)
    requires Playable(s) && mv in LegalMoves(s)
    ensures CanMake(s, mv) && Playable(MakeState(s, mv))
  {
    LegalGenerated(s, mv);
    var s' := MakeState(s, mv);
    if s'.castling.wk { RightStillHome(s, mv, White, 4, 7); }
    if s'.castling.wq { RightStillHome(s, mv, White, 4, 0); }
    if s'.castling.bk { RightStillHome(s, mv, Black, 60, 63); }
    if s'.castling.bq { RightStillHome(s, mv, Black, 60, 56); }
    if s'.enPassant.Some? { EpStaysWellFormed(s, mv); }
    assert WellFormed(s');
    WellFormedRestorable(s');
    KingsStayUnique(s, mv);
  }

  /** From the back rank, only the square straight below it lines up with e8, and that is the king's square. */
  lemma BackRankRayMisses(d: nat, a: nat)
    requires d < 8 && a < 8 && a != 4
    ensures 60 !in Ray(d, a)
  {
  }

  /** No slide from a back-rank square other than e1 reaches e8. */
  lemma SlideMisses(d: nat, a: nat, occ: Bitboard)
    requires d < 8 && a < 8 && a != 4
    ensures 60 !in Slide(d, a, occ)
  {
    BackRankRayMisses(d, a);
  }

  lemma BishopMisses(a: nat, occ: Bitboard)
    requires a < 8 && a != 4
    ensures 60 !in BishopAttacks(a, occ)
  {
    SlideUnionFour(1, 7, 3, 5, a, occ);
    SlideMisses(1, a, occ);
    SlideMisses(7, a, occ);
    SlideMisses(3, a, occ);
    SlideMisses(5, a, occ);
  }

  lemma RookMisses(a: nat, occ: Bitboard)
    requires a < 8 && a != 4
    ensures 60 !in RookAttacks(a, occ)
  {
    SlideUnionFour(0, 2, 4, 6, a, occ);
    SlideMisses(0, a, occ);
    SlideMisses(2, a, occ);
    SlideMisses(4, a, occ);
    SlideMisses(6, a, occ);
  }

  /** A white piece standing where the initial position puts white pieces does not attack e8. */
  lemma HomeSafe(p: Piece, a: nat, occ: Bitboard)
    requires a < 16 && (a >= 8 ==> p.kind == Pawn) && (a == 4 ==> p.kind == King)
    ensures 60 !in Threats.PieceAttacks(p, a, occ)
  {
    match p.kind
    case Bishop => BishopMisses(a, occ);
    case Rook => RookMisses(a, occ);
    case Queen => BishopMisses(a, occ); RookMisses(a, occ);
    case _ =>
  }

  /** The initial position has one king of each colour. */
  lemma StartKingsUnique()
    ensures KingsUnique(StartState().board)
  {
    var b := StartState().board;
    forall q | 0 <= q < 64 && b[q].Some? && b[q].value.kind == King
      ensures q == 4 || q == 60
    {
    }
  }

  /** In the initial position Black's king, the one White must not be able to take, is not attacked. */
  lemma StartNotInCheck()
    ensures !Threats.InCheck(StartState().board, Black)
  {
    var b := StartState().board;
    StartKingsUnique();
    LoneKing(b, 60, Black);
    forall a: nat | a < 64 && b[a].Some? && b[a].value.color == White
      ensures 60 !in Threats.PieceAttacks(b[a].value, a, OccupiedSet(b))
    {
      StartWhiteHome(a);
      HomeSafe(b[a].value, a, OccupiedSet(b));
    }
  }

  /** White's pieces start on the first two ranks: pawns on the second, the king on e1. */
  lemma StartWhiteHome(a: nat)
    requires a < 64 && StartState().board[a].Some? && StartState().board[a].value.color == White
    ensures var p := StartState().board[a].value;
            a < 16 && (a >= 8 ==> p.kind == Pawn) && (a == 4 ==> p.kind == King)
  {
  }

  /** The initial position is playable. */
  lemma StartPlayable()
    ensures Playable(StartState())
  {
    StartWellFormed();
    StartKingsUnique();
    StartNotInCheck();
  }

  /** Changing a move's promotion field only changes what lands on its to-square, and only when a pawn promotes there. */
  lemma PromoOverwrite(s: PosState, m: Move, x: Option<PieceKind>)
    requires CanMake(s, m)
    ensures CanMake(s, m.(promo := x))
    ensures var moved := s.board[m.from].value;
            var s1 := MakeState(s, m);
            MakeState(s, m.(promo := x)) ==
              if moved.kind == Pawn && PromotionRank(moved.color, RankOf(m.to))
              then s1.(board := s1.board[m.to := Some(Piece(moved.color, x.UnwrapOr(Queen)))])
              else s1
  {
    var moved := s.board[m.from].value;
    var m' := m.(promo := x);
    assert EpCapture(s, m') == EpCapture(s, m) && RookMove(s, m') == RookMove(s, m);
    if moved.kind == Pawn && PromotionRank(moved.color, RankOf(m.to)) {
      var b := MakeBoard(s, m);
      var b' := MakeBoard(s, m');
      assert b' == b[m.to := Some(Piece(moved.color, x.UnwrapOr(Queen)))];
    }
  }

  /** Attacks by colour e depend only on e's pieces and on which squares are occupied. */
  lemma SameAttackers(b1: Mailbox, b2: Mailbox, t: nat, e: Color)
    requires forall a :: 0 <= a < 64 ==> (b1[a].Some? <==> b2[a].Some?)
    requires forall a :: 0 <= a < 64 && b1[a].Some? && b1[a].value.color == e ==> b2[a] == b1[a]
    requires forall a :: 0 <= a < 64 && b2[a].Some? && b2[a].value.color == e ==> b2[a] == b1[a]
    ensures Threats.Attacked(b1, t, e) <==> Threats.Attacked(b2, t, e)
  {
    assert OccupiedSet(b1) == OccupiedSet(b2);
  }

  /** The conditions under which the piece on `to` may be swapped: a non-king of colour c on c's promotion rank. */
  predicate Swappable(board: Mailbox, to: nat, c: Color, k: PieceKind)
  {
    && to < 64 && k != King
    && board[to].Some? && board[to].value.color == c && board[to].value.kind != King
    && RankOf(to) == (if c == White then 7 else 0)
  }

  lemma SwapWellFormed(s1: PosState, to: nat, k: PieceKind)
    requires WellFormed(s1) && Swappable(s1.board, to, s1.side.Other(), k)
    ensures WellFormed(s1.(board := s1.board[to := Some(Piece(s1.side.Other(), k))]))
  {
  }

  lemma SwapKings(b1: Mailbox, to: nat, c: Color, k: PieceKind)
    requires KingsUnique(b1) && Swappable(b1, to, c, k)
    ensures KingsUnique(b1[to := Some(Piece(c, k))])
    ensures forall x :: PieceSet(b1[to := Some(Piece(c, k))], Piece(x, King)) == PieceSet(b1, Piece(x, King))
  {
    var b2 := b1[to := Some(Piece(c, k))];
    forall x ensures PieceSet(b2, Piece(x, King)) == PieceSet(b1, Piece(x, King)) {
    }
  }

  lemma SwapNotInCheck(b1: Mailbox, to: nat, c: Color, k: PieceKind)
    requires KingsUnique(b1) && Swappable(b1, to, c, k)
    requires !Threats.InCheck(b1, c)
    ensures !Threats.InCheck(b1[to := Some(Piece(c, k))], c)
  {
    var b2 := b1[to := Some(Piece(c, k))];
    SwapKings(b1, to, c, k);
    var kings := PieceSet(b1, Piece(c, King));
    if kings != {} {
      SameAttackers(b1, b2, Lsb(kings).value, c.Other());
    }
  }

  /** Replacing the piece a pawn just promoted to by another non-king piece keeps the position playable. */
  lemma SwapPromotedPiece(s1: PosState, to: nat, k: PieceKind)
    requires Playable(s1) && Swappable(s1.board, to, s1.side.Other(), k)
    ensures Playable(s1.(board := s1.board[to := Some(Piece(s1.side.Other(), k))]))
  {
    var s2 := s1.(board := s1.board[to := Some(Piece(s1.side.Other(), k))]);
    SwapWellFormed(s1, to, k);
    WellFormedRestorable(s2);
    SwapKings(s1.board, to, s1.side.Other(), k);
    SwapNotInCheck(s1.board, to, s1.side.Other(), k);
  }

  /** After a generated promotion, the promoted piece stands on its last rank and may be swapped. */
  lemma PromotionSwappable(s: PosState, m: Move, k: PieceKind)
    requires Generated(s, m) && CanMake(s, m) && k in PROMOTION_ORDER
    requires s.board[m.from].value.kind == Pawn && PromotionRank(s.board[m.from].value.color, RankOf(m.to))
    ensures Swappable(MakeState(s, m).board, m.to, MakeState(s, m).side.Other(), k)
  {
    MakeRules.MoverArrives(s, m);
  }

  /** Overwriting the promotion of a legal move by any promotion piece still leads to a playable position. */
  lemma OverwriteKeepsPlayable(s: PosState, m: Move, k: PieceKind)
    requires Playable(s) && m in LegalMoves(s) && k in PROMOTION_ORDER
    ensures CanMake(s, m.(promo := Some(k))) && Playable(MakeState(s, m.(promo := Some(k))))
  {
    LegalGenerated(s, m);
    LegalKeepsPlayable(s, m);
    PromoOverwrite(s, m, Some(k));
    var moved := s.board[m.from].value;
    if moved.kind == Pawn && PromotionRank(moved.color, RankOf(m.to)) {
      var s1 := MakeState(s, m);
      PromotionSwappable(s, m, k);
      SwapPromotedPiece(s1, m.to, k);
    }
  }
}
