/**
 * The rules `make_move` (crates/chess_core/src/board.rs) follows, stated
 * on its specification `Positions.MakeState`: side and clocks, castling
 * rights, the en-passant square, the en-passant victim and the castling
 * rook.
 */
module MakeRules {
  import opened Wrappers
  import opened Types
  import opened Positions

  /** Every right held after is a right held before. */
  predicate RightsWithin(after: CastlingRights, before: CastlingRights)
  {
    && (after.wk ==> before.wk) && (after.wq ==> before.wq)
    && (after.bk ==> before.bk) && (after.bq ==> before.bq)
  }

  /** The side to move alternates; the fullmove number counts Black's moves. */
  lemma SideAndFullmove(s: PosState, mv: Move)
    requires CanMake(s, mv)
    ensures MakeState(s, mv).side == s.side.Other() && MakeState(s, mv).side != s.side
    ensures MakeState(s, mv).fullmove == if s.side == Black then s.fullmove + 1 else s.fullmove
  {
  }

  /**
   * The halfmove clock restarts at zero after a pawn move, a capture on
   * the to-square or an en-passant capture, and otherwise grows by one; a
   * castling king move always only makes it grow.
   */
  lemma HalfmoveRule(s: PosState, mv: Move)
    requires CanMake(s, mv)
    ensures var moved := s.board[mv.from].value;
            var after := MakeState(s, mv).halfmove;
            if mv.isCastle && moved.kind == King then after == s.halfmove + 1
            else if moved.kind == Pawn || s.board[mv.to].Some? || EpCapture(s, mv).Some? then after == 0
            else after == s.halfmove + 1
  {
  }

  /** A quiet piece move (not a pawn, not a capture, no flags) increments the clock. */
  lemma QuietMoveCounts(s: PosState, mv: Move)
    requires CanMake(s, mv) && s.board[mv.from].value.kind != Pawn
    requires s.board[mv.to].None? && !mv.isEnPassant
    ensures MakeState(s, mv).halfmove == s.halfmove + 1
  {
    HalfmoveRule(s, mv);
  }

  /** Castling rights only ever shrink: `make_move` never grants one. */
  lemma RightsOnlyShrink(s: PosState, mv: Move)
    requires CanMake(s, mv)
    ensures RightsWithin(MakeState(s, mv).castling, s.castling)
  {
    var moved := s.board[mv.from].value;
    var mid := RightsAfterMove(s.castling, moved, mv.from);
    assert RightsWithin(mid, s.castling);
    assert RightsWithin(RightsAfterCapture(mid, Captured(s, mv), mv.to), mid);
  }

  /** Rights shrink along any sequence of moves. */
  lemma RightsWithinTransitive(a: CastlingRights, b: CastlingRights, c: CastlingRights)
    requires RightsWithin(a, b) && RightsWithin(b, c)
    ensures RightsWithin(a, c)
  {
  }

  /** A king move gives up both rights of its colour. */
  lemma KingMoveDropsRights(s: PosState, mv: Move)
    requires CanMake(s, mv) && s.board[mv.from].value.kind == King
    ensures s.board[mv.from].value.color == White ==> !MakeState(s, mv).castling.wk && !MakeState(s, mv).castling.wq
    ensures s.board[mv.from].value.color == Black ==> !MakeState(s, mv).castling.bk && !MakeState(s, mv).castling.bq
  {
  }

  /** A rook leaving its corner gives up the right on that side. */
  lemma RookLeavingDropsRight(s: PosState, mv: Move)
    requires CanMake(s, mv) && s.board[mv.from].value.kind == Rook
    ensures var c := s.board[mv.from].value.color; var cr := MakeState(s, mv).castling;
            && (c == White && mv.from == 7 ==> !cr.wk)
            && (c == White && mv.from == 0 ==> !cr.wq)
            && (c == Black && mv.from == 63 ==> !cr.bk)
            && (c == Black && mv.from == 56 ==> !cr.bq)
  {
  }

  /** A rook captured on its corner takes the right on that side with it. */
  lemma RookCapturedDropsRight(s: PosState, mv: Move)
    requires CanMake(s, mv) && Captured(s, mv).Some? && Captured(s, mv).value.kind == Rook
    ensures var c := Captured(s, mv).value.color; var cr := MakeState(s, mv).castling;
            && (c == White && mv.to == 7 ==> !cr.wk)
            && (c == White && mv.to == 0 ==> !cr.wq)
            && (c == Black && mv.to == 63 ==> !cr.bk)
            && (c == Black && mv.to == 56 ==> !cr.bq)
  {
  }

  /** A move by neither king nor rook that lands on no corner leaves the rights as they were. */
  lemma RightsKeptOtherwise(s: PosState, mv: Move)
    requires CanMake(s, mv) && s.board[mv.from].value.kind != King && s.board[mv.from].value.kind != Rook
    requires mv.to != 0 && mv.to != 7 && mv.to != 56 && mv.to != 63
    ensures MakeState(s, mv).castling == s.castling
  {
  }

  /**
   * The en-passant square is set exactly by a pawn's double push from its
   * home rank, and it is the square the pawn passed over.
   */
  lemma EnPassantOnlyOnDoublePush(s: PosState, mv: Move)
    requires CanMake(s, mv)
    ensures var moved := s.board[mv.from].value;
            MakeState(s, mv).enPassant.Some? <==>
              && moved.kind == Pawn
              && ((moved.color == White && RankOf(mv.from) == 1 && RankOf(mv.to) == 3)
                  || (moved.color == Black && RankOf(mv.from) == 6 && RankOf(mv.to) == 4))
    ensures var moved := s.board[mv.from].value;
            MakeState(s, mv).enPassant.Some? ==>
              MakeState(s, mv).enPassant.value == if moved.color == White then mv.from + 8 else mv.from - 8
  {
    var moved := s.board[mv.from].value;
    var ep := DoublePushSquare(moved, mv.from, mv.to);
    if moved.kind == Pawn && moved.color == White && RankOf(mv.from) == 1 && RankOf(mv.to) == 3 {
      assert (RankOf(mv.from) + RankOf(mv.to)) / 2 == 2;
      SqOfFileRank(mv.from + 8);
      assert ep == Some(mv.from + 8);
    } else if moved.kind == Pawn && moved.color == Black && RankOf(mv.from) == 6 && RankOf(mv.to) == 4 {
      assert (RankOf(mv.from) + RankOf(mv.to)) / 2 == 5;
      SqOfFileRank(mv.from - 8);
      assert ep == Some(mv.from - 8);
    }
  }

  /** The victim square of an en-passant capture landing on `to` is on the rank behind `to`. */
  lemma VictimBehind(c: Color, to: nat)
    requires to < 64 && EpVictimSquare(c, to).Some?
    ensures var v := EpVictimSquare(c, to).value;
            v < 64 && v == (if c == White then to - 8 else to + 8) && v != to
  {
    var v := EpVictimSquare(c, to).value;
    var r := RankOf(to) + (if c == White then -1 else 1);
    assert FileOf(v) == FileOf(to) && RankOf(v) == r;
  }

  /**
   * An en-passant capture removes the pawn behind the target square and
   * reports it as the captured piece.
   */
  lemma EnPassantRemovesVictim(s: PosState, mv: Move)
    requires CanMake(s, mv) && mv.isEnPassant && s.board[mv.from].value.kind == Pawn
    requires EpVictimSquare(s.board[mv.from].value.color, mv.to).Some?
    ensures var v := EpVictimSquare(s.board[mv.from].value.color, mv.to).value;
            && MakeState(s, mv).board[v].None?
            && Captured(s, mv) == s.board[v]
            && MakeUndo(s, mv).epCapturedSq == Some(v)
  {
    VictimBehind(s.board[mv.from].value.color, mv.to);
  }

  /**
   * Castling (a king move flagged as castling between the king's home and
   * one of its castling squares) moves the rook from its corner to the
   * square the king crossed.
   */
  lemma CastlingMovesRook(s: PosState, mv: Move)
    requires CanMake(s, mv) && mv.isCastle && !mv.isEnPassant && s.board[mv.from].value.kind == King
    requires CastleRookSquares(s.board[mv.from].value.color, mv.from, mv.to).Some?
    ensures var (rf, rt) := CastleRookSquares(s.board[mv.from].value.color, mv.from, mv.to).value;
            var b := MakeState(s, mv).board;
            && b[rt] == s.board[rf] && b[rf].None?
            && b[mv.to] == s.board[mv.from] && b[mv.from].None?
            && rt == (mv.from + mv.to) / 2
    ensures MakeUndo(s, mv).rookMove == CastleRookSquares(s.board[mv.from].value.color, mv.from, mv.to)
  {
  }

  /** The moved piece arrives on the to-square, promoted when a pawn reaches its last rank. */
  lemma MoverArrives(s: PosState, mv: Move)
    requires CanMake(s, mv)
    ensures var moved := s.board[mv.from].value;
            MakeState(s, mv).board[mv.to] ==
              if moved.kind == Pawn && PromotionRank(moved.color, RankOf(mv.to))
              then Some(Piece(moved.color, mv.promo.UnwrapOr(Queen)))
              else Some(moved)
    ensures mv.from != mv.to ==> MakeState(s, mv).board[mv.from].None?
  {
    var moved := s.board[mv.from].value;
    var rm := RookMove(s, mv);
    if rm.Some? {
      assert rm.value.0 != mv.to && rm.value.1 != mv.to;
      assert rm.value.0 != mv.from && rm.value.1 != mv.from;
    }
  }

  /** Every square other than the from- and to-squares, the victim and the rook's two squares keeps its occupant. */
  lemma MakeFrame(s: PosState, mv: Move, q: nat)
    requires CanMake(s, mv) && q < 64 && q != mv.from && q != mv.to
    requires EpCapture(s, mv).Some? ==> q != EpCapture(s, mv).value
    requires RookMove(s, mv).Some? ==> q != RookMove(s, mv).value.0 && q != RookMove(s, mv).value.1
    ensures MakeState(s, mv).board[q] == s.board[q]
  {
  }
}
