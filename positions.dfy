/**
 * The value view of a chess position (crates/chess_core/src/board.rs):
 * the mailbox, side to move, castling rights, en-passant square and the
 * two clocks, together with the per-colour / per-kind bitboards that the
 * position keeps in step with the mailbox, and the specifications of
 * `make_move` and `unmake_move` as functions on these values.
 */
module Positions {
  import opened Wrappers
  import opened Types
  import opened Bitboards

  datatype CastlingRights = CastlingRights(wk: bool, wq: bool, bk: bool, bq: bool)

  /** The 64-entry mailbox `board: [Option<Piece>; 64]`. */
  type Mailbox = b: seq<Option<Piece>> | |b| == 64 witness seq(64, _ => None)

  /** A position without its redundant bitboards. */
  datatype PosState = PosState(
    board: Mailbox,
    side: Color,
    castling: CastlingRights,
    enPassant: Option<nat>,
    halfmove: nat,
    fullmove: nat)

  /** What `make_move` hands to `unmake_move`. */
  datatype Undo = Undo(
    captured: Option<Piece>,
    castling: CastlingRights,
    enPassant: Option<nat>,
    halfmove: nat,
    fullmove: nat,
    movedPiece: Piece,
    rookMove: Option<(nat, nat)>,
    epCapturedSq: Option<nat>)

  /** The squares holding piece p. */
  function PieceSet(board: Mailbox, p: Piece): Bitboard
  {
    set s: nat | s < 64 && board[s] == Some(p)
  }

  /** The squares holding a piece of colour c. */
  function ColorSet(board: Mailbox, c: Color): Bitboard
  {
    set s: nat | s < 64 && board[s].Some? && board[s].value.color == c
  }

  /** The occupied squares. */
  function OccupiedSet(board: Mailbox): (occ: Bitboard)
    ensures forall s :: 0 <= s < 64 ==> (s in occ <==> board[s].Some?)
  {
    ColorSet(board, White) + ColorSet(board, Black)
  }

  /** `PieceBitboards`: `by_color[color]` and `by_piece[color][kind]`. */
  datatype PieceBitboards = PieceBitboards(byColor: seq<Bitboard>, byPiece: seq<seq<Bitboard>>)
  {
    predicate Shaped()
    {
      |byColor| == 2 && |byPiece| == 2 && |byPiece[0]| == 6 && |byPiece[1]| == 6
    }

    /** `pieces(color, kind)`. */
    function Pieces(c: Color, k: PieceKind): Bitboard
      requires Shaped()
    {
      byPiece[c.Idx()][k.Idx()]
    }

    /** `color(color)`. */
    function OfColor(c: Color): Bitboard
      requires Shaped()
    {
      byColor[c.Idx()]
    }

    /** `occupied()`: both colours together. */
    function Occupied(): (occ: Bitboard)
      requires Shaped()
      ensures occ == OfColor(White) + OfColor(Black)
    {
      byColor[0] + byColor[1]
    }

    /** `set(sq, piece)`: the square joins the piece's colour board and kind board. */
    function Set(sq: nat, p: Piece): (r: PieceBitboards)
      requires Shaped() && sq < 64
      ensures r.Shaped()
      ensures forall c, k :: r.Pieces(c, k) == if Piece(c, k) == p then Pieces(c, k) + {sq} else Pieces(c, k)
      ensures forall c :: r.OfColor(c) == if c == p.color then OfColor(c) + {sq} else OfColor(c)
    {
      var ci := p.color.Idx();
      var ki := p.kind.Idx();
      var kinds: seq<Bitboard> := byPiece[ci][ki := byPiece[ci][ki] + {sq}];
      PieceBitboards(byColor[ci := byColor[ci] + {sq}], byPiece[ci := kinds])
    }

    /** `clear(sq, piece)`: the square leaves the piece's colour board and kind board. */
    function Clear(sq: nat, p: Piece): (r: PieceBitboards)
      requires Shaped()
      ensures r.Shaped()
      ensures forall c, k :: r.Pieces(c, k) == if Piece(c, k) == p then Pieces(c, k) - {sq} else Pieces(c, k)
      ensures forall c :: r.OfColor(c) == if c == p.color then OfColor(c) - {sq} else OfColor(c)
    {
      var ci := p.color.Idx();
      var ki := p.kind.Idx();
      var kinds: seq<Bitboard> := byPiece[ci][ki := byPiece[ci][ki] - {sq}];
      PieceBitboards(byColor[ci := byColor[ci] - {sq}], byPiece[ci := kinds])
    }
  }

  /** `PieceBitboards::default()`: every board empty. */
  const NO_BITBOARDS: PieceBitboards := PieceBitboards([EMPTY, EMPTY], [seq(6, _ => EMPTY), seq(6, _ => EMPTY)])

  /** The bitboards agree with the mailbox, square by square. */
  predicate Synced(bbs: PieceBitboards, board: Mailbox)
  {
    && bbs.Shaped()
    && (forall c, k :: bbs.Pieces(c, k) == PieceSet(board, Piece(c, k)))
    && (forall c :: bbs.OfColor(c) == ColorSet(board, c))
  }

  lemma EmptyBoardSynced()
    ensures Synced(NO_BITBOARDS, seq(64, _ => None))
  {
    var board: Mailbox := seq(64, _ => None);
    forall c, k
      ensures NO_BITBOARDS.Pieces(c, k) == PieceSet(board, Piece(c, k))
    {
      assert forall s :: 0 <= s < 64 ==> board[s] == None;
    }
  }

  /** The mailbox determines the bitboards: two sets of bitboards that both agree with it are equal. */
  lemma SyncedUnique(a: PieceBitboards, b: PieceBitboards, board: Mailbox)
    requires Synced(a, board) && Synced(b, board)
    ensures a == b
  {
    assert a.byColor[0] == a.OfColor(White) && b.byColor[0] == b.OfColor(White);
    assert a.byColor[1] == a.OfColor(Black) && b.byColor[1] == b.OfColor(Black);
    forall ci, ki | 0 <= ci < 2 && 0 <= ki < 6
      ensures a.byPiece[ci][ki] == b.byPiece[ci][ki]
    {
      var c := if ci == 0 then White else Black;
      var k := if ki == 0 then Pawn else if ki == 1 then Knight else if ki == 2 then Bishop
               else if ki == 3 then Rook else if ki == 4 then Queen else King;
      assert a.byPiece[ci][ki] == a.Pieces(c, k) && b.byPiece[ci][ki] == b.Pieces(c, k);
    }
    assert a.byPiece[0] == b.byPiece[0];
    assert a.byPiece[1] == b.byPiece[1];
  }

  /** The bitboard update `set_piece` performs: clear the old occupant, then set the new one. */
  function SetPieceBitboards(bbs: PieceBitboards, prev: Option<Piece>, sq: nat, pc: Option<Piece>): (r: PieceBitboards)
    requires bbs.Shaped() && sq < 64
    ensures r.Shaped()
  {
    var cleared := if prev.Some? then bbs.Clear(sq, prev.value) else bbs;
    if pc.Some? then cleared.Set(sq, pc.value) else cleared
  }

  /** `set_piece` keeps the bitboards in step with the mailbox. */
  lemma SetPieceSync(bbs: PieceBitboards, board: Mailbox, sq: nat, pc: Option<Piece>)
    requires Synced(bbs, board) && sq < 64
    ensures Synced(SetPieceBitboards(bbs, board[sq], sq, pc), board[sq := pc])
  {
    var r := SetPieceBitboards(bbs, board[sq], sq, pc);
    var after: Mailbox := board[sq := pc];
    forall c, k
      ensures r.Pieces(c, k) == PieceSet(after, Piece(c, k))
    {
      PieceSetUpdate(board, sq, pc, Piece(c, k));
    }
    forall c
      ensures r.OfColor(c) == ColorSet(after, c)
    {
      ColorSetUpdate(board, sq, pc, c);
    }
  }

  lemma PieceSetUpdate(board: Mailbox, sq: nat, pc: Option<Piece>, p: Piece)
    requires sq < 64
    ensures PieceSet(board[sq := pc], p) == (PieceSet(board, p) - {sq}) + (if pc == Some(p) then {sq} else {})
  {
  }

  lemma ColorSetUpdate(board: Mailbox, sq: nat, pc: Option<Piece>, c: Color)
    requires sq < 64
    ensures ColorSet(board[sq := pc], c) == (ColorSet(board, c) - {sq}) + (if pc.Some? && pc.value.color == c then {sq} else {})
  {
  }

  /** The back rank, file by file. */
  const BACK_RANK: seq<PieceKind> := [Rook, Knight, Bishop, Queen, King, Bishop, Knight, Rook]

  /** The occupant of a square in the initial position. */
  function StartPiece(sq: nat): Option<Piece>
    requires sq < 64
  {
    var f := sq % 8;
    if sq < 8 then Some(Piece(White, BACK_RANK[f]))
    else if sq < 16 then Some(Piece(White, Pawn))
    else if sq < 48 then None
    else if sq < 56 then Some(Piece(Black, Pawn))
    else Some(Piece(Black, BACK_RANK[f]))
  }

  /** `Position::startpos()`. */
  function StartState(): PosState
  {
    PosState(seq(64, i requires 0 <= i < 64 => StartPiece(i)), White, CastlingRights(true, true, true, true), None, 0, 1)
  }

  // ---------------------------------------------------------------------
  // make_move
  // ---------------------------------------------------------------------

  /** A pawn of this colour arriving on this rank promotes. */
  predicate PromotionRank(c: Color, rank: int)
  {
    (c == White && rank == 7) || (c == Black && rank == 0)
  }

  /** The square of the pawn taken en passant by a pawn of colour c landing on `to`, if on the board. */
  function EpVictimSquare(c: Color, to: nat): Option<nat>
  {
    Sq(FileOf(to), RankOf(to) + (if c == White then -1 else 1))
  }

  /** The rook's (from, to) for a castling king move, by colour and king squares. */
  function CastleRookSquares(c: Color, from: nat, to: nat): (r: Option<(nat, nat)>)
    ensures r.Some? ==> r.value.0 < 64 && r.value.1 < 64 && r.value.0 != r.value.1
    ensures r.Some? ==> r.value.0 != from && r.value.0 != to && r.value.1 != from && r.value.1 != to
  {
    match (c, from, to)
    case (White, 4, 6) => Some((7, 5))
    case (White, 4, 2) => Some((0, 3))
    case (Black, 60, 62) => Some((63, 61))
    case (Black, 60, 58) => Some((56, 59))
    case _ => None
  }

  /** The rights left after the mover leaves `from`: a king loses both, a rook its corner's. */
  function RightsAfterMove(cr: CastlingRights, moved: Piece, from: nat): CastlingRights
  {
    match moved.color
    case White =>
      if moved.kind == King then cr.(wk := false, wq := false)
      else if moved.kind == Rook then
        (var a := if from == 0 then cr.(wq := false) else cr;
         if from == 7 then a.(wk := false) else a)
      else cr
    case Black =>
      if moved.kind == King then cr.(bk := false, bq := false)
      else if moved.kind == Rook then
        (var a := if from == 56 then cr.(bq := false) else cr;
         if from == 63 then a.(bk := false) else a)
      else cr
  }

  /** The rights left after a rook is captured on `to`: the right of that corner goes. */
  function RightsAfterCapture(cr: CastlingRights, captured: Option<Piece>, to: nat): CastlingRights
  {
    if captured.Some? && captured.value.kind == Rook then
      match captured.value.color
      case White =>
        (var a := if to == 0 then cr.(wq := false) else cr;
         if to == 7 then a.(wk := false) else a)
      case Black =>
        (var a := if to == 56 then cr.(bq := false) else cr;
         if to == 63 then a.(bk := false) else a)
    else cr
  }

  /** The square a pawn passes over on a double push, if this move is one. */
  function DoublePushSquare(moved: Piece, from: nat, to: nat): Option<nat>
  {
    if moved.kind == Pawn
       && ((moved.color == White && RankOf(from) == 1 && RankOf(to) == 3)
           || (moved.color == Black && RankOf(from) == 6 && RankOf(to) == 4))
    then Sq(FileOf(from), (RankOf(from) + RankOf(to)) / 2)
    else None
  }

  /** The en-passant victim `make_move` removes, if the move is flagged en passant. */
  function EpCapture(s: PosState, mv: Move): Option<nat>
    requires mv.from < 64 && s.board[mv.from].Some?
  {
    if mv.isEnPassant then EpVictimSquare(s.board[mv.from].value.color, mv.to) else None
  }

  /** The rook relocation `make_move` performs, if the move is a castling king move. */
  function RookMove(s: PosState, mv: Move): Option<(nat, nat)>
    requires mv.from < 64 && s.board[mv.from].Some?
  {
    var moved := s.board[mv.from].value;
    if mv.isCastle && moved.kind == King then CastleRookSquares(moved.color, mv.from, mv.to) else None
  }

  /**
   * What `make_move` demands: a piece on the from-square (`expect`), and
   * an occupant on the rook's corner for a castling king move, still
   * there after any en-passant removal (`unwrap`).
   */
  predicate CanMake(s: PosState, mv: Move)
  {
    && mv.from < 64 && mv.to < 64
    && s.board[mv.from].Some?
    && (RookMove(s, mv).Some? ==> s.board[RookMove(s, mv).value.0].Some?
                                  && EpCapture(s, mv) != Some(RookMove(s, mv).value.0))
  }

  /** The mailbox after the pieces of the move have been placed. */
  function MakeBoard(s: PosState, mv: Move): Mailbox
    requires CanMake(s, mv)
  {
    var moved := s.board[mv.from].value;
    var cs := EpCapture(s, mv);
    var b1 := if cs.Some? then s.board[cs.value := None] else s.board;
    var b2 := b1[mv.from := None][mv.to := Some(moved)];
    var b3 := if moved.kind == Pawn && PromotionRank(moved.color, RankOf(mv.to))
              then b2[mv.to := Some(Piece(moved.color, mv.promo.UnwrapOr(Queen)))]
              else b2;
    var rm := RookMove(s, mv);
    if rm.Some? then b3[rm.value.0 := None][rm.value.1 := b3[rm.value.0]] else b3
  }

  /** The piece `make_move` reports as captured (the en-passant victim when there is one). */
  function Captured(s: PosState, mv: Move): Option<Piece>
    requires CanMake(s, mv)
  {
    var cs := EpCapture(s, mv);
    if cs.Some? then s.board[cs.value] else s.board[mv.to]
  }

  /** Whether `make_move` resets the halfmove clock. */
  predicate ResetsClock(s: PosState, mv: Move)
    requires CanMake(s, mv)
  {
    var moved := s.board[mv.from].value;
    if mv.isCastle && moved.kind == King then false
    else moved.kind == Pawn || s.board[mv.to].Some? || EpCapture(s, mv).Some?
         || (moved.kind == Pawn && PromotionRank(moved.color, RankOf(mv.to)))
  }

  /** `make_move`: the position after the move. */
  function MakeState(s: PosState, mv: Move): PosState
    requires CanMake(s, mv)
  {
    var moved := s.board[mv.from].value;
    PosState(
      MakeBoard(s, mv),
      s.side.Other(),
      RightsAfterCapture(RightsAfterMove(s.castling, moved, mv.from), Captured(s, mv), mv.to),
      DoublePushSquare(moved, mv.from, mv.to),
      if ResetsClock(s, mv) then 0 else s.halfmove + 1,
      if s.side == Black then s.fullmove + 1 else s.fullmove)
  }

  /** `make_move`: the undo record it returns. */
  function MakeUndo(s: PosState, mv: Move): Undo
    requires CanMake(s, mv)
  {
    Undo(Captured(s, mv), s.castling, s.enPassant, s.halfmove, s.fullmove,
         s.board[mv.from].value, RookMove(s, mv), EpCapture(s, mv))
  }

  // ---------------------------------------------------------------------
  // unmake_move
  // ---------------------------------------------------------------------

  /** The mailbox once the castling rook has gone back. */
  function UnmakeRookBoard(board: Mailbox, undo: Undo): Mailbox
    requires undo.rookMove.Some? ==> undo.rookMove.value.0 < 64 && undo.rookMove.value.1 < 64
  {
    if undo.rookMove.Some? then
      var (rf, rt) := undo.rookMove.value;
      board[rt := None][rf := board[rt]]
    else board
  }

  /**
   * What `unmake_move` demands: the rook on its castling destination and
   * a piece on the to-square (both `unwrap`), every square on the board.
   */
  predicate CanUnmake(s: PosState, mv: Move, undo: Undo)
  {
    && mv.from < 64 && mv.to < 64
    && (undo.rookMove.Some? ==> undo.rookMove.value.0 < 64 && undo.rookMove.value.1 < 64
                                && s.board[undo.rookMove.value.1].Some?)
    && (undo.epCapturedSq.Some? ==> undo.epCapturedSq.value < 64)
    && UnmakeRookBoard(s.board, undo)[mv.to].Some?
  }

  /** `unmake_move`: the position it restores from the undo record. */
  function UnmakeState(s: PosState, mv: Move, undo: Undo): PosState
    requires CanUnmake(s, mv, undo)
  {
    var b1 := UnmakeRookBoard(s.board, undo);
    var onTo := b1[mv.to].value;
    var back := if undo.movedPiece.kind == Pawn && PromotionRank(undo.movedPiece.color, RankOf(mv.to))
                then Piece(undo.movedPiece.color, Pawn)
                else onTo;
    var b2 := b1[mv.to := None][mv.from := Some(back)];
    var b3 := if mv.isEnPassant then
                (if undo.epCapturedSq.Some? then b2[undo.epCapturedSq.value := undo.captured] else b2)
              else b2[mv.to := undo.captured];
    PosState(b3, s.side.Other(), undo.castling, undo.enPassant, undo.halfmove, undo.fullmove)
  }

  /**
   * The moves `unmake_move` takes back exactly: beyond what `make_move`
   * demands, an en-passant move must land on an empty square and a
   * castling rook's destination must be empty, since `make_move`
   * overwrites those squares without recording them.
   */
  predicate Reversible(s: PosState, mv: Move)
  {
    && CanMake(s, mv)
    && (mv.isEnPassant ==> s.board[mv.to].None?)
    && (RookMove(s, mv).Some? ==> s.board[RookMove(s, mv).value.1].None?)
  }

  /** `unmake_move` can always run on what `make_move` returns. */
  lemma MakeThenCanUnmake(s: PosState, mv: Move)
    requires CanMake(s, mv)
    ensures CanUnmake(MakeState(s, mv), mv, MakeUndo(s, mv))
  {
    var rm := RookMove(s, mv);
    if rm.Some? {
      assert MakeBoard(s, mv)[rm.value.1].Some?;
    }
  }

  /** `unmake_move(mv, make_move(mv))` gives back the position it started from. */
  lemma UnmakeMake(s: PosState, mv: Move)
    requires Reversible(s, mv)
    ensures CanUnmake(MakeState(s, mv), mv, MakeUndo(s, mv))
    ensures UnmakeState(MakeState(s, mv), mv, MakeUndo(s, mv)) == s
  {
    MakeThenCanUnmake(s, mv);
    var after := UnmakeState(MakeState(s, mv), mv, MakeUndo(s, mv));
    forall q | 0 <= q < 64
      ensures after.board[q] == s.board[q]
    {
      UnmakeMakeSquare(s, mv, q);
    }
    assert after.board == s.board;
  }

  lemma UnmakeMakeSquare(s: PosState, mv: Move, q: nat)
    requires Reversible(s, mv) && q < 64
    requires CanUnmake(MakeState(s, mv), mv, MakeUndo(s, mv))
    ensures UnmakeState(MakeState(s, mv), mv, MakeUndo(s, mv)).board[q] == s.board[q]
  {
  }
}
