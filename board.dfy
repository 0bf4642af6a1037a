/**
 * `Position` (crates/chess_core/src/board.rs): the mailbox together with
 * the per-colour and per-kind bitboards, side to move, castling rights,
 * en-passant square and the two clocks, updated in place by `set_piece`,
 * `make_move` and `unmake_move`. Every method is proved against the value
 * specifications of module Positions; `Valid()` is the invariant that the
 * bitboards and the mailbox describe the same board.
 */
module Board {
  import opened Wrappers
  import opened Types
  import opened Bitboards
  import opened Attacks
  import opened Positions
  import Threats
  import Hashing
  import Draws

  /** The occupants the start-position set-up has placed after `pawnFiles` pawn pairs and `backFiles` back-rank pairs. */
  function StartBoardSoFar(pawnFiles: nat, backFiles: nat): Mailbox
  {
    seq(64, i requires 0 <= i < 64 =>
      if (8 <= i < 8 + pawnFiles) || (48 <= i < 48 + pawnFiles) || i < backFiles || (56 <= i < 56 + backFiles)
      then StartPiece(i) else None)
  }

  lemma PawnPairPlaced(f: nat)
    requires f < 8
    ensures StartBoardSoFar(f, 0)[8 + f := Some(Piece(White, Pawn))][48 + f := Some(Piece(Black, Pawn))] == StartBoardSoFar(f + 1, 0)
  {
  }

  lemma BackPairPlaced(f: nat)
    requires f < 8
    ensures StartBoardSoFar(8, f)[f := Some(Piece(White, BACK_RANK[f]))][56 + f := Some(Piece(Black, BACK_RANK[f]))] == StartBoardSoFar(8, f + 1)
  {
  }

  lemma StartBoardComplete()
    ensures StartBoardSoFar(8, 8) == StartState().board
  {
  }

  /** The first n squares of a mailbox, the rest emptied. */
  function BoardPrefix(b: Mailbox, n: nat): Mailbox
  {
    seq(64, i requires 0 <= i < 64 => if i < n then b[i] else None)
  }

  class Position {
    var board: Mailbox
    var bitboards: PieceBitboards
    var sideToMove: Color
    var castling: CastlingRights
    var enPassant: Option<nat>
    var halfmoveClock: nat
    var fullmoveNumber: nat

    /** The bitboards are exactly those of the mailbox. */
    ghost predicate Valid()
      reads this`board, this`bitboards
    {
      Synced(bitboards, board)
    }

    /** The position as a value. */
    function State(): PosState
      reads this
    {
      PosState(board, sideToMove, castling, enPassant, halfmoveClock, fullmoveNumber)
    }

    /** `Position::startpos()`: empty board, then pawns file by file, then the back ranks. */
    constructor StartPos()
      ensures Valid() && State() == StartState()
    {
      board := seq(64, _ => None);
      bitboards := NO_BITBOARDS;
      sideToMove := White;
      castling := CastlingRights(true, true, true, true);
      enPassant := None;
      halfmoveClock := 0;
      fullmoveNumber := 1;
      new;
      EmptyBoardSynced();
      assert board == StartBoardSoFar(0, 0);
      for f := 0 to 8
        invariant Valid()
        invariant State() == StartState().(board := StartBoardSoFar(f, 0))
      {
        SetPiece(8 + f, Some(Piece(White, Pawn)));
        SetPiece(48 + f, Some(Piece(Black, Pawn)));
        PawnPairPlaced(f);
      }
      for f := 0 to 8
        invariant Valid()
        invariant State() == StartState().(board := StartBoardSoFar(8, f))
      {
        var kind := BACK_RANK[f];
        SetPiece(f, Some(Piece(White, kind)));
        SetPiece(56 + f, Some(Piece(Black, kind)));
        BackPairPlaced(f);
      }
      StartBoardComplete();
    }

    /**
     * The end of `from_fen`: the mailbox and fields it parsed, with the
     * bitboards built by setting every occupied square in turn.
     */
    constructor FromParts(b: Mailbox, side: Color, cr: CastlingRights, ep: Option<nat>, hmc: nat, fmn: nat)
      ensures Valid() && State() == PosState(b, side, cr, ep, hmc, fmn)
    {
      var bbs := NO_BITBOARDS;
      EmptyBoardSynced();
      assert BoardPrefix(b, 0) == seq(64, _ => None);
      for sq := 0 to 64
        invariant Synced(bbs, BoardPrefix(b, sq))
      {
        SetPieceSync(bbs, BoardPrefix(b, sq), sq, b[sq]);
        assert BoardPrefix(b, sq)[sq := b[sq]] == BoardPrefix(b, sq + 1);
        if b[sq].Some? {
          bbs := bbs.Set(sq, b[sq].value);
        }
      }
      assert BoardPrefix(b, 64) == b;
      board := b;
      bitboards := bbs;
      sideToMove := side;
      castling := cr;
      enPassant := ep;
      halfmoveClock := hmc;
      fullmoveNumber := fmn;
    }

    /** `clone()`: an independent position with the same contents. */
    constructor Clone(other: Position)
      requires other.Valid()
      ensures Valid() && State() == other.State()
    {
      board := other.board;
      bitboards := other.bitboards;
      sideToMove := other.sideToMove;
      castling := other.castling;
      enPassant := other.enPassant;
      halfmoveClock := other.halfmoveClock;
      fullmoveNumber := other.fullmoveNumber;
    }

    /** `king_sq(c)`: the lowest square holding a king of colour c. */
    function KingSq(c: Color): (k: Option<nat>)
      reads this
      requires Valid()
      ensures k.None? <==> forall s :: 0 <= s < 64 ==> board[s] != Some(Piece(c, King))
      ensures k.Some? ==> k.value < 64 && board[k.value] == Some(Piece(c, King))
                          && forall s :: 0 <= s < k.value ==> board[s] != Some(Piece(c, King))
      ensures k == Lsb(PieceSet(board, Piece(c, King)))
    {
      var kings := bitboards.Pieces(c, King);
      assert forall s :: s in kings <==> 0 <= s < 64 && board[s] == Some(Piece(c, King));
      Lsb(kings)
    }

    /**
     * `set_piece(sq, pc)`: drop the old occupant from the bitboards, add
     * the new one, and write the mailbox entry; nothing else changes.
     */
    method SetPiece(sq: nat, pc: Option<Piece>)
      requires Valid() && sq < 64
      modifies this`board, this`bitboards
      ensures Valid()
      ensures board == old(board)[sq := pc]
    {
      SetPieceSync(bitboards, board, sq, pc);
      if board[sq].Some? {
        bitboards := bitboards.Clear(sq, board[sq].value);
      }
      if pc.Some? {
        bitboards := bitboards.Set(sq, pc.value);
      }
      board := board[sq := pc];
    }

    /**
     * `is_square_attacked(target, by)`: looks backwards from the target
     * with each attack pattern against the attacker's bitboards; true
     * exactly when some piece of that colour attacks the square.
     */
    method IsSquareAttacked(target: nat, attacker: Color) returns (attacked: bool)
      requires Valid() && target < 64
      ensures attacked == Threats.Attacked(board, target, attacker)
    {
      Threats.LookupsFindAttackers(board, target, attacker);
      var occupied := bitboards.Occupied();
      var pawnAttackers := PawnAttacks(target, attacker != White);
      if pawnAttackers * bitboards.Pieces(attacker, Pawn) != {} {
        return true;
      }
      if KnightAttacks(target) * bitboards.Pieces(attacker, Knight) != {} {
        return true;
      }
      if KingAttacks(target) * bitboards.Pieces(attacker, King) != {} {
        return true;
      }
      var bishopQueen := bitboards.Pieces(attacker, Bishop) + bitboards.Pieces(attacker, Queen);
      var diagonal := ComputeBishopAttacks(target, occupied);
      if diagonal * bishopQueen != {} {
        return true;
      }
      var rookQueen := bitboards.Pieces(attacker, Rook) + bitboards.Pieces(attacker, Queen);
      var straight := ComputeRookAttacks(target, occupied);
      if straight * rookQueen != {} {
        return true;
      }
      return false;
    }

    /** `in_check(c)`: the king of c is attacked; false when c has no king. */
    method InCheck(c: Color) returns (check: bool)
      requires Valid()
      ensures check == Threats.InCheck(board, c)
    {
      var ksq := KingSq(c);
      if ksq.None? {
        return false;
      }
      check := IsSquareAttacked(ksq.value, c.Other());
    }

    /** `make_move(mv)`: plays the move in place and returns what undoing it needs. */
    method MakeMove(mv: Move) returns (undo: Undo)
      requires Valid() && CanMake(State(), mv)
      modifies this
      ensures Valid()
      ensures State() == MakeState(old(State()), mv)
      ensures undo == MakeUndo(old(State()), mv)
    {
      ghost var s := State();
      var from := mv.from;
      var to := mv.to;
      var moved := board[from].value;
      var prevCastling := castling;
      var prevEp := enPassant;
      var prevHmc := halfmoveClock;
      var prevFmn := fullmoveNumber;

      var captured, epCapturedSq, rookMove, resetHmc := MovePieces(mv);
      enPassant := None;

      // Castling rights: a king or rook leaving home, or a rook taken on its corner.
      RevokeMoverRights(moved, from);
      RevokeCapturedRookRights(captured, to);

      // A double push leaves the passed-over square as the en-passant square.
      if moved.kind == Pawn {
        var fr := RankOf(from);
        var tr := RankOf(to);
        if (moved.color == White && fr == 1 && tr == 3) || (moved.color == Black && fr == 6 && tr == 4) {
          var epRank := (fr + tr) / 2;
          var epFile := FileOf(from);
          enPassant := Sq(epFile, epRank);
        }
      }

      halfmoveClock := if resetHmc then 0 else halfmoveClock + 1;
      if sideToMove == Black {
        fullmoveNumber := fullmoveNumber + 1;
      }
      sideToMove := sideToMove.Other();

      undo := Undo(captured, prevCastling, prevEp, prevHmc, prevFmn, moved, rookMove, epCapturedSq);
    }

    /**
     * The board half of `make_move`: the en-passant victim goes, the mover
     * moves (promoting on the last rank) and a castling rook follows; also
     * reports the captured piece, the squares touched and whether the
     * halfmove clock resets.
     */
    method MovePieces(mv: Move) returns (captured: Option<Piece>, epCapturedSq: Option<nat>, rookMove: Option<(nat, nat)>, resetHmc: bool)
      requires Valid() && CanMake(State(), mv)
      modifies this`board, this`bitboards
      ensures Valid()
      ensures board == MakeBoard(old(State()), mv)
      ensures captured == Captured(old(State()), mv)
      ensures epCapturedSq == EpCapture(old(State()), mv)
      ensures rookMove == RookMove(old(State()), mv)
      ensures resetHmc == ResetsClock(old(State()), mv)
    {
      ghost var s := State();
      var from := mv.from;
      var to := mv.to;
      var moved := board[from].value;
      captured := board[to];
      resetHmc := moved.kind == Pawn || captured.Some?;

      captured, epCapturedSq := CaptureEnPassant(mv, moved, captured);
      if epCapturedSq.Some? {
        resetHmc := true;
      }
      assert epCapturedSq == EpCapture(s, mv) && captured == Captured(s, mv);
      ghost var cleared := board;

      var promoted := MoveMover(mv, moved);
      if promoted {
        resetHmc := true;
      }

      rookMove := None;
      if mv.isCastle && moved.kind == King {
        assert CastleRookSquares(moved.color, from, to).Some? ==>
               board[CastleRookSquares(moved.color, from, to).value.0] == cleared[CastleRookSquares(moved.color, from, to).value.0];
        rookMove := MoveCastlingRook(moved.color, from, to);
        resetHmc := false;
      }
      assert rookMove == RookMove(s, mv) && resetHmc == ResetsClock(s, mv);
      assert board == MakeBoard(s, mv);
    }

    /** The en-passant part of `make_move`: the victim behind the target square is reported and removed. */
    method CaptureEnPassant(mv: Move, moved: Piece, onTarget: Option<Piece>) returns (captured: Option<Piece>, epCapturedSq: Option<nat>)
      requires Valid()
      modifies this`board, this`bitboards
      ensures Valid()
      ensures epCapturedSq == (if mv.isEnPassant then EpVictimSquare(moved.color, mv.to) else None)
      ensures epCapturedSq.Some? ==> epCapturedSq.value < 64 && captured == old(board)[epCapturedSq.value]
      ensures epCapturedSq.None? ==> captured == onTarget
      ensures board == if epCapturedSq.Some? then old(board)[epCapturedSq.value := None] else old(board)
    {
      captured := onTarget;
      epCapturedSq := None;
      if mv.isEnPassant {
        var dir := if moved.color == White then -1 else 1;
        var capRank := RankOf(mv.to) + dir;
        var capFile := FileOf(mv.to);
        var cs := Sq(capFile, capRank);
        if cs.Some? {
          captured := board[cs.value];
          SetPiece(cs.value, None);
          epCapturedSq := cs;
        }
      }
    }

    /** The mover leaves its square and lands on the target, a pawn reaching the last rank as the promotion piece (queen by default). */
    method MoveMover(mv: Move, moved: Piece) returns (promoted: bool)
      requires Valid() && mv.from < 64 && mv.to < 64
      modifies this`board, this`bitboards
      ensures Valid()
      ensures promoted == (moved.kind == Pawn && PromotionRank(moved.color, RankOf(mv.to)))
      ensures board == old(board)[mv.from := None][mv.to :=
                if promoted then Some(Piece(moved.color, mv.promo.UnwrapOr(Queen))) else Some(moved)]
    {
      SetPiece(mv.from, None);
      SetPiece(mv.to, Some(moved));
      promoted := false;
      if moved.kind == Pawn {
        var r := RankOf(mv.to);
        if (moved.color == White && r == 7) || (moved.color == Black && r == 0) {
          var promo := mv.promo.UnwrapOr(Queen);
          SetPiece(mv.to, Some(Piece(moved.color, promo)));
          promoted := true;
        }
      }
    }

    /** The rook half of a castling king move: the rook on the corner moves beside the king. */
    method MoveCastlingRook(c: Color, from: nat, to: nat) returns (rookMove: Option<(nat, nat)>)
      requires Valid()
      requires CastleRookSquares(c, from, to).Some? ==> board[CastleRookSquares(c, from, to).value.0].Some?
      modifies this`board, this`bitboards
      ensures Valid()
      ensures rookMove == CastleRookSquares(c, from, to)
      ensures board == if rookMove.Some?
                then old(board)[rookMove.value.0 := None][rookMove.value.1 := old(board)[rookMove.value.0]]
                else old(board)
    {
      rookMove := None;
      var rookSquares := CastleRookSquares(c, from, to);
      if rookSquares.Some? {
        var (rf, rt) := rookSquares.value;
        var rook := board[rf].value;
        SetPiece(rf, None);
        SetPiece(rt, Some(rook));
        rookMove := Some((rf, rt));
      }
    }

    /** The castling rights a king, or a rook leaving its corner, gives up. */
    method RevokeMoverRights(moved: Piece, from: nat)
      modifies this`castling
      ensures castling == RightsAfterMove(old(castling), moved, from)
    {
      match moved.color {
        case White =>
          if moved.kind == King {
            castling := castling.(wk := false, wq := false);
          }
          if moved.kind == Rook {
            if from == 0 {
              castling := castling.(wq := false);
            }
            if from == 7 {
              castling := castling.(wk := false);
            }
          }
        case Black =>
          if moved.kind == King {
            castling := castling.(bk := false, bq := false);
          }
          if moved.kind == Rook {
            if from == 56 {
              castling := castling.(bq := false);
            }
            if from == 63 {
              castling := castling.(bk := false);
            }
          }
      }
    }

    /** The castling right of the corner on which a rook is captured. */
    method RevokeCapturedRookRights(captured: Option<Piece>, to: nat)
      modifies this`castling
      ensures castling == RightsAfterCapture(old(castling), captured, to)
    {
      if captured.Some? && captured.value.kind == Rook {
        match captured.value.color {
          case White =>
            if to == 0 {
              castling := castling.(wq := false);
            }
            if to == 7 {
              castling := castling.(wk := false);
            }
          case Black =>
            if to == 56 {
              castling := castling.(bq := false);
            }
            if to == 63 {
              castling := castling.(bk := false);
            }
        }
      }
    }

    /** `unmake_move(mv, undo)`: restores the fields, puts the rook and the mover back, then the captured piece. */
    method UnmakeMove(mv: Move, undo: Undo)
      requires Valid() && CanUnmake(State(), mv, undo)
      modifies this
      ensures Valid()
      ensures State() == UnmakeState(old(State()), mv, undo)
    {
      ghost var s := State();
      sideToMove := sideToMove.Other();
      castling := undo.castling;
      enPassant := undo.enPassant;
      halfmoveClock := undo.halfmove;
      fullmoveNumber := undo.fullmove;

      var from := mv.from;
      var to := mv.to;

      if undo.rookMove.Some? {
        var (rf, rt) := undo.rookMove.value;
        var rook := board[rt].value;
        SetPiece(rt, None);
        SetPiece(rf, Some(rook));
      }
      assert board == UnmakeRookBoard(s.board, undo);

      var pieceOnTo := board[to].value;
      if undo.movedPiece.kind == Pawn {
        var r := RankOf(to);
        if (undo.movedPiece.color == White && r == 7) || (undo.movedPiece.color == Black && r == 0) {
          pieceOnTo := Piece(undo.movedPiece.color, Pawn);
        }
      }

      SetPiece(to, None);
      SetPiece(from, Some(pieceOnTo));

      if mv.isEnPassant {
        if undo.epCapturedSq.Some? {
          SetPiece(undo.epCapturedSq.value, undo.captured);
        }
      } else {
        SetPiece(to, undo.captured);
      }
    }

    /** `position_hash()`: the FNV hash of side, rights, en-passant square and all squares. */
    method PositionHash() returns (h: bv64)
      ensures h == Hashing.PositionHash(State())
    {
      var header := Hashing.HeaderCodes(sideToMove, castling, enPassant);
      h := Hashing.FNV_OFFSET;
      for k := 0 to |header|
        invariant h == Hashing.Fold(Hashing.FNV_OFFSET, header, k)
      {
        h := Hashing.Mix(h, header[k]);
      }
      ghost var afterHeader := h;
      for i := 0 to 64
        invariant h == Hashing.BoardHash(afterHeader, board, i)
      {
        var v := Hashing.SquareCode(i, board[i]);
        h := Hashing.Mix(h, v);
      }
    }

    /**
     * `is_insufficient_material()`: counts knights and bishops per side,
     * notes whether each side has a bishop on a light square and whether
     * any pawn, rook or queen is present, then applies the draw cases.
     */
    method IsInsufficientMaterial() returns (draw: bool)
      ensures draw == Draws.InsufficientMaterial(board)
    {
      var whiteKnights := 0;
      var whiteBishops := 0;
      var whiteBishopOnLight := false;
      var blackKnights := 0;
      var blackBishops := 0;
      var blackBishopOnLight := false;
      var hasOtherPieces := false;

      for sq := 0 to 64
        invariant whiteKnights == |Draws.PieceSetBelow(board, Piece(White, Knight), sq)|
        invariant blackKnights == |Draws.PieceSetBelow(board, Piece(Black, Knight), sq)|
        invariant whiteBishops == |Draws.PieceSetBelow(board, Piece(White, Bishop), sq)|
        invariant blackBishops == |Draws.PieceSetBelow(board, Piece(Black, Bishop), sq)|
        invariant whiteBishopOnLight == Draws.OnLightBelow(board, Piece(White, Bishop), sq)
        invariant blackBishopOnLight == Draws.OnLightBelow(board, Piece(Black, Bishop), sq)
        invariant hasOtherPieces == Draws.HasMajorOrPawnBelow(board, sq)
      {
        Draws.PieceSetBelowStep(board, Piece(White, Knight), sq);
        Draws.PieceSetBelowStep(board, Piece(Black, Knight), sq);
        Draws.PieceSetBelowStep(board, Piece(White, Bishop), sq);
        Draws.PieceSetBelowStep(board, Piece(Black, Bishop), sq);
        Draws.MajorBelowStep(board, sq);
        if board[sq].Some? {
          var piece := board[sq].value;
          match piece.kind {
            case King =>
            case Knight =>
              if piece.color == White {
                whiteKnights := whiteKnights + 1;
              } else {
                blackKnights := blackKnights + 1;
              }
            case Bishop =>
              var isLightSquare := (sq / 8 + sq % 8) % 2 == 1;
              if piece.color == White {
                whiteBishops := whiteBishops + 1;
                if isLightSquare {
                  whiteBishopOnLight := true;
                }
              } else {
                blackBishops := blackBishops + 1;
                if isLightSquare {
                  blackBishopOnLight := true;
                }
              }
            case _ =>
              hasOtherPieces := true;
          }
        }
      }

      if hasOtherPieces {
        return false;
      }
      var totalKnights := whiteKnights + blackKnights;
      var totalBishops := whiteBishops + blackBishops;
      if totalKnights == 0 && totalBishops == 0 {
        return true;
      }
      if totalKnights + totalBishops == 1 {
        return true;
      }
      if totalKnights == 0 && whiteBishops == 1 && blackBishops == 1 {
        Draws.SameShadeByFlags(board);
        if whiteBishopOnLight == blackBishopOnLight {
          return true;
        }
      }
      return false;
    }

    /** `is_fifty_move_draw()`. */
    function IsFiftyMoveDraw(): (draw: bool)
      reads this
      ensures draw == Draws.FiftyMoveDraw(State())
    {
      halfmoveClock >= 100
    }
  }
}
