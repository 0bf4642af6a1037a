/**
 * Material evaluation. The mailbox version
 * (crates/chess_core/src/eval.rs, crates/classical_engine/src/eval.rs and
 * the fallback `material_eval` of crates/ml_engine/src/lib.rs) walks the 64
 * squares; the bitboard version (crates/engines/classical/src/eval.rs and
 * the fallback `material_eval` of crates/engines/neural/src/lib.rs) counts
 * each kind with `popcount`. Both give White's material minus Black's,
 * negated when Black is to move.
 */
module Eval {
  import opened Wrappers
  import opened Types
  import opened Bitboards
  import opened Positions
  import opened Board
  import Draws

  /** `PIECE_VALUES`, indexed by `PieceKind::idx`. */
  const PIECE_VALUES: seq<int> := [100, 320, 330, 500, 900, 0]

  /** `piece_value`: centipawns of a kind. The match agrees with the table, and only the king is worth nothing. */
  function PieceValue(k: PieceKind): (v: int)
    ensures v == PIECE_VALUES[k.Idx()]
    ensures 0 <= v <= 900 && (v == 0 <==> k == King)
  {
    match k
    case Pawn => 100
    case Knight => 320
    case Bishop => 330
    case Rook => 500
    case Queen => 900
    case King => 0
  }

  /** What one mailbox entry adds to White's material minus Black's. */
  function Signed(entry: Option<Piece>): int
  {
    match entry
    case None => 0
    case Some(pc) => if pc.color == White then PieceValue(pc.kind) else -PieceValue(pc.kind)
  }

  /** The material balance of the squares below n. */
  function MaterialBelow(board: Mailbox, n: nat): int
    requires n <= 64
  {
    if n == 0 then 0 else MaterialBelow(board, n - 1) + Signed(board[n - 1])
  }

  /** White's material minus Black's. */
  function Material(board: Mailbox): int
  {
    MaterialBelow(board, 64)
  }

  /** A White-relative score seen from the side to move. */
  function Relative(side: Color, score: int): int
  {
    if side == White then score else -score
  }

  /** The evaluation of a position: the material balance from the side to move's point of view. */
  function Evaluate(s: PosState): int
  {
    Relative(s.side, Material(s.board))
  }

  /** `evaluate` over the mailbox: add each piece's value for White, subtract it for Black, then orient by the side to move. */
  method EvaluateMailbox(pos: Position) returns (score: int)
    ensures score == Evaluate(pos.State())
  {
    var total := 0;
    for sq := 0 to 64
      invariant total == MaterialBelow(pos.board, sq)
    {
      if pos.board[sq].Some? {
        var pc := pos.board[sq].value;
        var v := PieceValue(pc.kind);
        total := total + if pc.color == White then v else -v;
      }
    }
    if pos.sideToMove == White {
      score := total;
    } else {
      score := -total;
    }
  }

  /** The balance of the first j kinds of `PieceKind::ALL`, counted on the bitboards. */
  function PopcountMaterial(bbs: PieceBitboards, j: nat): int
    requires bbs.Shaped() && j <= 6
  {
    if j == 0 then 0
    else
      var kind := ALL_KINDS[j - 1];
      PopcountMaterial(bbs, j - 1)
        + PIECE_VALUES[kind.Idx()] * (Popcount(bbs.Pieces(White, kind)) - Popcount(bbs.Pieces(Black, kind)))
  }

  /** `evaluate` over the bitboards: for each kind, its value times White's count minus Black's. */
  method EvaluateBitboards(pos: Position) returns (score: int)
    requires pos.Valid()
    ensures score == Relative(pos.sideToMove, PopcountMaterial(pos.bitboards, 6))
    ensures score == Evaluate(pos.State())
  {
    var total := 0;
    for i := 0 to 6
      invariant total == PopcountMaterial(pos.bitboards, i)
    {
      var kind := ALL_KINDS[i];
      var value := PIECE_VALUES[kind.Idx()];
      var whiteCount: int := Popcount(pos.bitboards.Pieces(White, kind));
      var blackCount: int := Popcount(pos.bitboards.Pieces(Black, kind));
      total := total + value * (whiteCount - blackCount);
    }
    PopcountAgrees(pos.bitboards, pos.board);
    if pos.sideToMove == White {
      score := total;
    } else {
      score := -total;
    }
  }

  // The two evaluations agree on every position whose bitboards match its mailbox.

  /** The count of piece p on the squares below n. */
  function CountBelow(board: Mailbox, p: Piece, n: nat): nat
  {
    |Draws.PieceSetBelow(board, p, n)|
  }

  /** The balance of the first j kinds, counted on the squares below n. */
  function KindsBelow(board: Mailbox, n: nat, j: nat): int
    requires j <= 6
  {
    if j == 0 then 0
    else
      var kind := ALL_KINDS[j - 1];
      KindsBelow(board, n, j - 1)
        + PIECE_VALUES[kind.Idx()] * (CountBelow(board, Piece(White, kind), n) - CountBelow(board, Piece(Black, kind), n))
  }

  /** What entry adds to the balance of the first j kinds. */
  function SignedAmong(entry: Option<Piece>, j: nat): int
  {
    if entry.Some? && entry.value.kind.Idx() < j then Signed(entry) else 0
  }

  lemma {:induction false} KindsStep(board: Mailbox, n: nat, j: nat)
    requires n < 64 && j <= 6
    ensures KindsBelow(board, n + 1, j) == KindsBelow(board, n, j) + SignedAmong(board[n], j)
  {
    if j > 0 {
      KindsStep(board, n, j - 1);
      var kind := ALL_KINDS[j - 1];
      assert kind.Idx() == j - 1;
      Draws.PieceSetBelowStep(board, Piece(White, kind), n);
      Draws.PieceSetBelowStep(board, Piece(Black, kind), n);
    }
  }

  /** Square by square and kind by kind give the same balance. */
  lemma {:induction false} MaterialByKinds(board: Mailbox, n: nat)
    requires n <= 64
    ensures MaterialBelow(board, n) == KindsBelow(board, n, 6)
  {
    if n == 0 {
      KindsEmpty(board, 6);
    } else {
      MaterialByKinds(board, n - 1);
      KindsStep(board, n - 1, 6);
    }
  }

  lemma {:induction false} KindsEmpty(board: Mailbox, j: nat)
    requires j <= 6
    ensures KindsBelow(board, 0, j) == 0
  {
    if j > 0 {
      KindsEmpty(board, j - 1);
      var kind := ALL_KINDS[j - 1];
      assert Draws.PieceSetBelow(board, Piece(White, kind), 0) == {};
      assert Draws.PieceSetBelow(board, Piece(Black, kind), 0) == {};
    }
  }

  lemma {:induction false} PopcountByKinds(bbs: PieceBitboards, board: Mailbox, j: nat)
    requires Synced(bbs, board) && j <= 6
    ensures PopcountMaterial(bbs, j) == KindsBelow(board, 64, j)
  {
    if j > 0 {
      PopcountByKinds(bbs, board, j - 1);
    }
  }

  /** With the bitboards in step with the mailbox, popcount material equals mailbox material. */
  lemma PopcountAgrees(bbs: PieceBitboards, board: Mailbox)
    requires Synced(bbs, board)
    ensures PopcountMaterial(bbs, 6) == Material(board)
  {
    PopcountByKinds(bbs, board, 6);
    MaterialByKinds(board, 64);
  }

  /** Each square moves the balance by at most a queen. */
  lemma {:induction false} MaterialBelowBound(board: Mailbox, n: nat)
    requires n <= 64
    ensures -900 * n <= MaterialBelow(board, n) <= 900 * n
  {
    if n > 0 {
      MaterialBelowBound(board, n - 1);
    }
  }

  /** The evaluation stays within 64 queens either way, well inside the mate score of 100000. */
  lemma EvaluateBound(s: PosState)
    ensures -57600 <= Evaluate(s) <= 57600
  {
    MaterialBelowBound(s.board, 64);
  }

  /** Only the mailbox and the side to move matter. */
  lemma EvaluateIgnoresRest(s: PosState, t: PosState)
    requires s.board == t.board && s.side == t.side
    ensures Evaluate(s) == Evaluate(t)
  {
  }

  /** Handing the move to the other side negates the evaluation. */
  lemma EvaluateOtherSide(s: PosState)
    ensures Evaluate(s.(side := s.side.Other())) == -Evaluate(s)
  {
  }
}
