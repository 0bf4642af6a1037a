/**
 * The draw rules of a position (crates/chess_core/src/board.rs,
 * `is_insufficient_material` and `is_fifty_move_draw`), stated on the
 * mailbox by counting the squares each piece occupies.
 */
module Draws {
  import opened Wrappers
  import opened Types
  import opened Positions

  /** A light square: file plus rank is odd (b1, a2, ...). */
  predicate LightSquare(sq: nat)
  {
    (sq / 8 + sq % 8) % 2 == 1
  }

  /** A pawn, rook or queen: any of these rules out the insufficient-material draw. */
  predicate MajorOrPawn(k: PieceKind)
  {
    k == Pawn || k == Rook || k == Queen
  }

  /** Some pawn, rook or queen stands on the board. */
  predicate HasMajorOrPawn(board: Mailbox)
  {
    exists s: nat :: s < 64 && board[s].Some? && MajorOrPawn(board[s].value.kind)
  }

  /** Some square of piece p is light. */
  predicate OnLight(board: Mailbox, p: Piece)
  {
    exists s :: s in PieceSet(board, p) && LightSquare(s)
  }

  /** Two bishops, one of each colour, stand on squares of the same shade. */
  predicate SameShadeBishops(board: Mailbox)
  {
    exists a, b :: a in PieceSet(board, Piece(White, Bishop)) && b in PieceSet(board, Piece(Black, Bishop))
                   && LightSquare(a) == LightSquare(b)
  }

  /**
   * Insufficient material: besides the kings only knights and bishops,
   * and either none of them, exactly one, or one bishop per side on
   * squares of the same shade.
   */
  predicate InsufficientMaterial(board: Mailbox)
  {
    var knights := |PieceSet(board, Piece(White, Knight))| + |PieceSet(board, Piece(Black, Knight))|;
    var whiteBishops := |PieceSet(board, Piece(White, Bishop))|;
    var blackBishops := |PieceSet(board, Piece(Black, Bishop))|;
    && !HasMajorOrPawn(board)
    && (|| knights + whiteBishops + blackBishops <= 1
        || (knights == 0 && whiteBishops == 1 && blackBishops == 1 && SameShadeBishops(board)))
  }

  /** The fifty-move rule: a hundred half-moves without a pawn move or capture. */
  predicate FiftyMoveDraw(s: PosState)
  {
    s.halfmove >= 100
  }

  /** The only bishop of a side determines on which shade that side's bishops stand. */
  lemma LoneBishopShade(board: Mailbox, p: Piece, a: nat)
    requires |PieceSet(board, p)| == 1 && a in PieceSet(board, p)
    ensures PieceSet(board, p) == {a}
    ensures OnLight(board, p) <==> LightSquare(a)
  {
    var rest := PieceSet(board, p) - {a};
    assert |rest| == 0;
  }

  /** With one bishop on each side, the shades agree exactly when both or neither stand on light squares. */
  lemma SameShadeByFlags(board: Mailbox)
    requires |PieceSet(board, Piece(White, Bishop))| == 1 && |PieceSet(board, Piece(Black, Bishop))| == 1
    ensures SameShadeBishops(board) <==> (OnLight(board, Piece(White, Bishop)) == OnLight(board, Piece(Black, Bishop)))
  {
    var w :| w in PieceSet(board, Piece(White, Bishop));
    var b :| b in PieceSet(board, Piece(Black, Bishop));
    LoneBishopShade(board, Piece(White, Bishop), w);
    LoneBishopShade(board, Piece(Black, Bishop), b);
  }

  /** Any pawn, rook or queen on the board rules out the draw. */
  lemma MajorPreventsDraw(board: Mailbox, s: nat)
    requires s < 64 && board[s].Some? && MajorOrPawn(board[s].value.kind)
    ensures !InsufficientMaterial(board)
  {
  }

  /** A board of two kings alone is a draw. */
  lemma BareKingsDraw(board: Mailbox)
    requires forall s :: 0 <= s < 64 && board[s].Some? ==> board[s].value.kind == King
    ensures InsufficientMaterial(board)
  {
    forall c, k | k != King
      ensures PieceSet(board, Piece(c, k)) == {}
    {
    }
  }

  /** King and a single knight or bishop against king is a draw. */
  lemma SingleMinorDraw(board: Mailbox, a: nat, p: Piece)
    requires a < 64 && board[a] == Some(p) && (p.kind == Knight || p.kind == Bishop)
    requires forall s :: 0 <= s < 64 && s != a && board[s].Some? ==> board[s].value.kind == King
    ensures InsufficientMaterial(board)
  {
    forall c, k | k != King
      ensures PieceSet(board, Piece(c, k)) == if Piece(c, k) == p then {a} else {}
    {
    }
  }

  /** King and bishop against king and bishop, the bishops on squares of one shade, is a draw. */
  lemma SameShadeBishopsDraw(board: Mailbox, a: nat, b: nat)
    requires a < 64 && b < 64 && board[a] == Some(Piece(White, Bishop)) && board[b] == Some(Piece(Black, Bishop))
    requires LightSquare(a) == LightSquare(b)
    requires forall s :: 0 <= s < 64 && s != a && s != b && board[s].Some? ==> board[s].value.kind == King
    ensures InsufficientMaterial(board)
  {
    forall c, k | k != King
      ensures PieceSet(board, Piece(c, k)) == if Piece(c, k) == Piece(White, Bishop) then {a}
                                             else if Piece(c, k) == Piece(Black, Bishop) then {b} else {}
    {
    }
  }

  /** Two knights of one side are enough to keep playing. */
  lemma TwoKnightsNotDraw(board: Mailbox, c: Color, a: nat, b: nat)
    requires a < 64 && b < 64 && a != b && board[a] == Some(Piece(c, Knight)) && board[b] == Some(Piece(c, Knight))
    ensures !InsufficientMaterial(board)
  {
    assert {a, b} <= PieceSet(board, Piece(c, Knight));
    SubsetCard({a, b}, PieceSet(board, Piece(c, Knight)));
  }

  /** Bishops on opposite shades are enough to keep playing. */
  lemma OppositeBishopsNotDraw(board: Mailbox, a: nat, b: nat)
    requires a < 64 && b < 64 && board[a] == Some(Piece(White, Bishop)) && board[b] == Some(Piece(Black, Bishop))
    requires LightSquare(a) != LightSquare(b)
    requires |PieceSet(board, Piece(White, Bishop))| == 1 && |PieceSet(board, Piece(Black, Bishop))| == 1
    ensures !InsufficientMaterial(board)
  {
    assert a in PieceSet(board, Piece(White, Bishop));
    assert b in PieceSet(board, Piece(Black, Bishop));
    LoneBishopShade(board, Piece(White, Bishop), a);
    LoneBishopShade(board, Piece(Black, Bishop), b);
  }

  // The counts and flags `is_insufficient_material` accumulates over the
  // squares below n, and how each grows by one square.

  function PieceSetBelow(board: Mailbox, p: Piece, n: nat): (r: set<nat>)
    ensures n >= 64 ==> r == PieceSet(board, p)
  {
    set s: nat | s < n && s < 64 && board[s] == Some(p)
  }

  predicate HasMajorOrPawnBelow(board: Mailbox, n: nat)
  {
    exists s: nat :: s < n && s < 64 && board[s].Some? && MajorOrPawn(board[s].value.kind)
  }

  predicate OnLightBelow(board: Mailbox, p: Piece, n: nat)
  {
    exists s :: s in PieceSetBelow(board, p, n) && LightSquare(s)
  }

  lemma PieceSetBelowStep(board: Mailbox, p: Piece, n: nat)
    requires n < 64
    ensures |PieceSetBelow(board, p, n + 1)| == |PieceSetBelow(board, p, n)| + (if board[n] == Some(p) then 1 else 0)
    ensures OnLightBelow(board, p, n + 1) <==> OnLightBelow(board, p, n) || (board[n] == Some(p) && LightSquare(n))
  {
    if board[n] == Some(p) {
      assert PieceSetBelow(board, p, n + 1) == PieceSetBelow(board, p, n) + {n};
    } else {
      assert PieceSetBelow(board, p, n + 1) == PieceSetBelow(board, p, n);
    }
  }

  lemma MajorBelowStep(board: Mailbox, n: nat)
    requires n < 64
    ensures HasMajorOrPawnBelow(board, n + 1) <==>
            HasMajorOrPawnBelow(board, n) || (board[n].Some? && MajorOrPawn(board[n].value.kind))
  {
  }

  lemma {:induction false} SubsetCard(a: set<nat>, b: set<nat>)
    requires a <= b
    ensures |a| <= |b|
    decreases |a|
  {
    if a != {} {
      var x :| x in a;
      SubsetCard(a - {x}, b - {x});
    }
  }
}
