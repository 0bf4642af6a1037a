/**
 * Pseudo-legal and legal moves as values (crates/chess_core/src/movegen.rs).
 *
 * Each generator of the source drains a bitboard with `pop_lsb`, so its
 * moves come in increasing square order; the functions here list them in
 * exactly the order the source pushes them. The legal moves are the
 * pseudo-legal moves after which the mover's king is not attacked, in
 * generation order.
 */
module Generation {
  import opened Wrappers
  import opened Types
  import opened Bitboards
  import opened Attacks
  import opened Positions
  import Threats

  // ---------------------------------------------------------------------
  // Building blocks
  // ---------------------------------------------------------------------

  /** One plain move from `from` to each target in turn. */
  function MovesTo(from: nat, tos: seq<nat>): (r: seq<Move>)
    ensures |r| == |tos|
  {
    if tos == [] then [] else [Quiet(from, tos[0])] + MovesTo(from, tos[1..])
  }

  /** The promotion pieces in the order `add_promotions` offers them. */
  const PROMOTION_ORDER: seq<PieceKind> := [Queen, Rook, Bishop, Knight]

  /** `add_promotions(from, to)`: one move per promotion piece. */
  function Promotions(from: nat, to: nat): (r: seq<Move>)
    ensures |r| == 4
  {
    seq(4, i requires 0 <= i < 4 => Move(from, to, Some(PROMOTION_ORDER[i]), false, false))
  }

  /** `(to as i8 + delta) as u8`: the origin square a pawn move came from. */
  function Back(to: nat, delta: int): nat
  {
    (to + delta) % 256
  }

  /** For each target, the plain move or the four promotions from the square `delta` away. */
  function PawnMovesTo(tos: seq<nat>, delta: int, promote: bool): seq<Move>
  {
    if tos == [] then []
    else (if promote then Promotions(Back(tos[0], delta), tos[0]) else [Quiet(Back(tos[0], delta), tos[0])])
         + PawnMovesTo(tos[1..], delta, promote)
  }

  /** Draining the lowest target first: its move, then the moves to the others. */
  lemma MovesToStep(from: nat, b: Bitboard)
    requires b != {}
    ensures MovesTo(from, Ascending(b)) == [Quiet(from, Lsb(b).value)] + MovesTo(from, Ascending(b - {Lsb(b).value}))
  {
    AscendingStep(b);
  }

  /** The same for pawn targets. */
  lemma PawnMovesToStep(b: Bitboard, delta: int, promote: bool)
    requires b != {}
    ensures var to := Lsb(b).value;
      PawnMovesTo(Ascending(b), delta, promote)
      == (if promote then Promotions(Back(to, delta), to) else [Quiet(Back(to, delta), to)])
         + PawnMovesTo(Ascending(b - {to}), delta, promote)
  {
    AscendingStep(b);
  }

  // ---------------------------------------------------------------------
  // Pawns
  // ---------------------------------------------------------------------

  /** `north` for White, `south` for Black. */
  function PushAll(c: Color, b: Bitboard): Bitboard
  {
    if c == White then North(b) else South(b)
  }

  /** `north_west` for White, `south_west` for Black. */
  function AttackLeft(c: Color, b: Bitboard): Bitboard
  {
    if c == White then NorthWest(b) else SouthWest(b)
  }

  /** `north_east` for White, `south_east` for Black. */
  function AttackRight(c: Color, b: Bitboard): Bitboard
  {
    if c == White then NorthEast(b) else SouthEast(b)
  }

  function StartRank(c: Color): Bitboard { if c == White then RANK_2 else RANK_7 }
  function PromoRank(c: Color): Bitboard { if c == White then RANK_8 else RANK_1 }
  function DoubleRank(c: Color): Bitboard { if c == White then RANK_4 else RANK_5 }

  /** The signed distance from a push target back to its pawn. */
  function BackDir(c: Color): int { if c == White then -8 else 8 }
  function BackLeft(c: Color): int { if c == White then -7 else 9 }
  function BackRight(c: Color): int { if c == White then -9 else 7 }

  /** Squares one pawn step ahead of `pawns` that are empty. */
  function SinglePushes(c: Color, pawns: Bitboard, empty: Bitboard): Bitboard
  {
    PushAll(c, pawns) * empty
  }

  /** Squares two pawn steps ahead of pawns on their start rank, both steps empty. */
  function DoublePushes(c: Color, pawns: Bitboard, empty: Bitboard): Bitboard
  {
    var firstPush := PushAll(c, pawns * StartRank(c)) * empty;
    PushAll(c, firstPush) * empty * DoubleRank(c)
  }

  /** The en-passant captures onto `ep`, left capture first. */
  function EpMoves(c: Color, pawns: Bitboard, ep: Option<nat>): seq<Move>
  {
    if ep.None? then []
    else
      var e := ep.value;
      (if e in AttackLeft(c, pawns) then [Move(Back(e, BackLeft(c)), e, None, true, false)] else [])
      + (if e in AttackRight(c, pawns) then [Move(Back(e, BackRight(c)), e, None, true, false)] else [])
  }

  /**
   * `gen_pawn_moves`: quiet pushes, promotion pushes, double pushes, left
   * captures, left promotion captures, right captures, right promotion
   * captures, then the en-passant captures.
   */
  function PawnMoves(s: PosState): seq<Move>
  {
    PawnMovesOf(s.side, PieceSet(s.board, Piece(s.side, Pawn)), ColorSet(s.board, s.side.Other()),
                Not(OccupiedSet(s.board)), s.enPassant)
  }

  /** The pawn moves of side `us` with pawns `pawns`, enemy pieces `their`, empty squares `empty` and en-passant square `ep`. */
  function PawnMovesOf(us: Color, pawns: Bitboard, their: Bitboard, empty: Bitboard, ep: Option<nat>): seq<Move>
  {
    var single := SinglePushes(us, pawns, empty);
    var left := AttackLeft(us, pawns) * their;
    var right := AttackRight(us, pawns) * their;
    var promo := PromoRank(us);
    PawnMovesTo(Ascending(single * Not(promo)), BackDir(us), false)
    + PawnMovesTo(Ascending(single * promo), BackDir(us), true)
    + PawnMovesTo(Ascending(DoublePushes(us, pawns, empty)), 2 * BackDir(us), false)
    + PawnMovesTo(Ascending(left * Not(promo)), BackLeft(us), false)
    + PawnMovesTo(Ascending(left * promo), BackLeft(us), true)
    + PawnMovesTo(Ascending(right * Not(promo)), BackRight(us), false)
    + PawnMovesTo(Ascending(right * promo), BackRight(us), true)
    + EpMoves(us, pawns, ep)
  }

  // ---------------------------------------------------------------------
  // Knights, sliders and the king
  // ---------------------------------------------------------------------

  /** The squares a piece of the side to move on `from` may move to: its attacks, without its own pieces. */
  function Targets(s: PosState, k: PieceKind, from: nat): Bitboard
  {
    Threats.PieceAttacks(Piece(s.side, k), from, OccupiedSet(s.board)) * Not(ColorSet(s.board, s.side))
  }

  /** The moves of the pieces on `origins`, origin by origin. */
  function MovesFrom(s: PosState, k: PieceKind, origins: seq<nat>): seq<Move>
  {
    if origins == [] then []
    else MovesTo(origins[0], Ascending(Targets(s, k, origins[0]))) + MovesFrom(s, k, origins[1..])
  }

  /** Draining the lowest piece first: its moves, then the moves of the others. */
  lemma MovesFromStep(s: PosState, k: PieceKind, b: Bitboard)
    requires b != {}
    ensures MovesFrom(s, k, Ascending(b))
         == MovesTo(Lsb(b).value, Ascending(Targets(s, k, Lsb(b).value))) + MovesFrom(s, k, Ascending(b - {Lsb(b).value}))
  {
    AscendingStep(b);
  }

  /** `gen_knight_moves`, `gen_bishop_moves`, `gen_rook_moves`, `gen_queen_moves`, `gen_king_moves`. */
  function PieceMoves(s: PosState, k: PieceKind): seq<Move>
  {
    MovesFrom(s, k, Ascending(PieceSet(s.board, Piece(s.side, k))))
  }

  // ---------------------------------------------------------------------
  // Castling
  // ---------------------------------------------------------------------

  /** A castling king move. */
  function CastleMove(from: nat, to: nat): Move
  {
    Move(from, to, None, false, true)
  }

  /** One castling option: the right is held, `path` is empty and neither `a` nor `b` is attacked. */
  predicate CastleAllowed(s: PosState, right: bool, path: set<nat>, a: nat, b: nat)
  {
    right && OccupiedSet(s.board) * path == {}
    && !Threats.Attacked(s.board, a, s.side.Other()) && !Threats.Attacked(s.board, b, s.side.Other())
  }

  /** `gen_castling_moves`: nothing in check; else king side, then queen side. */
  function CastlingMoves(s: PosState): seq<Move>
  {
    if Threats.InCheck(s.board, s.side) then []
    else if s.side == White then
      (if CastleAllowed(s, s.castling.wk, {5, 6}, 5, 6) then [CastleMove(4, 6)] else [])
      + (if CastleAllowed(s, s.castling.wq, {1, 2, 3}, 2, 3) then [CastleMove(4, 2)] else [])
    else
      (if CastleAllowed(s, s.castling.bk, {61, 62}, 61, 62) then [CastleMove(60, 62)] else [])
      + (if CastleAllowed(s, s.castling.bq, {57, 58, 59}, 58, 59) then [CastleMove(60, 58)] else [])
  }

  // ---------------------------------------------------------------------
  // All pseudo-legal moves and the legal filter
  // ---------------------------------------------------------------------

  /** `pseudo_moves`: pawns, knights, bishops, rooks, queens, king, castling. */
  function PseudoMoves(s: PosState): seq<Move>
  {
    PawnMoves(s) + PieceMoves(s, Knight) + PieceMoves(s, Bishop) + PieceMoves(s, Rook)
    + PieceMoves(s, Queen) + PieceMoves(s, King) + CastlingMoves(s)
  }

  /**
   * The positions where the make/test/unmake filter works as intended:
   * every pseudo-legal move can be made and then taken back exactly.
   */
  predicate Restorable(s: PosState)
  {
    forall mv :: mv in PseudoMoves(s) ==> Reversible(s, mv)
  }

  /** After the move the mover's king is not attacked. */
  predicate KeepsKingSafe(s: PosState, mv: Move)
    requires CanMake(s, mv)
  {
    !Threats.InCheck(MakeBoard(s, mv), s.side)
  }

  /** The moves of the list that keep the mover's king safe, in list order. */
  function KeepLegal(s: PosState, moves: seq<Move>): seq<Move>
    requires forall mv :: mv in moves ==> CanMake(s, mv)
  {
    if moves == [] then []
    else
      var last := moves[|moves| - 1];
      KeepLegal(s, moves[..|moves| - 1]) + (if KeepsKingSafe(s, last) then [last] else [])
  }

  /** Running the filter over one more move of a list appends that move exactly when it keeps the king safe. */
  lemma KeepLegalStep(s: PosState, moves: seq<Move>, i: nat)
    requires forall m :: m in moves ==> CanMake(s, m)
    requires i < |moves|
    ensures forall m :: m in moves[..i + 1] ==> m in moves
    ensures KeepLegal(s, moves[..i + 1]) == KeepLegal(s, moves[..i]) + (if KeepsKingSafe(s, moves[i]) then [moves[i]] else [])
  {
    assert moves[..i + 1][..i] == moves[..i];
  }

  /** `legal_moves`: the pseudo-legal moves that do not leave the mover in check. */
  function LegalMoves(s: PosState): seq<Move>
    requires Restorable(s)
  {
    KeepLegal(s, PseudoMoves(s))
  }

  // ---------------------------------------------------------------------
  // Properties of the legal filter
  // ---------------------------------------------------------------------

  /** A move is kept exactly when it is in the list and keeps the king safe. */
  lemma {:induction false} KeepLegalMembers(s: PosState, moves: seq<Move>, mv: Move)
    requires forall m :: m in moves ==> CanMake(s, m)
    ensures mv in KeepLegal(s, moves) <==> mv in moves && KeepsKingSafe(s, mv)
    decreases |moves|
  {
    if moves != [] {
      var init := moves[..|moves| - 1];
      assert moves == init + [moves[|moves| - 1]];
      KeepLegalMembers(s, init, mv);
    }
  }

  /** The filter keeps moves in their order: its result is never longer than its input. */
  lemma {:induction false} KeepLegalShrinks(s: PosState, moves: seq<Move>)
    requires forall m :: m in moves ==> CanMake(s, m)
    ensures |KeepLegal(s, moves)| <= |moves|
    decreases |moves|
  {
    if moves != [] {
      KeepLegalShrinks(s, moves[..|moves| - 1]);
    }
  }

  /** Every legal move is pseudo-legal and leaves the mover's king unattacked, and every such move is legal. */
  lemma LegalMovesExactly(s: PosState, mv: Move)
    requires Restorable(s)
    ensures mv in LegalMoves(s) <==> mv in PseudoMoves(s) && !Threats.InCheck(MakeState(s, mv).board, s.side)
  {
    KeepLegalMembers(s, PseudoMoves(s), mv);
  }

  // ---------------------------------------------------------------------
  // What every generated move satisfies
  // ---------------------------------------------------------------------

  /**
   * The positions the generator is built for: a castling right only with
   * king and rook on their home squares, and an en-passant square that is
   * empty and lies on the rank a double push of the opponent passes over.
   */
  predicate WellFormed(s: PosState)
  {
    && (s.castling.wk ==> s.board[4] == Some(Piece(White, King)) && s.board[7] == Some(Piece(White, Rook)))
    && (s.castling.wq ==> s.board[4] == Some(Piece(White, King)) && s.board[0] == Some(Piece(White, Rook)))
    && (s.castling.bk ==> s.board[60] == Some(Piece(Black, King)) && s.board[63] == Some(Piece(Black, Rook)))
    && (s.castling.bq ==> s.board[60] == Some(Piece(Black, King)) && s.board[56] == Some(Piece(Black, Rook)))
    && (s.enPassant.Some? ==>
          && s.enPassant.value < 64 && s.board[s.enPassant.value].None?
          && RankOf(s.enPassant.value) == (if s.side == White then 5 else 2))
  }

  /** A square holding a piece of the side to move. */
  predicate Own(s: PosState, sq: nat)
    requires sq < 64
  {
    s.board[sq].Some? && s.board[sq].value.color == s.side
  }

  /**
   * A generated move: it starts on a piece of the side to move, never
   * lands on one, an en-passant capture lands on an empty square, and a
   * castling king move finds its rook at home and the rook's destination
   * empty.
   */
  predicate Sound(s: PosState, mv: Move)
  {
    && mv.from < 64 && mv.to < 64
    && Own(s, mv.from) && !Own(s, mv.to)
    && !(mv.isEnPassant && mv.isCastle)
    && (mv.isEnPassant ==> s.board[mv.to].None?)
    && (RookMove(s, mv).Some? ==> s.board[RookMove(s, mv).value.0].Some? && s.board[RookMove(s, mv).value.1].None?)
  }

  lemma SoundReversible(s: PosState, mv: Move)
    requires Sound(s, mv)
    ensures Reversible(s, mv)
  {
  }

  lemma {:induction false} MovesToSound(s: PosState, from: nat, tos: seq<nat>)
    requires from < 64 && Own(s, from)
    requires forall i :: 0 <= i < |tos| ==> tos[i] < 64 && !Own(s, tos[i])
    ensures forall mv :: mv in MovesTo(from, tos) ==> Sound(s, mv)
    decreases |tos|
  {
    if tos != [] {
      MovesToSound(s, from, tos[1..]);
    }
  }

  lemma {:induction false} PawnMovesToSound(s: PosState, tos: seq<nat>, delta: int, promote: bool)
    requires forall i :: 0 <= i < |tos| ==> tos[i] < 64 && Back(tos[i], delta) < 64 && Own(s, Back(tos[i], delta)) && !Own(s, tos[i])
    ensures forall mv :: mv in PawnMovesTo(tos, delta, promote) ==> Sound(s, mv)
    decreases |tos|
  {
    if tos != [] {
      PawnMovesToSound(s, tos[1..], delta, promote);
    }
  }

  /** The pawn moves onto the squares of T, each from the pawn `delta` away, are sound. */
  lemma PawnSegmentSound(s: PosState, T: Bitboard, delta: int, promote: bool)
    requires forall t :: t in T ==> Back(t, delta) in PieceSet(s.board, Piece(s.side, Pawn)) && !Own(s, t)
    ensures forall mv :: mv in PawnMovesTo(Ascending(T), delta, promote) ==> Sound(s, mv)
  {
    AscendingEnumerates(T);
    var tos := Ascending(T);
    assert forall i :: 0 <= i < |tos| ==> tos[i] in T;
    PawnMovesToSound(s, tos, delta, promote);
  }

  lemma PushSegmentSound(s: PosState, T: Bitboard, promote: bool)
    requires T <= SinglePushes(s.side, PieceSet(s.board, Piece(s.side, Pawn)), Not(OccupiedSet(s.board)))
    ensures forall mv :: mv in PawnMovesTo(Ascending(T), BackDir(s.side), promote) ==> Sound(s, mv)
  {
    forall t | t in T
      ensures Back(t, BackDir(s.side)) in PieceSet(s.board, Piece(s.side, Pawn)) && !Own(s, t)
    {
      PushOrigin(s.side, PieceSet(s.board, Piece(s.side, Pawn)), t);
    }
    PawnSegmentSound(s, T, BackDir(s.side), promote);
  }

  lemma DoubleSegmentSound(s: PosState)
    ensures forall mv :: mv in PawnMovesTo(Ascending(DoublePushes(s.side, PieceSet(s.board, Piece(s.side, Pawn)), Not(OccupiedSet(s.board)))), 2 * BackDir(s.side), false)
                         ==> Sound(s, mv)
  {
    var pawns := PieceSet(s.board, Piece(s.side, Pawn));
    var empty := Not(OccupiedSet(s.board));
    forall t | t in DoublePushes(s.side, pawns, empty)
      ensures Back(t, 2 * BackDir(s.side)) in pawns && !Own(s, t)
    {
      DoubleOrigin(s.side, pawns, empty, t);
    }
    PawnSegmentSound(s, DoublePushes(s.side, pawns, empty), 2 * BackDir(s.side), false);
  }

  lemma LeftSegmentSound(s: PosState, T: Bitboard, promote: bool)
    requires T <= AttackLeft(s.side, PieceSet(s.board, Piece(s.side, Pawn))) * ColorSet(s.board, s.side.Other())
    ensures forall mv :: mv in PawnMovesTo(Ascending(T), BackLeft(s.side), promote) ==> Sound(s, mv)
  {
    forall t | t in T
      ensures Back(t, BackLeft(s.side)) in PieceSet(s.board, Piece(s.side, Pawn)) && !Own(s, t)
    {
      LeftOrigin(s.side, PieceSet(s.board, Piece(s.side, Pawn)), t);
    }
    PawnSegmentSound(s, T, BackLeft(s.side), promote);
  }

  lemma RightSegmentSound(s: PosState, T: Bitboard, promote: bool)
    requires T <= AttackRight(s.side, PieceSet(s.board, Piece(s.side, Pawn))) * ColorSet(s.board, s.side.Other())
    ensures forall mv :: mv in PawnMovesTo(Ascending(T), BackRight(s.side), promote) ==> Sound(s, mv)
  {
    forall t | t in T
      ensures Back(t, BackRight(s.side)) in PieceSet(s.board, Piece(s.side, Pawn)) && !Own(s, t)
    {
      RightOrigin(s.side, PieceSet(s.board, Piece(s.side, Pawn)), t);
    }
    PawnSegmentSound(s, T, BackRight(s.side), promote);
  }

  /** The square a one-step shift came from. */
  lemma JumpOrigin(b: Bitboard, df: int, dr: int, t: nat)
    requires -1 <= df <= 1 && -1 <= dr <= 1 && t in Jump(b, df, dr)
    ensures Back(t, -(8 * dr + df)) in b
  {
    JumpMember(b, df, dr, t);
  }

  lemma PushOrigin(c: Color, b: Bitboard, t: nat)
    requires t in PushAll(c, b)
    ensures Back(t, BackDir(c)) in b
  {
    if c == White { JumpOrigin(b, 0, 1, t); } else { JumpOrigin(b, 0, -1, t); }
  }

  lemma LeftOrigin(c: Color, b: Bitboard, t: nat)
    requires t in AttackLeft(c, b)
    ensures Back(t, BackLeft(c)) in b
  {
    if c == White { JumpOrigin(b, -1, 1, t); } else { JumpOrigin(b, -1, -1, t); }
  }

  lemma RightOrigin(c: Color, b: Bitboard, t: nat)
    requires t in AttackRight(c, b)
    ensures Back(t, BackRight(c)) in b
  {
    if c == White { JumpOrigin(b, 1, 1, t); } else { JumpOrigin(b, 1, -1, t); }
  }

  lemma DoubleOrigin(c: Color, pawns: Bitboard, empty: Bitboard, t: nat)
    requires t in DoublePushes(c, pawns, empty)
    ensures Back(t, 2 * BackDir(c)) in pawns
  {
    var firstPush := PushAll(c, pawns * StartRank(c)) * empty;
    PushOrigin(c, firstPush, t);
    var mid := Back(t, BackDir(c));
    PushOrigin(c, pawns * StartRank(c), mid);
  }

  /** Every pawn move starts on a pawn of the side to move and does not land on one of its pieces. */
  lemma PawnMovesSound(s: PosState)
    requires WellFormed(s)
    ensures forall mv :: mv in PawnMoves(s) ==> Sound(s, mv)
  {
    var us := s.side;
    var pawns := PieceSet(s.board, Piece(us, Pawn));
    var single := SinglePushes(us, pawns, Not(OccupiedSet(s.board)));
    var left := AttackLeft(us, pawns) * ColorSet(s.board, us.Other());
    var right := AttackRight(us, pawns) * ColorSet(s.board, us.Other());
    var promo := PromoRank(us);
    PushSegmentSound(s, single * Not(promo), false);
    PushSegmentSound(s, single * promo, true);
    DoubleSegmentSound(s);
    LeftSegmentSound(s, left * Not(promo), false);
    LeftSegmentSound(s, left * promo, true);
    RightSegmentSound(s, right * Not(promo), false);
    RightSegmentSound(s, right * promo, true);
    EpMovesSound(s, pawns);
  }

  lemma EpMovesSound(s: PosState, pawns: Bitboard)
    requires WellFormed(s) && pawns == PieceSet(s.board, Piece(s.side, Pawn))
    ensures forall mv :: mv in EpMoves(s.side, pawns, s.enPassant) ==> Sound(s, mv)
  {
    if s.enPassant.Some? {
      var e := s.enPassant.value;
      if e in AttackLeft(s.side, pawns) {
        LeftOrigin(s.side, pawns, e);
      }
      if e in AttackRight(s.side, pawns) {
        RightOrigin(s.side, pawns, e);
      }
    }
  }

  lemma {:induction false} MovesFromSound(s: PosState, k: PieceKind, origins: seq<nat>)
    requires forall i :: 0 <= i < |origins| ==> origins[i] < 64 && s.board[origins[i]] == Some(Piece(s.side, k))
    ensures forall mv :: mv in MovesFrom(s, k, origins) ==> Sound(s, mv)
    decreases |origins|
  {
    if origins != [] {
      TargetsSound(s, k, origins[0]);
      MovesFromSound(s, k, origins[1..]);
    }
  }

  /** The moves of one piece of the side to move are sound. */
  lemma TargetsSound(s: PosState, k: PieceKind, o: nat)
    requires o < 64 && s.board[o] == Some(Piece(s.side, k))
    ensures forall mv :: mv in MovesTo(o, Ascending(Targets(s, k, o))) ==> Sound(s, mv)
  {
    var T := Targets(s, k, o);
    var tos := Ascending(T);
    AscendingEnumerates(T);
    assert forall i :: 0 <= i < |tos| ==> tos[i] in T;
    assert forall t :: t in T ==> t < 64 && !Own(s, t);
    MovesToSound(s, o, tos);
  }

  lemma PieceMovesSound(s: PosState, k: PieceKind)
    ensures forall mv :: mv in PieceMoves(s, k) ==> Sound(s, mv)
  {
    var origins := Ascending(PieceSet(s.board, Piece(s.side, k)));
    AscendingEnumerates(PieceSet(s.board, Piece(s.side, k)));
    assert forall i :: 0 <= i < |origins| ==> origins[i] in PieceSet(s.board, Piece(s.side, k));
    MovesFromSound(s, k, origins);
  }

  lemma CastlingMovesSound(s: PosState)
    requires WellFormed(s)
    ensures forall mv :: mv in CastlingMoves(s) ==> Sound(s, mv)
  {
    var occ := OccupiedSet(s.board);
    if s.side == White {
      if occ * {5, 6} == {} { PathEmpty(occ, {5, 6}, 5); PathEmpty(occ, {5, 6}, 6); }
      if occ * {1, 2, 3} == {} { PathEmpty(occ, {1, 2, 3}, 2); PathEmpty(occ, {1, 2, 3}, 3); }
    } else {
      if occ * {61, 62} == {} { PathEmpty(occ, {61, 62}, 61); PathEmpty(occ, {61, 62}, 62); }
      if occ * {57, 58, 59} == {} { PathEmpty(occ, {57, 58, 59}, 58); PathEmpty(occ, {57, 58, 59}, 59); }
    }
  }

  lemma PathEmpty(occ: Bitboard, path: set<nat>, q: nat)
    requires occ * path == {} && q in path
    ensures q !in occ
  {
    assert q in occ ==> q in occ * path;
  }

  /** In a well-formed position every pseudo-legal move is sound. */
  lemma PseudoMovesSound(s: PosState)
    requires WellFormed(s)
    ensures forall mv :: mv in PseudoMoves(s) ==> Sound(s, mv)
  {
    PawnMovesSound(s);
    PieceMovesSound(s, Knight);
    PieceMovesSound(s, Bishop);
    PieceMovesSound(s, Rook);
    PieceMovesSound(s, Queen);
    PieceMovesSound(s, King);
    CastlingMovesSound(s);
  }

  /** So the make/test/unmake filter is exact on every well-formed position. */
  lemma WellFormedRestorable(s: PosState)
    requires WellFormed(s)
    ensures Restorable(s)
  {
    PseudoMovesSound(s);
    forall mv | mv in PseudoMoves(s)
      ensures Reversible(s, mv)
    {
      SoundReversible(s, mv);
    }
  }

  // ---------------------------------------------------------------------
  // Which moves each generator produces
  // ---------------------------------------------------------------------

  lemma {:induction false} MovesToMembers(from: nat, tos: seq<nat>, mv: Move)
    ensures mv in MovesTo(from, tos) <==> mv == Quiet(from, mv.to) && mv.to in tos
    decreases |tos|
  {
    if tos != [] {
      MovesToMembers(from, tos[1..], mv);
      assert tos == [tos[0]] + tos[1..];
    }
  }

  lemma {:induction false} MovesFromMembers(s: PosState, k: PieceKind, origins: seq<nat>, mv: Move)
    ensures mv in MovesFrom(s, k, origins) <==> mv == Quiet(mv.from, mv.to) && mv.from in origins && mv.to in Targets(s, k, mv.from)
    decreases |origins|
  {
    if origins != [] {
      var o := origins[0];
      var here := MovesTo(o, Ascending(Targets(s, k, o)));
      var later := MovesFrom(s, k, origins[1..]);
      assert MovesFrom(s, k, origins) == here + later;
      MovesFromMembers(s, k, origins[1..], mv);
      MovesToMembers(o, Ascending(Targets(s, k, o)), mv);
      AscendingMembers(Targets(s, k, o));
      assert mv in here <==> mv == Quiet(o, mv.to) && mv.to in Targets(s, k, o);
      assert mv.from in origins <==> mv.from == o || mv.from in origins[1..];
    }
  }

  /**
   * A knight, bishop, rook, queen or king move is generated exactly when a
   * piece of that kind of the side to move stands on the from-square and
   * attacks the to-square, which does not hold a piece of its own side.
   */
  lemma PieceMovesExactly(s: PosState, k: PieceKind, mv: Move)
    ensures mv in PieceMoves(s, k) <==>
            && mv == Quiet(mv.from, mv.to) && mv.from < 64 && s.board[mv.from] == Some(Piece(s.side, k))
            && mv.to in Threats.PieceAttacks(Piece(s.side, k), mv.from, OccupiedSet(s.board)) && !Own(s, mv.to)
  {
    AscendingEnumerates(PieceSet(s.board, Piece(s.side, k)));
    MovesFromMembers(s, k, Ascending(PieceSet(s.board, Piece(s.side, k))), mv);
  }

  lemma {:induction false} PawnMovesToPromo(tos: seq<nat>, delta: int, promote: bool, P: Bitboard)
    requires forall i :: 0 <= i < |tos| ==> (tos[i] in P <==> promote)
    ensures forall mv :: mv in PawnMovesTo(tos, delta, promote) ==> PromotesOn(mv, P)
    decreases |tos|
  {
    if tos != [] {
      PawnMovesToPromo(tos[1..], delta, promote, P);
    }
  }

  lemma PawnSegmentPromo(T: Bitboard, delta: int, promote: bool, P: Bitboard)
    requires forall t :: t in T ==> (t in P <==> promote)
    ensures forall mv :: mv in PawnMovesTo(Ascending(T), delta, promote) ==> PromotesOn(mv, P)
  {
    AscendingEnumerates(T);
    var tos := Ascending(T);
    assert forall i :: 0 <= i < |tos| ==> tos[i] in T;
    PawnMovesToPromo(tos, delta, promote, P);
  }

  /** A move carries a promotion piece exactly when it lands on P, and then one of the four promotion pieces. */
  predicate PromotesOn(mv: Move, P: Bitboard)
  {
    (mv.promo.Some? <==> mv.to in P) && (mv.promo.Some? ==> mv.promo.value in PROMOTION_ORDER)
  }

  /**
   * A pawn move onto the last rank always carries a promotion piece (one
   * of queen, rook, bishop, knight), and no other pawn move does.
   */
  lemma PawnPromotionsOnly(s: PosState)
    requires WellFormed(s)
    ensures forall mv :: mv in PawnMoves(s) ==> PromotesOn(mv, PromoRank(s.side))
  {
    var us := s.side;
    var pawns := PieceSet(s.board, Piece(us, Pawn));
    var empty := Not(OccupiedSet(s.board));
    var single := SinglePushes(us, pawns, empty);
    var left := AttackLeft(us, pawns) * ColorSet(s.board, us.Other());
    var right := AttackRight(us, pawns) * ColorSet(s.board, us.Other());
    var promo := PromoRank(us);
    var s1 := PawnMovesTo(Ascending(single * Not(promo)), BackDir(us), false);
    var s2 := PawnMovesTo(Ascending(single * promo), BackDir(us), true);
    var s3 := PawnMovesTo(Ascending(DoublePushes(us, pawns, empty)), 2 * BackDir(us), false);
    var s4 := PawnMovesTo(Ascending(left * Not(promo)), BackLeft(us), false);
    var s5 := PawnMovesTo(Ascending(left * promo), BackLeft(us), true);
    var s6 := PawnMovesTo(Ascending(right * Not(promo)), BackRight(us), false);
    var s7 := PawnMovesTo(Ascending(right * promo), BackRight(us), true);
    var s8 := EpMoves(us, pawns, s.enPassant);
    assert PawnMoves(s) == s1 + s2 + s3 + s4 + s5 + s6 + s7 + s8;
    PawnSegmentPromo(single * Not(promo), BackDir(us), false, promo);
    PawnSegmentPromo(single * promo, BackDir(us), true, promo);
    DoubleNotPromo(us, pawns, empty);
    PawnSegmentPromo(DoublePushes(us, pawns, empty), 2 * BackDir(us), false, promo);
    PawnSegmentPromo(left * Not(promo), BackLeft(us), false, promo);
    PawnSegmentPromo(left * promo, BackLeft(us), true, promo);
    PawnSegmentPromo(right * Not(promo), BackRight(us), false, promo);
    PawnSegmentPromo(right * promo, BackRight(us), true, promo);
    EpNotPromo(s, pawns);
  }

  lemma EpNotPromo(s: PosState, pawns: Bitboard)
    requires WellFormed(s)
    ensures forall mv :: mv in EpMoves(s.side, pawns, s.enPassant) ==> PromotesOn(mv, PromoRank(s.side))
  {
    if s.enPassant.Some? {
      assert s.enPassant.value !in PromoRank(s.side);
    }
  }

  lemma DoubleNotPromo(c: Color, pawns: Bitboard, empty: Bitboard)
    ensures forall t :: t in DoublePushes(c, pawns, empty) ==> t !in PromoRank(c)
  {
  }

  /** The rook's home corner and the castling right for a king move to `to`. */
  function CastleRight(cr: CastlingRights, c: Color, to: nat): bool
  {
    match (c, to)
    case (White, 6) => cr.wk
    case (White, 2) => cr.wq
    case (Black, 62) => cr.bk
    case (Black, 58) => cr.bq
    case _ => false
  }

  /** The squares strictly between the king's square and the rook's corner are empty. */
  predicate PathClear(s: PosState, from: nat, corner: nat)
  {
    forall q: nat :: q < 64 && (from < q < corner || corner < q < from) ==> s.board[q].None?
  }

  /** The four castling options, side by side: the move, its right, its path and its two guarded squares. */
  predicate CastlingCase(s: PosState, mv: Move)
  {
    if s.side == White then
      || (mv == CastleMove(4, 6) && CastleAllowed(s, s.castling.wk, {5, 6}, 5, 6))
      || (mv == CastleMove(4, 2) && CastleAllowed(s, s.castling.wq, {1, 2, 3}, 2, 3))
    else
      || (mv == CastleMove(60, 62) && CastleAllowed(s, s.castling.bk, {61, 62}, 61, 62))
      || (mv == CastleMove(60, 58) && CastleAllowed(s, s.castling.bq, {57, 58, 59}, 58, 59))
  }

  lemma CastlingMembers(s: PosState, mv: Move)
    ensures mv in CastlingMoves(s) <==> !Threats.InCheck(s.board, s.side) && CastlingCase(s, mv)
  {
  }

  lemma AllowedPathClear(s: PosState, right: bool, path: set<nat>, a: nat, b: nat, from: nat, corner: nat)
    requires CastleAllowed(s, right, path, a, b)
    requires forall q: nat :: (from < q < corner || corner < q < from) ==> q in path && q < 64
    ensures PathClear(s, from, corner)
  {
    forall q: nat | q < 64 && (from < q < corner || corner < q < from)
      ensures s.board[q].None?
    {
      PathEmpty(OccupiedSet(s.board), path, q);
    }
  }

  /**
   * A castling move is generated only when the side is not in check, holds
   * the right, every square between king and rook is empty, and neither the
   * square the king crosses nor its destination is attacked.
   */
  lemma CastlingConditions(s: PosState, mv: Move)
    requires mv in CastlingMoves(s)
    ensures mv == CastleMove(mv.from, mv.to) && mv.from == (if s.side == White then 4 else 60)
    ensures !Threats.InCheck(s.board, s.side) && CastleRight(s.castling, s.side, mv.to)
    ensures CastleRookSquares(s.side, mv.from, mv.to).Some?
    ensures PathClear(s, mv.from, CastleRookSquares(s.side, mv.from, mv.to).value.0)
    ensures !Threats.Attacked(s.board, (mv.from + mv.to) / 2, s.side.Other())
    ensures !Threats.Attacked(s.board, mv.to, s.side.Other())
  {
    CastlingMembers(s, mv);
    if s.side == White {
      if mv == CastleMove(4, 6) {
        AllowedPathClear(s, s.castling.wk, {5, 6}, 5, 6, 4, 7);
        assert (mv.from + mv.to) / 2 == 5;
      } else {
        AllowedPathClear(s, s.castling.wq, {1, 2, 3}, 2, 3, 4, 0);
        assert (mv.from + mv.to) / 2 == 3;
      }
    } else {
      if mv == CastleMove(60, 62) {
        AllowedPathClear(s, s.castling.bk, {61, 62}, 61, 62, 60, 63);
        assert (mv.from + mv.to) / 2 == 61;
      } else {
        AllowedPathClear(s, s.castling.bq, {57, 58, 59}, 58, 59, 60, 56);
        assert (mv.from + mv.to) / 2 == 59;
      }
    }
  }

  lemma ClearPathAllowed(s: PosState, right: bool, path: set<nat>, a: nat, b: nat, from: nat, corner: nat)
    requires right && PathClear(s, from, corner)
    requires !Threats.Attacked(s.board, a, s.side.Other()) && !Threats.Attacked(s.board, b, s.side.Other())
    requires forall q: nat :: q in path ==> (from < q < corner || corner < q < from)
    ensures CastleAllowed(s, right, path, a, b)
  {
    forall q | q in OccupiedSet(s.board) * path
      ensures false
    {
    }
  }

  /** Conversely, a castling option whose conditions all hold is generated. */
  lemma CastlingOffered(s: PosState, to: nat)
    requires to in (if s.side == White then {6, 2} else {62, 58})
    requires !Threats.InCheck(s.board, s.side) && CastleRight(s.castling, s.side, to)
    requires var from := if s.side == White then 4 else 60;
             && PathClear(s, from, CastleRookSquares(s.side, from, to).value.0)
             && !Threats.Attacked(s.board, (from + to) / 2, s.side.Other())
             && !Threats.Attacked(s.board, to, s.side.Other())
    ensures CastleMove(if s.side == White then 4 else 60, to) in CastlingMoves(s)
  {
    if s.side == White {
      if to == 6 {
        assert CastleRookSquares(White, 4, 6) == Some((7, 5)) && (4 + 6) / 2 == 5;
        ClearPathAllowed(s, s.castling.wk, {5, 6}, 5, 6, 4, 7);
        assert CastlingCase(s, CastleMove(4, 6));
      } else {
        assert to == 2 && CastleRookSquares(White, 4, 2) == Some((0, 3)) && (4 + 2) / 2 == 3;
        ClearPathAllowed(s, s.castling.wq, {1, 2, 3}, 2, 3, 4, 0);
        assert CastlingCase(s, CastleMove(4, 2));
      }
    } else {
      if to == 62 {
        assert CastleRookSquares(Black, 60, 62) == Some((63, 61)) && (60 + 62) / 2 == 61;
        ClearPathAllowed(s, s.castling.bk, {61, 62}, 61, 62, 60, 63);
        assert CastlingCase(s, CastleMove(60, 62));
      } else {
        assert to == 58 && CastleRookSquares(Black, 60, 58) == Some((56, 59)) && (60 + 58) / 2 == 59;
        ClearPathAllowed(s, s.castling.bq, {57, 58, 59}, 58, 59, 60, 56);
        assert CastlingCase(s, CastleMove(60, 58));
      }
    }
    CastlingMembers(s, CastleMove(if s.side == White then 4 else 60, to));
  }

  /** The initial position is well formed, so its moves are generated and filtered exactly. */
  lemma StartWellFormed()
    ensures WellFormed(StartState())
    ensures Restorable(StartState())
  {
    WellFormedRestorable(StartState());
  }
}
