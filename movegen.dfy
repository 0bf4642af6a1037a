/**
 * Move generation on a `Position` (crates/chess_core/src/movegen.rs): the
 * per-piece generators drain bitboards with `pop_lsb` and push into a
 * move buffer, and `legal_moves_into` keeps the moves that, played on the
 * position and taken back again, do not leave the mover in check. Every
 * method is proved to produce exactly the lists of module Generation.
 */
module MoveGen {
  import opened Wrappers
  import opened Types
  import opened Bitboards
  import opened Attacks
  import opened Positions
  import opened Generation
  import opened Board
  import Threats

  /** A `Vec<Move>` that generators push into and callers reuse. */
  class MoveBuffer {
    var items: seq<Move>

    /** `Vec::with_capacity(64)`: an empty buffer. */
    constructor ()
      ensures items == []
    {
      items := [];
    }

    /** `clear()`. */
    method Clear()
      modifies this
      ensures items == []
    {
      items := [];
    }

    /** `push(mv)`. */
    method Push(mv: Move)
      modifies this
      ensures items == old(items) + [mv]
    {
      items := items + [mv];
    }
  }

  /** Appending to a buffer in steps appends the concatenation of the steps. */
  lemma AppendAssoc(a: seq<Move>, b: seq<Move>, c: seq<Move>)
    ensures (a + b) + c == a + (b + c)
  {
  }

  /** The inner `pop_lsb` loop of the piece generators: one plain move to each target, lowest first. */
  method PushTargets(from: nat, targets: Bitboard, out: MoveBuffer)
    modifies out
    ensures out.items == old(out.items) + MovesTo(from, Ascending(targets))
  {
    var rest := targets;
    while true
      invariant out.items + MovesTo(from, Ascending(rest)) == old(out.items) + MovesTo(from, Ascending(targets))
      decreases |rest|
    {
      ghost var before := rest;
      var to: Option<nat>;
      to, rest := PopLsb(rest);
      if to.None? {
        break;
      }
      MovesToStep(from, before);
      AppendAssoc(out.items, [Quiet(from, to.value)], MovesTo(from, Ascending(rest)));
      out.Push(Quiet(from, to.value));
    }
  }

  /** `add_promotions`: queen, rook, bishop, knight. */
  method AddPromotions(from: nat, to: nat, out: MoveBuffer)
    modifies out
    ensures out.items == old(out.items) + Promotions(from, to)
  {
    var kinds := PROMOTION_ORDER;
    for i := 0 to 4
      invariant out.items == old(out.items) + Promotions(from, to)[..i]
    {
      assert Promotions(from, to)[..i + 1] == Promotions(from, to)[..i] + [Move(from, to, Some(kinds[i]), false, false)];
      out.Push(Move(from, to, Some(kinds[i]), false, false));
    }
    assert Promotions(from, to)[..4] == Promotions(from, to);
  }

  /** One pawn `pop_lsb` loop: from the square `delta` away, a plain move or the promotions. */
  method PushPawnTargets(targets: Bitboard, delta: int, promote: bool, out: MoveBuffer)
    modifies out
    ensures out.items == old(out.items) + PawnMovesTo(Ascending(targets), delta, promote)
  {
    var rest := targets;
    while true
      invariant out.items + PawnMovesTo(Ascending(rest), delta, promote) == old(out.items) + PawnMovesTo(Ascending(targets), delta, promote)
      decreases |rest|
    {
      ghost var before := rest;
      ghost var start := out.items;
      var to: Option<nat>;
      to, rest := PopLsb(rest);
      if to.None? {
        break;
      }
      var from := Back(to.value, delta);
      if promote {
        AddPromotions(from, to.value, out);
      } else {
        out.Push(Quiet(from, to.value));
      }
      PawnMovesToStep(before, delta, promote);
      AppendAssoc(start, if promote then Promotions(from, to.value) else [Quiet(from, to.value)], PawnMovesTo(Ascending(rest), delta, promote));
    }
  }

  /** The en-passant part of `gen_pawn_moves`. */
  method PushEpMoves(us: Color, pawns: Bitboard, ep: Option<nat>, out: MoveBuffer)
    requires ep.Some? ==> ep.value < 64
    modifies out
    ensures out.items == old(out.items) + EpMoves(us, pawns, ep)
  {
    if ep.Some? {
      var epSq := ep.value;
      var epBb := FromSquare(epSq);
      assert AttackLeft(us, pawns) * epBb == if epSq in AttackLeft(us, pawns) then {epSq} else {};
      assert AttackRight(us, pawns) * epBb == if epSq in AttackRight(us, pawns) then {epSq} else {};
      if AttackLeft(us, pawns) * epBb != {} {
        var from := Back(epSq, BackLeft(us));
        out.Push(Move(from, epSq, None, true, false));
      }
      if AttackRight(us, pawns) * epBb != {} {
        var from := Back(epSq, BackRight(us));
        out.Push(Move(from, epSq, None, true, false));
      }
    }
  }

  /** `gen_pawn_moves`: reads the pawns and the en-passant square of the position. */
  method GenPawnMoves(pos: Position, us: Color, theirPieces: Bitboard, empty: Bitboard, out: MoveBuffer)
    requires pos.Valid() && us == pos.sideToMove
    requires theirPieces == ColorSet(pos.board, us.Other()) && empty == Not(OccupiedSet(pos.board))
    requires pos.enPassant.Some? ==> pos.enPassant.value < 64
    modifies out
    ensures out.items == old(out.items) + PawnMoves(pos.State())
  {
    var pawns := pos.bitboards.Pieces(us, Pawn);
    assert pawns == PieceSet(pos.board, Piece(us, Pawn));
    var ep := pos.enPassant;
    assert PawnMoves(pos.State()) == PawnMovesOf(us, pawns, theirPieces, empty, ep);
    PushPawnMoves(us, pawns, theirPieces, empty, ep, out);
  }

  /** The body of `gen_pawn_moves`: pushes, double pushes, captures and en passant, promotions on the last rank. */
  method PushPawnMoves(us: Color, pawns: Bitboard, theirPieces: Bitboard, empty: Bitboard, ep: Option<nat>, out: MoveBuffer)
    requires ep.Some? ==> ep.value < 64
    modifies out
    ensures out.items == old(out.items) + PawnMovesOf(us, pawns, theirPieces, empty, ep)
  {
    var promoRank := PromoRank(us);
    var singlePush := SinglePushes(us, pawns, empty);
    var doublePush := DoublePushes(us, pawns, empty);
    var leftAttacks := AttackLeft(us, pawns) * theirPieces;
    var rightAttacks := AttackRight(us, pawns) * theirPieces;
    ghost var o0 := out.items;
    PushPawnTargets(singlePush * Not(promoRank), BackDir(us), false, out);
    ghost var acc := PawnMovesTo(Ascending(singlePush * Not(promoRank)), BackDir(us), false);
    assert out.items == o0 + acc;
    PushPawnTargets(singlePush * promoRank, BackDir(us), true, out);
    AppendAssoc(o0, acc, PawnMovesTo(Ascending(singlePush * promoRank), BackDir(us), true));
    acc := acc + PawnMovesTo(Ascending(singlePush * promoRank), BackDir(us), true);
    assert out.items == o0 + acc;
    PushPawnTargets(doublePush, 2 * BackDir(us), false, out);
    AppendAssoc(o0, acc, PawnMovesTo(Ascending(doublePush), 2 * BackDir(us), false));
    acc := acc + PawnMovesTo(Ascending(doublePush), 2 * BackDir(us), false);
    assert out.items == o0 + acc;
    PushPawnTargets(leftAttacks * Not(promoRank), BackLeft(us), false, out);
    AppendAssoc(o0, acc, PawnMovesTo(Ascending(leftAttacks * Not(promoRank)), BackLeft(us), false));
    acc := acc + PawnMovesTo(Ascending(leftAttacks * Not(promoRank)), BackLeft(us), false);
    assert out.items == o0 + acc;
    PushPawnTargets(leftAttacks * promoRank, BackLeft(us), true, out);
    AppendAssoc(o0, acc, PawnMovesTo(Ascending(leftAttacks * promoRank), BackLeft(us), true));
    acc := acc + PawnMovesTo(Ascending(leftAttacks * promoRank), BackLeft(us), true);
    assert out.items == o0 + acc;
    PushPawnTargets(rightAttacks * Not(promoRank), BackRight(us), false, out);
    AppendAssoc(o0, acc, PawnMovesTo(Ascending(rightAttacks * Not(promoRank)), BackRight(us), false));
    acc := acc + PawnMovesTo(Ascending(rightAttacks * Not(promoRank)), BackRight(us), false);
    assert out.items == o0 + acc;
    PushPawnTargets(rightAttacks * promoRank, BackRight(us), true, out);
    AppendAssoc(o0, acc, PawnMovesTo(Ascending(rightAttacks * promoRank), BackRight(us), true));
    acc := acc + PawnMovesTo(Ascending(rightAttacks * promoRank), BackRight(us), true);
    assert out.items == o0 + acc;
    PushEpMoves(us, pawns, ep, out);
    AppendAssoc(o0, acc, EpMoves(us, pawns, ep));
    acc := acc + EpMoves(us, pawns, ep);
    assert out.items == o0 + acc;
    assert acc == PawnMovesOf(us, pawns, theirPieces, empty, ep);
  }

  /** `knight_attacks`, `bishop_attacks`, `rook_attacks`, `queen_attacks` or `king_attacks` of a square. */
  method AttacksOf(us: Color, k: PieceKind, from: nat, occupied: Bitboard) returns (attacks: Bitboard)
    requires k != Pawn
    ensures attacks == Threats.PieceAttacks(Piece(us, k), from, occupied)
  {
    match k
    case Knight => attacks := KnightAttacks(from);
    case Bishop => attacks := ComputeBishopAttacks(from, occupied);
    case Rook => attacks := ComputeRookAttacks(from, occupied);
    case Queen =>
      var diagonal := ComputeBishopAttacks(from, occupied);
      var straight := ComputeRookAttacks(from, occupied);
      attacks := diagonal + straight;
    case King => attacks := KingAttacks(from);
  }

  /** `gen_knight_moves` … `gen_king_moves`: for each piece of kind k, lowest square first, its targets. */
  method GenPieceMoves(pos: Position, us: Color, k: PieceKind, ourPieces: Bitboard, occupied: Bitboard, out: MoveBuffer)
    requires pos.Valid() && us == pos.sideToMove && k != Pawn
    requires ourPieces == ColorSet(pos.board, us) && occupied == OccupiedSet(pos.board)
    modifies out
    ensures out.items == old(out.items) + PieceMoves(pos.State(), k)
  {
    var pieces := pos.bitboards.Pieces(us, k);
    assert pieces == PieceSet(pos.board, Piece(us, k));
    PushPieceMoves(pos.State(), us, k, pieces, ourPieces, occupied, out);
  }

  /** The `pop_lsb` loop over the pieces of kind k of the side to move of s. */
  method PushPieceMoves(ghost s: PosState, us: Color, k: PieceKind, pieces: Bitboard, ourPieces: Bitboard, occupied: Bitboard, out: MoveBuffer)
    requires us == s.side && k != Pawn && ourPieces == ColorSet(s.board, s.side) && occupied == OccupiedSet(s.board)
    modifies out
    ensures out.items == old(out.items) + MovesFrom(s, k, Ascending(pieces))
  {
    var rest := pieces;
    while true
      invariant out.items + MovesFrom(s, k, Ascending(rest)) == old(out.items) + MovesFrom(s, k, Ascending(pieces))
      decreases |rest|
    {
      ghost var before := rest;
      var from: Option<nat>;
      from, rest := PopLsb(rest);
      if from.None? {
        break;
      }
      var attacks := AttacksOf(us, k, from.value, occupied);
      var targets := attacks * Not(ourPieces);
      assert targets == Targets(s, k, from.value);
      MovesFromStep(s, k, before);
      AppendAssoc(out.items, MovesTo(from.value, Ascending(targets)), MovesFrom(s, k, Ascending(rest)));
      PushTargets(from.value, targets, out);
    }
  }

  /** One castling option: the right, an empty path, then two unattacked squares, checked lazily. */
  method TryCastle(pos: Position, right: bool, occupied: Bitboard, path: set<nat>, a: nat, b: nat, from: nat, to: nat, out: MoveBuffer)
    requires pos.Valid() && occupied == OccupiedSet(pos.board) && a < 64 && b < 64
    modifies out
    ensures out.items == old(out.items) + if CastleAllowed(pos.State(), right, path, a, b) then [CastleMove(from, to)] else []
  {
    if right {
      var pathClear := occupied * path == {};
      if pathClear {
        var enemy := pos.sideToMove.Other();
        var attackedA := pos.IsSquareAttacked(a, enemy);
        if !attackedA {
          var attackedB := pos.IsSquareAttacked(b, enemy);
          if !attackedB {
            out.Push(CastleMove(from, to));
          }
        }
      }
    }
  }

  /** `gen_castling_moves`. The paths are the bitboards 0x60, 0x0E, 0x60 << 56 and 0x0E << 56. */
  method GenCastlingMoves(pos: Position, us: Color, occupied: Bitboard, out: MoveBuffer)
    requires pos.Valid() && us == pos.sideToMove && occupied == OccupiedSet(pos.board)
    modifies out
    ensures out.items == old(out.items) + CastlingMoves(pos.State())
  {
    var check := pos.InCheck(us);
    if check {
      return;
    }
    match us
    case White =>
      TryCastle(pos, pos.castling.wk, occupied, {5, 6}, 5, 6, 4, 6, out);
      TryCastle(pos, pos.castling.wq, occupied, {1, 2, 3}, 2, 3, 4, 2, out);
    case Black =>
      TryCastle(pos, pos.castling.bk, occupied, {61, 62}, 61, 62, 60, 62, out);
      TryCastle(pos, pos.castling.bq, occupied, {57, 58, 59}, 58, 59, 60, 58, out);
  }

  /** `pseudo_moves`: every generator in turn, appending to `out`. */
  method PseudoMovesInto(pos: Position, out: MoveBuffer)
    requires pos.Valid()
    requires pos.enPassant.Some? ==> pos.enPassant.value < 64
    modifies out
    ensures out.items == old(out.items) + PseudoMoves(pos.State())
  {
    var us := pos.sideToMove;
    var them := us.Other();
    var ourPieces := pos.bitboards.OfColor(us);
    var theirPieces := pos.bitboards.OfColor(them);
    var occupied := pos.bitboards.Occupied();
    var empty := Not(occupied);
    ghost var s := pos.State();
    ghost var o0 := out.items;
    GenPawnMoves(pos, us, theirPieces, empty, out);
    ghost var acc := PawnMoves(s);
    GenPieceMoves(pos, us, Knight, ourPieces, occupied, out);
    AppendAssoc(o0, acc, PieceMoves(s, Knight));
    acc := acc + PieceMoves(s, Knight);
    assert out.items == o0 + acc;
    GenPieceMoves(pos, us, Bishop, ourPieces, occupied, out);
    AppendAssoc(o0, acc, PieceMoves(s, Bishop));
    acc := acc + PieceMoves(s, Bishop);
    assert out.items == o0 + acc;
    GenPieceMoves(pos, us, Rook, ourPieces, occupied, out);
    AppendAssoc(o0, acc, PieceMoves(s, Rook));
    acc := acc + PieceMoves(s, Rook);
    assert out.items == o0 + acc;
    GenPieceMoves(pos, us, Queen, ourPieces, occupied, out);
    AppendAssoc(o0, acc, PieceMoves(s, Queen));
    acc := acc + PieceMoves(s, Queen);
    assert out.items == o0 + acc;
    GenPieceMoves(pos, us, King, ourPieces, occupied, out);
    AppendAssoc(o0, acc, PieceMoves(s, King));
    acc := acc + PieceMoves(s, King);
    assert out.items == o0 + acc;
    GenCastlingMoves(pos, us, occupied, out);
    AppendAssoc(o0, acc, CastlingMoves(s));
    acc := acc + CastlingMoves(s);
    assert out.items == o0 + acc;
  }

  /** Make the move, ask whether the mover is in check, and take the move back. */
  method TestMove(pos: Position, mover: Color, mv: Move) returns (safe: bool)
    requires pos.Valid() && mover == pos.sideToMove && Reversible(pos.State(), mv)
    modifies pos
    ensures pos.Valid() && pos.State() == old(pos.State())
    ensures safe == KeepsKingSafe(old(pos.State()), mv)
  {
    ghost var s := pos.State();
    var undo := pos.MakeMove(mv);
    var check := pos.InCheck(mover);
    UnmakeMake(s, mv);
    pos.UnmakeMove(mv, undo);
    safe := !check;
  }

  /**
   * `legal_moves_into`: clear the buffer, generate the pseudo-legal moves,
   * then keep each move after which, played and taken back on the
   * position, the mover is not in check. The position ends as it began.
   */
  method LegalMovesInto(pos: Position, out: MoveBuffer)
    requires pos.Valid() && Restorable(pos.State())
    requires pos.enPassant.Some? ==> pos.enPassant.value < 64
    modifies pos, out
    ensures pos.Valid() && pos.State() == old(pos.State()) && pos.bitboards == old(pos.bitboards)
    ensures out.items == LegalMoves(old(pos.State()))
  {
    ghost var s := pos.State();
    ghost var bbs := pos.bitboards;
    out.Clear();
    PseudoMovesInto(pos, out);
    assert out.items == PseudoMoves(s);
    var mover := pos.sideToMove;
    RetainSafe(pos, mover, out);
    SyncedUnique(pos.bitboards, bbs, pos.board);
  }

  /** `out.retain(...)`: keep the moves that, played and taken back, leave the mover out of check. */
  method RetainSafe(pos: Position, mover: Color, out: MoveBuffer)
    requires pos.Valid() && mover == pos.sideToMove
    requires forall m :: m in out.items ==> CanMake(pos.State(), m) && Reversible(pos.State(), m)
    modifies pos, out
    ensures pos.Valid() && pos.State() == old(pos.State())
    ensures out.items == KeepLegal(old(pos.State()), old(out.items))
  {
    ghost var s := pos.State();
    var moves := out.items;
    var kept: seq<Move> := [];
    for i := 0 to |moves|
      invariant pos.Valid() && pos.State() == s
      invariant forall m :: m in moves[..i] ==> m in moves
      invariant kept == KeepLegal(s, moves[..i])
    {
      var mv := moves[i];
      KeepLegalStep(s, moves, i);
      var safe := TestMove(pos, mover, mv);
      if safe {
        kept := kept + [mv];
      }
    }
    assert moves[..|moves|] == moves;
    out.items := kept;
  }

  /** `legal_moves`: the same filter run on a clone, so the position itself is not touched. */
  method LegalMovesOf(pos: Position) returns (moves: seq<Move>)
    requires pos.Valid() && Restorable(pos.State())
    requires pos.enPassant.Some? ==> pos.enPassant.value < 64
    ensures moves == LegalMoves(pos.State())
  {
    var tmp := new Position.Clone(pos);
    var out := new MoveBuffer();
    LegalMovesInto(tmp, out);
    moves := out.items;
  }
}
