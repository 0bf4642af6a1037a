/**
 * Which squares a side attacks (crates/chess_core/src/board.rs,
 * `is_square_attacked` and `in_check`). The reference definition looks
 * forwards, from every piece of the attacking side to the squares it
 * reaches; the source looks backwards, from the target square with each
 * piece's attack pattern. The two agree because every pattern is
 * symmetric (a pawn's with the colour swapped, a slider's with the
 * direction reversed); the lemmas here prove it.
 */
module Threats {
  import opened Wrappers
  import opened Types
  import opened Bitboards
  import opened Attacks
  import opened Positions

  /** The squares a piece standing on `from` attacks under the occupancy `occ`. */
  function PieceAttacks(p: Piece, from: nat, occ: Bitboard): Bitboard
  {
    match p.kind
    case Pawn => PawnAttacks(from, p.color == White)
    case Knight => KnightAttacks(from)
    case Bishop => BishopAttacks(from, occ)
    case Rook => RookAttacks(from, occ)
    case Queen => QueenAttacks(from, occ)
    case King => KingAttacks(from)
  }

  /** Some piece of colour `attacker` attacks `target`. */
  predicate Attacked(board: Mailbox, target: nat, attacker: Color)
  {
    exists a: nat :: a < 64 && board[a].Some? && board[a].value.color == attacker
                     && target in PieceAttacks(board[a].value, a, OccupiedSet(board))
  }

  /**
   * `in_check(c)`: the king of colour c (the lowest-numbered one, as
   * `king_sq` takes it) is attacked by the other colour; a side without a
   * king is never in check.
   */
  predicate InCheck(board: Mailbox, c: Color)
  {
    var kings := PieceSet(board, Piece(c, King));
    kings != {} && Attacked(board, Lsb(kings).value, c.Other())
  }

  /** The direction opposite to d. */
  function Opposite(d: nat): (o: nat)
    requires d < 8
    ensures o < 8 && DirFile(o) == -DirFile(d) && DirRank(o) == -DirRank(d)
  {
    (d + 4) % 8
  }

  lemma KnightSymmetric(s: nat, t: nat)
    requires s < 64 && t < 64
    ensures t in KnightAttacks(s) <==> s in KnightAttacks(t)
  {
  }

  lemma KingSymmetric(s: nat, t: nat)
    requires s < 64 && t < 64
    ensures t in KingAttacks(s) <==> s in KingAttacks(t)
  {
  }

  /** A pawn of one colour on s hits t exactly when a pawn of the other colour on t would hit s. */
  lemma PawnSymmetric(s: nat, t: nat, isWhite: bool)
    requires s < 64 && t < 64
    ensures t in PawnAttacks(s, isWhite) <==> s in PawnAttacks(t, !isWhite)
  {
  }

  /** t lies on the ray from s in direction d exactly when s lies on the reverse ray from t. */
  lemma RayReverse(d: nat, s: nat, t: nat)
    requires d < 8 && s < 64 && t < 64
    ensures t in Ray(d, s) <==> s in Ray(Opposite(d), t)
  {
    var o := Opposite(d);
    if t in Ray(d, s) {
      assert OnRay(t, s, DirFile(o), DirRank(o));
    }
    if s in Ray(o, t) {
      assert OnRay(s, t, DirFile(d), DirRank(d));
    }
  }

  /** A square between s and t, seen from s, is between them seen from t. */
  lemma BetweenFromOtherEnd(d: nat, s: nat, t: nat, u: nat)
    requires d < 8 && s < 64 && t in Ray(d, s)
    requires u in Ray(d, s) && Dist(s, u) < Dist(s, t)
    ensures u in Ray(Opposite(d), t) && Dist(t, u) < Dist(t, s)
  {
    var o := Opposite(d);
    assert OnRay(t, u, DirFile(o), DirRank(o));
  }

  /** The squares strictly between s and t are the same whichever end the ray starts from. */
  lemma RayBetween(d: nat, s: nat, t: nat, u: nat)
    requires d < 8 && s < 64 && t in Ray(d, s)
    ensures (u in Ray(d, s) && Dist(s, u) < Dist(s, t)) <==> (u in Ray(Opposite(d), t) && Dist(t, u) < Dist(t, s))
  {
    var o := Opposite(d);
    RayReverse(d, s, t);
    if u in Ray(d, s) && Dist(s, u) < Dist(s, t) {
      BetweenFromOtherEnd(d, s, t, u);
    }
    if u in Ray(o, t) && Dist(t, u) < Dist(t, s) {
      assert Opposite(o) == d;
      BetweenFromOtherEnd(o, t, s, u);
    }
  }

  /** A slide reaches t from s exactly when the reverse slide reaches s from t. */
  lemma SlideSymmetric(d: nat, s: nat, t: nat, occ: Bitboard)
    requires d < 8 && s < 64 && t < 64
    ensures t in Slide(d, s, occ) <==> s in Slide(Opposite(d), t, occ)
  {
    RayReverse(d, s, t);
    var o := Opposite(d);
    if t in Ray(d, s) {
      forall u
        ensures (u in Ray(d, s) && Dist(s, u) < Dist(s, t)) <==> (u in Ray(o, t) && Dist(t, u) < Dist(t, s))
      {
        RayBetween(d, s, t, u);
      }
    }
  }

  lemma BishopMember(s: nat, occ: Bitboard, t: nat)
    ensures t in BishopAttacks(s, occ) <==>
      t in Slide(1, s, occ) || t in Slide(7, s, occ) || t in Slide(3, s, occ) || t in Slide(5, s, occ)
  {
    SlideUnionFour(1, 7, 3, 5, s, occ);
  }

  lemma RookMember(s: nat, occ: Bitboard, t: nat)
    ensures t in RookAttacks(s, occ) <==>
      t in Slide(0, s, occ) || t in Slide(2, s, occ) || t in Slide(4, s, occ) || t in Slide(6, s, occ)
  {
    SlideUnionFour(0, 2, 4, 6, s, occ);
  }

  lemma BishopSymmetric(s: nat, t: nat, occ: Bitboard)
    requires s < 64 && t < 64
    ensures t in BishopAttacks(s, occ) <==> s in BishopAttacks(t, occ)
  {
    BishopMember(s, occ, t);
    BishopMember(t, occ, s);
    SlideSymmetric(1, s, t, occ);
    SlideSymmetric(7, s, t, occ);
    SlideSymmetric(3, s, t, occ);
    SlideSymmetric(5, s, t, occ);
  }

  lemma RookSymmetric(s: nat, t: nat, occ: Bitboard)
    requires s < 64 && t < 64
    ensures t in RookAttacks(s, occ) <==> s in RookAttacks(t, occ)
  {
    RookMember(s, occ, t);
    RookMember(t, occ, s);
    SlideSymmetric(0, s, t, occ);
    SlideSymmetric(2, s, t, occ);
    SlideSymmetric(4, s, t, occ);
    SlideSymmetric(6, s, t, occ);
  }

  /**
   * The five backwards lookups `is_square_attacked` makes from the target
   * square: pawn patterns of the other colour against the attacker's
   * pawns, knight and king patterns against its knights and king, and the
   * bishop and rook slides against its bishops, rooks and queens.
   */
  predicate FoundByLookups(board: Mailbox, target: nat, attacker: Color)
  {
    var occ := OccupiedSet(board);
    || PawnAttacks(target, attacker != White) * PieceSet(board, Piece(attacker, Pawn)) != {}
    || KnightAttacks(target) * PieceSet(board, Piece(attacker, Knight)) != {}
    || KingAttacks(target) * PieceSet(board, Piece(attacker, King)) != {}
    || BishopAttacks(target, occ) * (PieceSet(board, Piece(attacker, Bishop)) + PieceSet(board, Piece(attacker, Queen))) != {}
    || RookAttacks(target, occ) * (PieceSet(board, Piece(attacker, Rook)) + PieceSet(board, Piece(attacker, Queen))) != {}
  }

  /** Looking backwards from the target finds an attacker exactly when one looks forwards onto it. */
  lemma LookupsFindAttackers(board: Mailbox, target: nat, attacker: Color)
    requires target < 64
    ensures FoundByLookups(board, target, attacker) <==> Attacked(board, target, attacker)
  {
    if Attacked(board, target, attacker) {
      var a: nat :| a < 64 && board[a].Some? && board[a].value.color == attacker
                    && target in PieceAttacks(board[a].value, a, OccupiedSet(board));
      AttackerIsFound(board, target, attacker, a);
    }
    if FoundByLookups(board, target, attacker) {
      FoundIsAttacker(board, target, attacker);
    }
  }

  lemma AttackerIsFound(board: Mailbox, target: nat, attacker: Color, a: nat)
    requires target < 64 && a < 64 && board[a].Some? && board[a].value.color == attacker
    requires target in PieceAttacks(board[a].value, a, OccupiedSet(board))
    ensures FoundByLookups(board, target, attacker)
  {
    var occ := OccupiedSet(board);
    var p := board[a].value;
    assert p == Piece(attacker, p.kind);
    assert a in PieceSet(board, p);
    match p.kind
    case Pawn =>
      PawnSymmetric(a, target, attacker == White);
      assert a in PawnAttacks(target, attacker != White) * PieceSet(board, Piece(attacker, Pawn));
    case Knight =>
      KnightSymmetric(a, target);
      assert a in KnightAttacks(target);
    case King =>
      KingSymmetric(a, target);
      assert a in KingAttacks(target);
    case Bishop =>
      BishopSymmetric(a, target, occ);
      assert a in BishopAttacks(target, occ);
    case Rook =>
      RookSymmetric(a, target, occ);
      assert a in RookAttacks(target, occ);
    case Queen =>
      BishopSymmetric(a, target, occ);
      RookSymmetric(a, target, occ);
      assert a in BishopAttacks(target, occ) || a in RookAttacks(target, occ);
  }

  lemma FoundIsAttacker(board: Mailbox, target: nat, attacker: Color)
    requires target < 64 && FoundByLookups(board, target, attacker)
    ensures Attacked(board, target, attacker)
  {
    var occ := OccupiedSet(board);
    var pawns := PawnAttacks(target, attacker != White) * PieceSet(board, Piece(attacker, Pawn));
    var knights := KnightAttacks(target) * PieceSet(board, Piece(attacker, Knight));
    var kings := KingAttacks(target) * PieceSet(board, Piece(attacker, King));
    var diagonal := BishopAttacks(target, occ) * (PieceSet(board, Piece(attacker, Bishop)) + PieceSet(board, Piece(attacker, Queen)));
    var straight := RookAttacks(target, occ) * (PieceSet(board, Piece(attacker, Rook)) + PieceSet(board, Piece(attacker, Queen)));
    var a: nat;
    if pawns != {} {
      a :| a in pawns;
      PawnSymmetric(a, target, attacker == White);
    } else if knights != {} {
      a :| a in knights;
      KnightSymmetric(a, target);
    } else if kings != {} {
      a :| a in kings;
      KingSymmetric(a, target);
    } else if diagonal != {} {
      a :| a in diagonal;
      BishopSymmetric(a, target, occ);
    } else {
      assert straight != {};
      a :| a in straight;
      RookSymmetric(a, target, occ);
    }
    assert target in PieceAttacks(board[a].value, a, occ);
  }
}
