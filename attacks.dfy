/**
 * Attack tables and sliding attacks (crates/chess_core/src/attacks.rs).
 *
 * The tables are computed by the Build... methods exactly as the static
 * initialisers compute them (a loop over the 64 squares OR-ing masked
 * shifts, and one walk per direction for the rays). Each method is proved
 * to produce the geometric reference set: KnightAttacks, KingAttacks,
 * PawnAttacks and Ray. Lookups into a table are modelled by the reference
 * function, which the table equals.
 */
module Attacks {
  import opened Wrappers
  import opened Types
  import opened Bitboards

  function Abs(x: int): nat
  {
    if x < 0 then -x else x
  }

  /** File and rank differences from sq to t. */
  function DFile(sq: nat, t: nat): int
  {
    FileOf(t) - FileOf(sq)
  }

  function DRank(sq: nat, t: nat): int
  {
    RankOf(t) - RankOf(sq)
  }

  predicate KnightJump(sq: nat, t: nat)
  {
    (Abs(DFile(sq, t)) == 1 && Abs(DRank(sq, t)) == 2) || (Abs(DFile(sq, t)) == 2 && Abs(DRank(sq, t)) == 1)
  }

  predicate KingStep(sq: nat, t: nat)
  {
    Abs(DFile(sq, t)) <= 1 && Abs(DRank(sq, t)) <= 1 && t != sq
  }

  /** A pawn of the given colour on sq captures onto t. */
  predicate PawnCapture(sq: nat, t: nat, isWhite: bool)
  {
    Abs(DFile(sq, t)) == 1 && DRank(sq, t) == (if isWhite then 1 else -1)
  }

  function KnightAttacks(sq: nat): Bitboard
  {
    set t | t in ALL && KnightJump(sq, t)
  }

  function KingAttacks(sq: nat): Bitboard
  {
    set t | t in ALL && KingStep(sq, t)
  }

  /** `pawn_attacks(sq, is_white)`. */
  function PawnAttacks(sq: nat, isWhite: bool): Bitboard
  {
    set t | t in ALL && PawnCapture(sq, t, isWhite)
  }

  /** A masked single-square shift reaches exactly the square at offset (df, dr), if it is on the board. */
  lemma JumpAt(sq: nat, df: int, dr: int, t: nat)
    requires sq < 64 && -2 <= df <= 2 && -2 <= dr <= 2
    ensures t in Jump({sq}, df, dr) <==> t < 64 && DFile(sq, t) == df && DRank(sq, t) == dr
  {
    JumpSquare(sq, df, dr, t);
    StepOffsets(sq, df, dr, t);
  }

  lemma StepOffsets(sq: nat, df: int, dr: int, t: nat)
    ensures Step(sq, df, dr) == Some(t) <==> t < 64 && DFile(sq, t) == df && DRank(sq, t) == dr
  {
    if t < 64 && DFile(sq, t) == df && DRank(sq, t) == dr {
      assert t == 8 * RankOf(t) + FileOf(t);
    }
  }

  /** The loop body of the KNIGHT_ATTACKS initialiser: eight masked shifts of the square. */
  method KnightAttacksFrom(sq: nat) returns (result: Bitboard)
    requires sq < 64
    ensures result == KnightAttacks(sq)
  {
    var bb := FromSquare(sq);
    result := EMPTY;
    result := result + Jump(bb, 1, 2);
    result := result + Jump(bb, -1, 2);
    result := result + Jump(bb, 2, 1);
    result := result + Jump(bb, -2, 1);
    result := result + Jump(bb, 2, -1);
    result := result + Jump(bb, -2, -1);
    result := result + Jump(bb, 1, -2);
    result := result + Jump(bb, -1, -2);
    KnightTableEntry(sq, bb, result);
  }

  lemma KnightTableEntry(sq: nat, bb: Bitboard, result: Bitboard)
    requires sq < 64 && bb == FromSquare(sq)
    requires result == EMPTY + Jump(bb, 1, 2) + Jump(bb, -1, 2) + Jump(bb, 2, 1) + Jump(bb, -2, 1)
      + Jump(bb, 2, -1) + Jump(bb, -2, -1) + Jump(bb, 1, -2) + Jump(bb, -1, -2)
    ensures result == KnightAttacks(sq)
  {
    assert bb == {sq};
    forall t: nat
      ensures t in result <==> t in KnightAttacks(sq)
    {
      JumpAt(sq, 1, 2, t); JumpAt(sq, -1, 2, t); JumpAt(sq, 2, 1, t); JumpAt(sq, -2, 1, t);
      JumpAt(sq, 2, -1, t); JumpAt(sq, -2, -1, t); JumpAt(sq, 1, -2, t); JumpAt(sq, -1, -2, t);
    }
  }

  /** The KNIGHT_ATTACKS initialiser: one entry per square. */
  method BuildKnightAttacks() returns (attacks: array<Bitboard>)
    ensures fresh(attacks) && attacks.Length == 64
    ensures forall sq :: 0 <= sq < 64 ==> attacks[sq] == KnightAttacks(sq)
  {
    attacks := new Bitboard[64](_ => EMPTY);
    var sq := 0;
    while sq < 64
      invariant 0 <= sq <= 64
      invariant forall s :: 0 <= s < sq ==> attacks[s] == KnightAttacks(s)
    {
      var result := KnightAttacksFrom(sq);
      attacks[sq] := result;
      sq := sq + 1;
    }
  }

  /** The loop body of the KING_ATTACKS initialiser: eight masked shifts of the square. */
  method KingAttacksFrom(sq: nat) returns (result: Bitboard)
    requires sq < 64
    ensures result == KingAttacks(sq)
  {
    var bb := FromSquare(sq);
    result := EMPTY;
    result := result + Jump(bb, 0, 1);
    result := result + Jump(bb, 0, -1);
    result := result + Jump(bb, 1, 0);
    result := result + Jump(bb, -1, 0);
    result := result + Jump(bb, 1, 1);
    result := result + Jump(bb, -1, 1);
    result := result + Jump(bb, 1, -1);
    result := result + Jump(bb, -1, -1);
    KingTableEntry(sq, bb, result);
  }

  lemma KingTableEntry(sq: nat, bb: Bitboard, result: Bitboard)
    requires sq < 64 && bb == FromSquare(sq)
    requires result == EMPTY + Jump(bb, 0, 1) + Jump(bb, 0, -1) + Jump(bb, 1, 0) + Jump(bb, -1, 0)
      + Jump(bb, 1, 1) + Jump(bb, -1, 1) + Jump(bb, 1, -1) + Jump(bb, -1, -1)
    ensures result == KingAttacks(sq)
  {
    assert bb == {sq};
    forall t: nat
      ensures t in result <==> t in KingAttacks(sq)
    {
      JumpAt(sq, 0, 1, t); JumpAt(sq, 0, -1, t); JumpAt(sq, 1, 0, t); JumpAt(sq, -1, 0, t);
      JumpAt(sq, 1, 1, t); JumpAt(sq, -1, 1, t); JumpAt(sq, 1, -1, t); JumpAt(sq, -1, -1, t);
      if t < 64 && DFile(sq, t) == 0 && DRank(sq, t) == 0 {
        assert t == 8 * RankOf(t) + FileOf(t);
      }
    }
  }

  /** The KING_ATTACKS initialiser: one entry per square. */
  method BuildKingAttacks() returns (attacks: array<Bitboard>)
    ensures fresh(attacks) && attacks.Length == 64
    ensures forall sq :: 0 <= sq < 64 ==> attacks[sq] == KingAttacks(sq)
  {
    attacks := new Bitboard[64](_ => EMPTY);
    var sq := 0;
    while sq < 64
      invariant 0 <= sq <= 64
      invariant forall s :: 0 <= s < sq ==> attacks[s] == KingAttacks(s)
    {
      var result := KingAttacksFrom(sq);
      attacks[sq] := result;
      sq := sq + 1;
    }
  }

  /** The loop body of the pawn attack initialisers: two masked diagonal shifts. */
  method PawnAttacksFrom(sq: nat, isWhite: bool) returns (result: Bitboard)
    requires sq < 64
    ensures result == PawnAttacks(sq, isWhite)
  {
    var bb := FromSquare(sq);
    var dr := if isWhite then 1 else -1;
    result := EMPTY;
    result := result + Jump(bb, 1, dr);
    result := result + Jump(bb, -1, dr);
    PawnTableEntry(sq, bb, isWhite, result);
  }

  lemma PawnTableEntry(sq: nat, bb: Bitboard, isWhite: bool, result: Bitboard)
    requires sq < 64 && bb == FromSquare(sq)
    requires result == EMPTY + Jump(bb, 1, if isWhite then 1 else -1) + Jump(bb, -1, if isWhite then 1 else -1)
    ensures result == PawnAttacks(sq, isWhite)
  {
    assert bb == {sq};
    var dr := if isWhite then 1 else -1;
    forall t: nat
      ensures t in result <==> t in PawnAttacks(sq, isWhite)
    {
      JumpAt(sq, 1, dr, t); JumpAt(sq, -1, dr, t);
    }
  }

  /** The WHITE_PAWN_ATTACKS (isWhite) and BLACK_PAWN_ATTACKS initialiser: one entry per square. */
  method BuildPawnAttacks(isWhite: bool) returns (attacks: array<Bitboard>)
    ensures fresh(attacks) && attacks.Length == 64
    ensures forall sq :: 0 <= sq < 64 ==> attacks[sq] == PawnAttacks(sq, isWhite)
  {
    attacks := new Bitboard[64](_ => EMPTY);
    var sq := 0;
    while sq < 64
      invariant 0 <= sq <= 64
      invariant forall s :: 0 <= s < sq ==> attacks[s] == PawnAttacks(s, isWhite)
    {
      var result := PawnAttacksFrom(sq, isWhite);
      attacks[sq] := result;
      sq := sq + 1;
    }
  }

  // ---------------------------------------------------------------------
  // Rays. Directions: 0 = N, 1 = NE, 2 = E, 3 = SE, 4 = S, 5 = SW, 6 = W, 7 = NW.
  // ---------------------------------------------------------------------

  function DirFile(d: nat): int
  {
    if d == 0 || d == 4 then 0 else if d <= 3 then 1 else -1
  }

  function DirRank(d: nat): int
  {
    if d == 2 || d == 6 then 0 else if d <= 1 || d == 7 then 1 else -1
  }

  predicate UnitStep(df: int, dr: int)
  {
    -1 <= df <= 1 && -1 <= dr <= 1 && (df != 0 || dr != 0)
  }

  /** n steps of length x (-1, 0 or 1). */
  function Scale(x: int, n: int): int
  {
    if x == 0 then 0 else if x > 0 then n else -n
  }

  /** King-move distance between two squares. */
  function Dist(sq: nat, t: nat): nat
  {
    if Abs(DFile(sq, t)) >= Abs(DRank(sq, t)) then Abs(DFile(sq, t)) else Abs(DRank(sq, t))
  }

  /** t is reached from sq by one or more steps (df, dr). */
  predicate OnRay(sq: nat, t: nat, df: int, dr: int)
  {
    Dist(sq, t) >= 1 && DFile(sq, t) == Scale(df, Dist(sq, t)) && DRank(sq, t) == Scale(dr, Dist(sq, t))
  }

  /** RAYS[d][sq]: the squares reached from sq by stepping in direction d until the edge. */
  function Ray(d: nat, sq: nat): (ray: Bitboard)
    ensures sq !in ray
  {
    set t | t in ALL && OnRay(sq, t, DirFile(d), DirRank(d))
  }

  /** The first n - 1 squares of a ray. */
  function RaySegment(sq: nat, df: int, dr: int, n: nat): Bitboard
  {
    set t | t in ALL && OnRay(sq, t, df, dr) && Dist(sq, t) < n
  }

  /** Every square is its rank times eight plus its file. */
  lemma SquareCoords(t: nat)
    ensures t == 8 * RankOf(t) + FileOf(t) && 0 <= FileOf(t) < 8
  {
  }

  /** The n-th square along a ray is the one at n steps, when it is on the board. */
  lemma SegmentStep(sq: nat, df: int, dr: int, n: nat)
    requires sq < 64 && UnitStep(df, dr) && n >= 1
    requires OnBoard(FileOf(sq) + Scale(df, n), RankOf(sq) + Scale(dr, n))
    ensures var p := (RankOf(sq) + Scale(dr, n)) * 8 + FileOf(sq) + Scale(df, n);
      RaySegment(sq, df, dr, n + 1) == RaySegment(sq, df, dr, n) + {p}
  {
    var f, r := FileOf(sq) + Scale(df, n), RankOf(sq) + Scale(dr, n);
    var p := r * 8 + f;
    assert FileOf(p) == f && RankOf(p) == r;
    assert OnRay(sq, p, df, dr) && Dist(sq, p) == n;
    forall t | t in RaySegment(sq, df, dr, n + 1) && Dist(sq, t) == n
      ensures t == p
    {
      SquareCoords(t);
    }
  }

  /** Once the walk has left the board, the segment is the whole ray. */
  lemma SegmentExit(sq: nat, df: int, dr: int, n: nat)
    requires sq < 64 && UnitStep(df, dr) && n >= 1
    requires !OnBoard(FileOf(sq) + Scale(df, n), RankOf(sq) + Scale(dr, n))
    ensures RaySegment(sq, df, dr, n) == set t | t in ALL && OnRay(sq, t, df, dr)
  {
  }

  predicate OnBoard(f: int, r: int)
  {
    0 <= f < 8 && 0 <= r < 8
  }

  /** The N block of the RAYS initialiser. */
  method NorthRay(sq: nat, file: int, rank: int) returns (bb: Bitboard)
    requires sq < 64 && file == FileOf(sq) && rank == RankOf(sq)
    ensures bb == Ray(0, sq)
  {
    bb := EMPTY;
    var r := rank + 1;
    var f := file;
    ghost var n := 1;
    while r < 8
      invariant n >= 1 && f == file + Scale(0, n) && r == rank + Scale(1, n)
      invariant 0 <= f < 8
      invariant bb == RaySegment(sq, 0, 1, n)
      decreases 8 - r + 1
    {
      SegmentStep(sq, 0, 1, n);
      bb := bb + {r * 8 + f};
      r := r + 1;
      n := n + 1;
    }
    SegmentExit(sq, 0, 1, n);
  }

  /** The NE block of the RAYS initialiser. */
  method NorthEastRay(sq: nat, file: int, rank: int) returns (bb: Bitboard)
    requires sq < 64 && file == FileOf(sq) && rank == RankOf(sq)
    ensures bb == Ray(1, sq)
  {
    bb := EMPTY;
    var r := rank + 1;
    var f := file + 1;
    ghost var n := 1;
    while r < 8 && f < 8
      invariant n >= 1 && f == file + Scale(1, n) && r == rank + Scale(1, n)
      invariant bb == RaySegment(sq, 1, 1, n)
      decreases 8 - r + 1
    {
      SegmentStep(sq, 1, 1, n);
      bb := bb + {r * 8 + f};
      r := r + 1;
      f := f + 1;
      n := n + 1;
    }
    SegmentExit(sq, 1, 1, n);
  }

  /** The E block of the RAYS initialiser. */
  method EastRay(sq: nat, file: int, rank: int) returns (bb: Bitboard)
    requires sq < 64 && file == FileOf(sq) && rank == RankOf(sq)
    ensures bb == Ray(2, sq)
  {
    bb := EMPTY;
    var r := rank;
    var f := file + 1;
    ghost var n := 1;
    while f < 8
      invariant n >= 1 && f == file + Scale(1, n) && r == rank + Scale(0, n)
      invariant 0 <= r < 8
      invariant bb == RaySegment(sq, 1, 0, n)
      decreases 8 - f + 1
    {
      SegmentStep(sq, 1, 0, n);
      bb := bb + {r * 8 + f};
      f := f + 1;
      n := n + 1;
    }
    SegmentExit(sq, 1, 0, n);
  }

  /** The SE block of the RAYS initialiser. */
  method SouthEastRay(sq: nat, file: int, rank: int) returns (bb: Bitboard)
    requires sq < 64 && file == FileOf(sq) && rank == RankOf(sq)
    ensures bb == Ray(3, sq)
  {
    bb := EMPTY;
    var r := rank - 1;
    var f := file + 1;
    ghost var n := 1;
    while r >= 0 && f < 8
      invariant n >= 1 && f == file + Scale(1, n) && r == rank + Scale(-1, n)
      invariant bb == RaySegment(sq, 1, -1, n)
      decreases r + 1
    {
      SegmentStep(sq, 1, -1, n);
      bb := bb + {r * 8 + f};
      r := r - 1;
      f := f + 1;
      n := n + 1;
    }
    SegmentExit(sq, 1, -1, n);
  }

  /** The S block of the RAYS initialiser. */
  method SouthRay(sq: nat, file: int, rank: int) returns (bb: Bitboard)
    requires sq < 64 && file == FileOf(sq) && rank == RankOf(sq)
    ensures bb == Ray(4, sq)
  {
    bb := EMPTY;
    var r := rank - 1;
    var f := file;
    ghost var n := 1;
    while r >= 0
      invariant n >= 1 && f == file + Scale(0, n) && r == rank + Scale(-1, n)
      invariant 0 <= f < 8
      invariant bb == RaySegment(sq, 0, -1, n)
      decreases r + 1
    {
      SegmentStep(sq, 0, -1, n);
      bb := bb + {r * 8 + f};
      r := r - 1;
      n := n + 1;
    }
    SegmentExit(sq, 0, -1, n);
  }

  /** The SW block of the RAYS initialiser. */
  method SouthWestRay(sq: nat, file: int, rank: int) returns (bb: Bitboard)
    requires sq < 64 && file == FileOf(sq) && rank == RankOf(sq)
    ensures bb == Ray(5, sq)
  {
    bb := EMPTY;
    var r := rank - 1;
    var f := file - 1;
    ghost var n := 1;
    while r >= 0 && f >= 0
      invariant n >= 1 && f == file + Scale(-1, n) && r == rank + Scale(-1, n)
      invariant bb == RaySegment(sq, -1, -1, n)
      decreases r + 1
    {
      SegmentStep(sq, -1, -1, n);
      bb := bb + {r * 8 + f};
      r := r - 1;
      f := f - 1;
      n := n + 1;
    }
    SegmentExit(sq, -1, -1, n);
  }

  /** The W block of the RAYS initialiser. */
  method WestRay(sq: nat, file: int, rank: int) returns (bb: Bitboard)
    requires sq < 64 && file == FileOf(sq) && rank == RankOf(sq)
    ensures bb == Ray(6, sq)
  {
    bb := EMPTY;
    var r := rank;
    var f := file - 1;
    ghost var n := 1;
    while f >= 0
      invariant n >= 1 && f == file + Scale(-1, n) && r == rank + Scale(0, n)
      invariant 0 <= r < 8
      invariant bb == RaySegment(sq, -1, 0, n)
      decreases f + 1
    {
      SegmentStep(sq, -1, 0, n);
      bb := bb + {r * 8 + f};
      f := f - 1;
      n := n + 1;
    }
    SegmentExit(sq, -1, 0, n);
  }

  /** The NW block of the RAYS initialiser. */
  method NorthWestRay(sq: nat, file: int, rank: int) returns (bb: Bitboard)
    requires sq < 64 && file == FileOf(sq) && rank == RankOf(sq)
    ensures bb == Ray(7, sq)
  {
    bb := EMPTY;
    var r := rank + 1;
    var f := file - 1;
    ghost var n := 1;
    while r < 8 && f >= 0
      invariant n >= 1 && f == file + Scale(-1, n) && r == rank + Scale(1, n)
      invariant bb == RaySegment(sq, -1, 1, n)
      decreases 8 - r + 1
    {
      SegmentStep(sq, -1, 1, n);
      bb := bb + {r * 8 + f};
      r := r + 1;
      f := f - 1;
      n := n + 1;
    }
    SegmentExit(sq, -1, 1, n);
  }

  /** The loop body of the RAYS initialiser for one square: its eight direction blocks. */
  method RaysFrom(sq: nat) returns (n: Bitboard, ne: Bitboard, e: Bitboard, se: Bitboard,
                                    s: Bitboard, sw: Bitboard, w: Bitboard, nw: Bitboard)
    requires sq < 64
    ensures n == Ray(0, sq) && ne == Ray(1, sq) && e == Ray(2, sq) && se == Ray(3, sq)
    ensures s == Ray(4, sq) && sw == Ray(5, sq) && w == Ray(6, sq) && nw == Ray(7, sq)
  {
    var file := sq % 8;
    var rank := sq / 8;
    n := NorthRay(sq, file, rank);
    ne := NorthEastRay(sq, file, rank);
    e := EastRay(sq, file, rank);
    se := SouthEastRay(sq, file, rank);
    s := SouthRay(sq, file, rank);
    sw := SouthWestRay(sq, file, rank);
    w := WestRay(sq, file, rank);
    nw := NorthWestRay(sq, file, rank);
  }

  /** The RAYS initialiser: rays[d, sq] == RAYS[d][sq]. */
  method BuildRays() returns (rays: array2<Bitboard>)
    ensures fresh(rays) && rays.Length0 == 8 && rays.Length1 == 64
    ensures forall d, sq :: 0 <= d < 8 && 0 <= sq < 64 ==> rays[d, sq] == Ray(d, sq)
  {
    rays := new Bitboard[8, 64]((_, _) => EMPTY);
    var sq := 0;
    while sq < 64
      invariant 0 <= sq <= 64
      invariant forall d, s :: 0 <= d < 8 && 0 <= s < sq ==> rays[d, s] == Ray(d, s)
    {
      StoreRays(rays, sq);
      sq := sq + 1;
    }
  }

  /** One pass of the `RAYS` initialiser: the eight rays of sq go into column sq. */
  method StoreRays(rays: array2<Bitboard>, sq: nat)
    requires rays.Length0 == 8 && rays.Length1 == 64 && sq < 64
    modifies rays
    ensures forall d :: 0 <= d < 8 ==> rays[d, sq] == Ray(d, sq)
    ensures forall d, s :: 0 <= d < 8 && 0 <= s < 64 && s != sq ==> rays[d, s] == old(rays[d, s])
  {
    var n, ne, e, se, s, sw, w, nw := RaysFrom(sq);
    rays[0, sq], rays[1, sq], rays[2, sq], rays[3, sq] := n, ne, e, se;
    rays[4, sq], rays[5, sq], rays[6, sq], rays[7, sq] := s, sw, w, nw;
  }

  /** A sliding piece's reach in direction d: the ray up to and including the first occupied square. */
  function Slide(d: nat, sq: nat, occ: Bitboard): Bitboard
  {
    set t | t in Ray(d, sq) && forall u :: u in Ray(d, sq) && Dist(sq, u) < Dist(sq, t) ==> u !in occ
  }

  /** Directions 0 (N), 1 (NE), 2 (E) and 7 (NW) increase the square index; the others decrease it. */
  predicate Increasing(d: nat)
  {
    d == 0 || d == 1 || d == 2 || d == 7
  }

  /** Along a ray, the index moves by the direction's index step once per square of distance. */
  lemma RayIndexOrder(d: nat, sq: nat, u: nat, t: nat)
    requires d < 8 && u in Ray(d, sq) && t in Ray(d, sq)
    ensures Increasing(d) ==> (u < t <==> Dist(sq, u) < Dist(sq, t))
    ensures !Increasing(d) ==> (u > t <==> Dist(sq, u) < Dist(sq, t))
  {
    SquareCoords(u);
    SquareCoords(t);
  }

  /** The squares of a ray beyond one of its squares b are those further from the origin. */
  lemma RayBeyond(d: nat, sq: nat, b: nat, t: nat)
    requires d < 8 && b in Ray(d, sq) && t in Ray(d, sq)
    ensures t in Ray(d, b) <==> Dist(sq, t) > Dist(sq, b)
  {
  }

  /** Masking off the ray beyond the nearest blocker b leaves exactly the slide. */
  lemma CutAtNearest(d: nat, sq: nat, occ: Bitboard, b: nat)
    requires d < 8 && b in Ray(d, sq) * occ
    requires forall u :: u in Ray(d, sq) * occ ==> Dist(sq, b) <= Dist(sq, u)
    ensures Ray(d, sq) * Not(Ray(d, b)) == Slide(d, sq, occ)
  {
    var ray := Ray(d, sq);
    forall t | t in ray
      ensures t in Not(Ray(d, b)) <==> t in Slide(d, sq, occ)
    {
      RayBeyond(d, sq, b, t);
    }
  }

  /** With nothing on the ray occupied, the slide is the whole ray. */
  lemma ClearRaySlides(d: nat, sq: nat, occ: Bitboard)
    requires Ray(d, sq) * occ == {}
    ensures Slide(d, sq, occ) == Ray(d, sq)
  {
    forall t | t in Ray(d, sq)
      ensures t in Slide(d, sq, occ)
    {
      forall u | u in Ray(d, sq)
        ensures u !in occ
      {
        assert u !in Ray(d, sq) * occ;
      }
    }
  }

  /** The least (greatest) blocker of an increasing (decreasing) ray is the nearest one. */
  lemma NearestBlocker(d: nat, sq: nat, occ: Bitboard, b: nat)
    requires d < 8 && b in Ray(d, sq) * occ
    requires Increasing(d) ==> forall u :: u in Ray(d, sq) * occ ==> b <= u
    requires !Increasing(d) ==> forall u :: u in Ray(d, sq) * occ ==> u <= b
    ensures forall u :: u in Ray(d, sq) * occ ==> Dist(sq, b) <= Dist(sq, u)
  {
    forall u | u in Ray(d, sq) * occ
      ensures Dist(sq, b) <= Dist(sq, u)
    {
      RayIndexOrder(d, sq, u, b);
    }
  }

  /**
   * For a direction of increasing index, masking off the ray beyond its
   * least blocker (or keeping the whole ray when nothing blocks it) gives
   * the slide.
   */
  lemma PositiveRayCut(d: nat, sq: nat, occ: Bitboard, first: Option<nat>)
    requires d < 8 && Increasing(d) && first == Lsb(Ray(d, sq) * occ)
    ensures first.Some? ==> Ray(d, sq) * Not(Ray(d, first.value)) == Slide(d, sq, occ)
    ensures first.None? ==> Ray(d, sq) == Slide(d, sq, occ)
  {
    if first.Some? {
      NearestBlocker(d, sq, occ, first.value);
      CutAtNearest(d, sq, occ, first.value);
    } else {
      ClearRaySlides(d, sq, occ);
    }
  }

  /** The same for a direction of decreasing index and its greatest blocker. */
  lemma NegativeRayCut(d: nat, sq: nat, occ: Bitboard)
    requires d < 8 && !Increasing(d)
    ensures Ray(d, sq) * occ != {} ==> Ray(d, sq) * Not(Ray(d, Msb(Ray(d, sq) * occ).value)) == Slide(d, sq, occ)
    ensures Ray(d, sq) * occ == {} ==> Ray(d, sq) == Slide(d, sq, occ)
  {
    if Ray(d, sq) * occ != {} {
      var b := Msb(Ray(d, sq) * occ).value;
      NearestBlocker(d, sq, occ, b);
      CutAtNearest(d, sq, occ, b);
    } else {
      ClearRaySlides(d, sq, occ);
    }
  }

  /** The union of the slides in the listed directions. */
  function SlideUnion(dirs: seq<nat>, sq: nat, occ: Bitboard): Bitboard
  {
    if |dirs| == 0 then EMPTY
    else SlideUnion(dirs[..|dirs| - 1], sq, occ) + Slide(dirs[|dirs| - 1], sq, occ)
  }

  /** The union over four directions, written out. */
  lemma SlideUnionFour(a: nat, b: nat, c: nat, d: nat, s: nat, occ: Bitboard)
    ensures SlideUnion([a, b, c, d], s, occ) == Slide(a, s, occ) + Slide(b, s, occ) + Slide(c, s, occ) + Slide(d, s, occ)
  {
    assert [a, b, c, d][..3] == [a, b, c];
    assert [a, b, c][..2] == [a, b];
    assert [a, b][..1] == [a];
    assert [a][..0] == [];
    assert SlideUnion([a], s, occ) == Slide(a, s, occ);
    assert SlideUnion([a, b], s, occ) == Slide(a, s, occ) + Slide(b, s, occ);
    assert SlideUnion([a, b, c], s, occ) == Slide(a, s, occ) + Slide(b, s, occ) + Slide(c, s, occ);
  }

  /** What a bishop on sq attacks: each diagonal up to and including its first occupied square. */
  function BishopAttacks(sq: nat, occ: Bitboard): Bitboard
  {
    SlideUnion([1, 7, 3, 5], sq, occ)
  }

  /** What a rook on sq attacks: each rank and file direction up to and including its first occupied square. */
  function RookAttacks(sq: nat, occ: Bitboard): Bitboard
  {
    SlideUnion([0, 2, 4, 6], sq, occ)
  }

  /** `queen_attacks`. */
  function QueenAttacks(sq: nat, occ: Bitboard): Bitboard
  {
    BishopAttacks(sq, occ) + RookAttacks(sq, occ)
  }

  /** One pass of the positive-direction loop: OR in the ray masked beyond its least blocker. */
  method AddPositiveRay(attacks: Bitboard, sq: nat, occ: Bitboard, dir: nat) returns (next: Bitboard)
    requires dir < 8 && Increasing(dir)
    ensures next == attacks + Slide(dir, sq, occ)
  {
    var ray := Ray(dir, sq);
    var blockers := ray * occ;
    var first := Lsb(blockers);
    PositiveRayCut(dir, sq, occ, first);
    if first.Some? {
      next := attacks + ray * Not(Ray(dir, first.value));
    } else {
      next := attacks + ray;
    }
  }

  /** One pass of the negative-direction loop: OR in the ray masked beyond its greatest blocker. */
  method AddNegativeRay(attacks: Bitboard, sq: nat, occ: Bitboard, dir: nat) returns (next: Bitboard)
    requires dir < 8 && !Increasing(dir)
    ensures next == attacks + Slide(dir, sq, occ)
  {
    var ray := Ray(dir, sq);
    var blockers := ray * occ;
    NegativeRayCut(dir, sq, occ);
    if blockers != {} {
      var blockerSq := Msb(blockers).value;
      next := attacks + ray * Not(Ray(dir, blockerSq));
    } else {
      next := attacks + ray;
    }
  }

  /**
   * `bishop_attacks` (positive = [1, 7], negative = [3, 5]) and
   * `rook_attacks` (positive = [0, 2], negative = [4, 6]): OR together each
   * ray of the square, masked beyond its nearest blocker.
   */
  method SlidingAttacks(sq: nat, occ: Bitboard, positive: seq<nat>, negative: seq<nat>) returns (attacks: Bitboard)
    requires forall i :: 0 <= i < |positive| ==> positive[i] < 8 && Increasing(positive[i])
    requires forall i :: 0 <= i < |negative| ==> negative[i] < 8 && !Increasing(negative[i])
    ensures attacks == SlideUnion(positive + negative, sq, occ)
  {
    attacks := EMPTY;
    for i := 0 to |positive|
      invariant attacks == SlideUnion(positive[..i], sq, occ)
    {
      attacks := AddPositiveRay(attacks, sq, occ, positive[i]);
      SlideUnionPrefix(positive, i, sq, occ);
    }
    assert positive[..|positive|] == positive;
    ghost var fromPositive := attacks;
    for i := 0 to |negative|
      invariant attacks == fromPositive + SlideUnion(negative[..i], sq, occ)
    {
      attacks := AddNegativeRay(attacks, sq, occ, negative[i]);
      SlideUnionPrefix(negative, i, sq, occ);
    }
    assert negative[..|negative|] == negative;
    SlideUnionAppend(positive, negative, sq, occ);
  }

  lemma SlideUnionPrefix(dirs: seq<nat>, i: nat, sq: nat, occ: Bitboard)
    requires i < |dirs|
    ensures SlideUnion(dirs[..i + 1], sq, occ) == SlideUnion(dirs[..i], sq, occ) + Slide(dirs[i], sq, occ)
  {
    assert dirs[..i + 1][..i] == dirs[..i];
  }

  lemma {:induction false} SlideUnionAppend(a: seq<nat>, b: seq<nat>, sq: nat, occ: Bitboard)
    ensures SlideUnion(a + b, sq, occ) == SlideUnion(a, sq, occ) + SlideUnion(b, sq, occ)
    decreases |b|
  {
    if |b| == 0 {
      assert a + b == a;
    } else {
      var c := b[..|b| - 1];
      assert (a + b)[..|a + b| - 1] == a + c;
      SlideUnionAppend(a, c, sq, occ);
    }
  }

  method ComputeBishopAttacks(sq: nat, occ: Bitboard) returns (attacks: Bitboard)
    ensures attacks == BishopAttacks(sq, occ)
  {
    attacks := SlidingAttacks(sq, occ, [1, 7], [3, 5]);
    assert [1, 7] + [3, 5] == [1, 7, 3, 5];
  }

  method ComputeRookAttacks(sq: nat, occ: Bitboard) returns (attacks: Bitboard)
    ensures attacks == RookAttacks(sq, occ)
  {
    attacks := SlidingAttacks(sq, occ, [0, 2], [4, 6]);
    assert [0, 2] + [4, 6] == [0, 2, 4, 6];
  }

  /** A queen reaches exactly the squares some sliding direction reaches. */
  lemma QueenReach(sq: nat, occ: Bitboard, t: nat)
    ensures t in QueenAttacks(sq, occ) <==> exists d :: 0 <= d < 8 && t in Slide(d, sq, occ)
  {
    if t in QueenAttacks(sq, occ) {
      QueenReachSome(sq, occ, t);
    }
    forall d | 0 <= d < 8 && t in Slide(d, sq, occ)
      ensures t in QueenAttacks(sq, occ)
    {
      QueenReachesSlide(sq, occ, d, t);
    }
  }

  /** A square the queen reaches lies on some direction's slide. */
  lemma QueenReachSome(sq: nat, occ: Bitboard, t: nat)
    requires t in QueenAttacks(sq, occ)
    ensures exists d :: 0 <= d < 8 && t in Slide(d, sq, occ)
  {
    SlideUnionFour(1, 7, 3, 5, sq, occ);
    SlideUnionFour(0, 2, 4, 6, sq, occ);
    var d :| d in {0, 1, 2, 3, 4, 5, 6, 7} && t in Slide(d, sq, occ);
  }

  /** Each direction's slide is part of the queen's reach. */
  lemma QueenReachesSlide(sq: nat, occ: Bitboard, d: nat, t: nat)
    requires d < 8 && t in Slide(d, sq, occ)
    ensures t in QueenAttacks(sq, occ)
  {
    SlideUnionFour(1, 7, 3, 5, sq, occ);
    SlideUnionFour(0, 2, 4, 6, sq, occ);
  }

  /** `queen_attacks`: the bishop's and the rook's reach together. */
  method ComputeQueenAttacks(sq: nat, occ: Bitboard) returns (attacks: Bitboard)
    ensures attacks == QueenAttacks(sq, occ)
    ensures forall t :: t in attacks <==> exists d :: 0 <= d < 8 && t in Slide(d, sq, occ)
  {
    var bishop := ComputeBishopAttacks(sq, occ);
    var rook := ComputeRookAttacks(sq, occ);
    attacks := bishop + rook;
    forall t
      ensures t in attacks <==> exists d :: 0 <= d < 8 && t in Slide(d, sq, occ)
    {
      QueenReach(sq, occ, t);
    }
  }
}
