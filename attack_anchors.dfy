/**
 * Concrete attack sets from the attack tests (crates/chess_core/src/attacks_tests.rs),
 * derived from the geometric definitions the attack tables are proved to equal.
 */
module AttackAnchors {
  import SquareCounts
  import opened Wrappers
  import opened Types
  import opened Bitboards
  import opened Attacks

  /** A knight jump is one of the eight (file, rank) steps (±1, ±2) and (±2, ±1). */
  lemma KnightBySteps(sq: nat, t: nat)
    requires sq < 64
    ensures t in KnightAttacks(sq) <==>
      || Step(sq, 1, 2) == Some(t) || Step(sq, -1, 2) == Some(t) || Step(sq, 2, 1) == Some(t) || Step(sq, -2, 1) == Some(t)
      || Step(sq, 2, -1) == Some(t) || Step(sq, -2, -1) == Some(t) || Step(sq, 1, -2) == Some(t) || Step(sq, -1, -2) == Some(t)
  {
    StepOffsets(sq, 1, 2, t); StepOffsets(sq, -1, 2, t); StepOffsets(sq, 2, 1, t); StepOffsets(sq, -2, 1, t);
    StepOffsets(sq, 2, -1, t); StepOffsets(sq, -2, -1, t); StepOffsets(sq, 1, -2, t); StepOffsets(sq, -1, -2, t);
  }

  /** A king step is one of the eight unit steps. */
  lemma KingBySteps(sq: nat, t: nat)
    requires sq < 64
    ensures t in KingAttacks(sq) <==>
      || Step(sq, 0, 1) == Some(t) || Step(sq, 1, 1) == Some(t) || Step(sq, 1, 0) == Some(t) || Step(sq, 1, -1) == Some(t)
      || Step(sq, 0, -1) == Some(t) || Step(sq, -1, -1) == Some(t) || Step(sq, -1, 0) == Some(t) || Step(sq, -1, 1) == Some(t)
  {
    if t in KingAttacks(sq) {
      KingStepIsUnit(sq, t);
    }
    StepOffsets(sq, 0, 1, t); StepOffsets(sq, 1, 1, t); StepOffsets(sq, 1, 0, t); StepOffsets(sq, 1, -1, t);
    StepOffsets(sq, 0, -1, t); StepOffsets(sq, -1, -1, t); StepOffsets(sq, -1, 0, t); StepOffsets(sq, -1, 1, t);
  }

  /** An adjacent square is reached by the unit step of its own offsets. */
  lemma KingStepIsUnit(sq: nat, t: nat)
    requires sq < 64 && t in KingAttacks(sq)
    ensures Step(sq, DFile(sq, t), DRank(sq, t)) == Some(t)
    ensures -1 <= DFile(sq, t) <= 1 && -1 <= DRank(sq, t) <= 1 && (DFile(sq, t), DRank(sq, t)) != (0, 0)
  {
    StepOffsets(sq, DFile(sq, t), DRank(sq, t), t);
  }

  /** A white pawn captures one rank up and one file to either side. */
  lemma WhitePawnBySteps(sq: nat, t: nat)
    requires sq < 64
    ensures t in PawnAttacks(sq, true) <==> Step(sq, -1, 1) == Some(t) || Step(sq, 1, 1) == Some(t)
  {
    StepOffsets(sq, -1, 1, t); StepOffsets(sq, 1, 1, t);
  }

  /** From a1 the steps are the offsets themselves. */
  lemma StepFromA1(df: int, dr: int)
    ensures Step(0, df, dr) == Sq(df, dr)
  {
  }

  /** The squares a knight on e4 attacks. */
  lemma KnightSquaresE4()
    ensures KnightAttacks(28) == {11, 13, 18, 22, 34, 38, 43, 45}
  {
    assert Step(28, 1, 2) == Some(45) && Step(28, -1, 2) == Some(43) && Step(28, 2, 1) == Some(38) && Step(28, -2, 1) == Some(34);
    assert Step(28, 2, -1) == Some(22) && Step(28, -2, -1) == Some(18) && Step(28, 1, -2) == Some(13) && Step(28, -1, -2) == Some(11);
    forall t: nat
      ensures t in KnightAttacks(28) <==> t in {11, 13, 18, 22, 34, 38, 43, 45}
    {
      KnightBySteps(28, t);
    }
  }

  /** A knight on e4 attacks eight squares. */
  lemma KnightFromE4(attacks: Bitboard)
    requires attacks == KnightAttacks(28)
    ensures |attacks| == 8
  {
    KnightSquaresE4();
    SquareCounts.KnightCount(attacks);
  }

  /** The squares a knight on a1 attacks: b3 and c2. */
  lemma KnightSquaresA1()
    ensures KnightAttacks(0) == {10, 17}
  {
    StepFromA1(1, 2); StepFromA1(-1, 2); StepFromA1(2, 1); StepFromA1(-2, 1);
    StepFromA1(2, -1); StepFromA1(-2, -1); StepFromA1(1, -2); StepFromA1(-1, -2);
    forall t: nat
      ensures t in KnightAttacks(0) <==> t in {10, 17}
    {
      KnightBySteps(0, t);
    }
  }

  /** The squares a knight on h1 attacks: g3 and f2. */
  lemma KnightSquaresH1()
    ensures KnightAttacks(7) == {13, 22}
  {
    assert Step(7, -1, 2) == Some(22) && Step(7, -2, 1) == Some(13);
    assert Step(7, 1, 2).None? && Step(7, 2, 1).None? && Step(7, 2, -1).None?;
    assert Step(7, -2, -1).None? && Step(7, 1, -2).None? && Step(7, -1, -2).None?;
    forall t: nat
      ensures t in KnightAttacks(7) <==> t in {13, 22}
    {
      KnightBySteps(7, t);
    }
  }

  /** A knight in either bottom corner attacks two squares; from a1 they are c2 and b3. */
  lemma KnightFromCorners(fromA1: Bitboard, fromH1: Bitboard)
    requires fromA1 == KnightAttacks(0) && fromH1 == KnightAttacks(7)
    ensures 10 in fromA1 && 17 in fromA1 && |fromA1| == 2
    ensures |fromH1| == 2
  {
    KnightSquaresA1();
    KnightSquaresH1();
  }

  /** The squares a king on e4 attacks. */
  lemma KingSquaresE4()
    ensures KingAttacks(28) == {19, 20, 21, 27, 29, 35, 36, 37}
  {
    assert Step(28, 0, 1) == Some(36) && Step(28, 1, 1) == Some(37) && Step(28, 1, 0) == Some(29) && Step(28, 1, -1) == Some(21);
    assert Step(28, 0, -1) == Some(20) && Step(28, -1, -1) == Some(19) && Step(28, -1, 0) == Some(27) && Step(28, -1, 1) == Some(35);
    forall t: nat
      ensures t in KingAttacks(28) <==> t in {19, 20, 21, 27, 29, 35, 36, 37}
    {
      KingBySteps(28, t);
    }
  }

  /** A king on e4 attacks eight squares. */
  lemma KingFromE4(attacks: Bitboard)
    requires attacks == KingAttacks(28)
    ensures |attacks| == 8
  {
    KingSquaresE4();
    SquareCounts.KingCount(attacks);
  }

  /** Only b1, a2 and b2 are a king step from a1. */
  lemma KingStepFromA1(t: nat)
    requires t in KingAttacks(0)
    ensures t == 1 || t == 8 || t == 9
  {
    assert FileOf(t) <= 1 && RankOf(t) <= 1 && t != 0;
    SquareCoords(t);
  }

  /** The squares a king on a1 attacks. */
  lemma KingSquaresA1()
    ensures KingAttacks(0) == {1, 8, 9}
  {
    forall t | t in KingAttacks(0)
      ensures t in {1, 8, 9}
    {
      KingStepFromA1(t);
    }
    assert 1 in KingAttacks(0) && 8 in KingAttacks(0) && 9 in KingAttacks(0);
  }

  /** A king on a1 attacks three squares. */
  lemma KingFromA1(attacks: Bitboard)
    requires attacks == KingAttacks(0)
    ensures |attacks| == 3
  {
    KingSquaresA1();
    SquareCounts.CornerCount(attacks);
  }

  /** A white pawn on e4 attacks d5 and f5; on a2, only b3. */
  lemma PawnAnchors()
    ensures PawnAttacks(28, true) == {35, 37}
    ensures PawnAttacks(8, true) == {17}
  {
    forall t: nat
      ensures t in PawnAttacks(28, true) <==> t in {35, 37}
    {
      WhitePawnBySteps(28, t);
    }
    forall t: nat
      ensures t in PawnAttacks(8, true) <==> t in {17}
    {
      WhitePawnBySteps(8, t);
    }
  }


  /** The segment before the first step of a walk is empty. */
  lemma SegmentStart(sq: nat, df: int, dr: int)
    ensures RaySegment(sq, df, dr, 1) == {}
  {
  }

  // The rays the anchors below need, each walked one square at a time.

  lemma NorthFromE4()
    ensures Ray(0, 28) == {36, 44, 52, 60}
  {
    SegmentStart(28, 0, 1);
    SegmentStep(28, 0, 1, 1);
    assert RaySegment(28, 0, 1, 2) == {36};
    SegmentStep(28, 0, 1, 2);
    assert RaySegment(28, 0, 1, 3) == {36, 44};
    SegmentStep(28, 0, 1, 3);
    assert RaySegment(28, 0, 1, 4) == {36, 44, 52};
    SegmentStep(28, 0, 1, 4);
    assert RaySegment(28, 0, 1, 5) == {36, 44, 52, 60};
    SegmentExit(28, 0, 1, 5);
  }

  lemma NorthEastFromE4()
    ensures Ray(1, 28) == {37, 46, 55}
  {
    SegmentStart(28, 1, 1);
    SegmentStep(28, 1, 1, 1);
    assert RaySegment(28, 1, 1, 2) == {37};
    SegmentStep(28, 1, 1, 2);
    assert RaySegment(28, 1, 1, 3) == {37, 46};
    SegmentStep(28, 1, 1, 3);
    assert RaySegment(28, 1, 1, 4) == {37, 46, 55};
    SegmentExit(28, 1, 1, 4);
  }

  lemma EastFromE4()
    ensures Ray(2, 28) == {29, 30, 31}
  {
    SegmentStart(28, 1, 0);
    SegmentStep(28, 1, 0, 1);
    assert RaySegment(28, 1, 0, 2) == {29};
    SegmentStep(28, 1, 0, 2);
    assert RaySegment(28, 1, 0, 3) == {29, 30};
    SegmentStep(28, 1, 0, 3);
    assert RaySegment(28, 1, 0, 4) == {29, 30, 31};
    SegmentExit(28, 1, 0, 4);
  }

  lemma SouthEastFromE4()
    ensures Ray(3, 28) == {21, 14, 7}
  {
    SegmentStart(28, 1, -1);
    SegmentStep(28, 1, -1, 1);
    assert RaySegment(28, 1, -1, 2) == {21};
    SegmentStep(28, 1, -1, 2);
    assert RaySegment(28, 1, -1, 3) == {21, 14};
    SegmentStep(28, 1, -1, 3);
    assert RaySegment(28, 1, -1, 4) == {21, 14, 7};
    SegmentExit(28, 1, -1, 4);
  }

  lemma SouthFromE4()
    ensures Ray(4, 28) == {20, 12, 4}
  {
    SegmentStart(28, 0, -1);
    SegmentStep(28, 0, -1, 1);
    assert RaySegment(28, 0, -1, 2) == {20};
    SegmentStep(28, 0, -1, 2);
    assert RaySegment(28, 0, -1, 3) == {20, 12};
    SegmentStep(28, 0, -1, 3);
    assert RaySegment(28, 0, -1, 4) == {20, 12, 4};
    SegmentExit(28, 0, -1, 4);
  }

  lemma SouthWestFromE4()
    ensures Ray(5, 28) == {19, 10, 1}
  {
    SegmentStart(28, -1, -1);
    SegmentStep(28, -1, -1, 1);
    assert RaySegment(28, -1, -1, 2) == {19};
    SegmentStep(28, -1, -1, 2);
    assert RaySegment(28, -1, -1, 3) == {19, 10};
    SegmentStep(28, -1, -1, 3);
    assert RaySegment(28, -1, -1, 4) == {19, 10, 1};
    SegmentExit(28, -1, -1, 4);
  }

  lemma WestFromE4()
    ensures Ray(6, 28) == {27, 26, 25, 24}
  {
    SegmentStart(28, -1, 0);
    SegmentStep(28, -1, 0, 1);
    assert RaySegment(28, -1, 0, 2) == {27};
    SegmentStep(28, -1, 0, 2);
    assert RaySegment(28, -1, 0, 3) == {27, 26};
    SegmentStep(28, -1, 0, 3);
    assert RaySegment(28, -1, 0, 4) == {27, 26, 25};
    SegmentStep(28, -1, 0, 4);
    assert RaySegment(28, -1, 0, 5) == {27, 26, 25, 24};
    SegmentExit(28, -1, 0, 5);
  }

  lemma NorthWestFromE4()
    ensures Ray(7, 28) == {35, 42, 49, 56}
  {
    SegmentStart(28, -1, 1);
    SegmentStep(28, -1, 1, 1);
    assert RaySegment(28, -1, 1, 2) == {35};
    SegmentStep(28, -1, 1, 2);
    assert RaySegment(28, -1, 1, 3) == {35, 42};
    SegmentStep(28, -1, 1, 3);
    assert RaySegment(28, -1, 1, 4) == {35, 42, 49};
    SegmentStep(28, -1, 1, 4);
    assert RaySegment(28, -1, 1, 5) == {35, 42, 49, 56};
    SegmentExit(28, -1, 1, 5);
  }

  /** On an empty board a slide is the whole ray. */
  lemma EmptySlide(d: nat, sq: nat)
    ensures Slide(d, sq, EMPTY) == Ray(d, sq)
  {
    ClearRaySlides(d, sq, EMPTY);
  }

  /** The rook's four slides from e4 on an empty board. */
  lemma RookSlidesE4()
    ensures Slide(0, 28, EMPTY) == {36, 44, 52, 60} && Slide(2, 28, EMPTY) == {29, 30, 31}
    ensures Slide(4, 28, EMPTY) == {4, 12, 20} && Slide(6, 28, EMPTY) == {24, 25, 26, 27}
  {
    EmptySlide(0, 28); EmptySlide(2, 28); EmptySlide(4, 28); EmptySlide(6, 28);
    NorthFromE4(); EastFromE4(); SouthFromE4(); WestFromE4();
  }

  /** The bishop's four slides from e4 on an empty board. */
  lemma BishopSlidesE4()
    ensures Slide(1, 28, EMPTY) == {37, 46, 55} && Slide(7, 28, EMPTY) == {35, 42, 49, 56}
    ensures Slide(3, 28, EMPTY) == {21, 14, 7} && Slide(5, 28, EMPTY) == {19, 10, 1}
  {
    EmptySlide(1, 28); EmptySlide(7, 28); EmptySlide(3, 28); EmptySlide(5, 28);
    NorthEastFromE4(); NorthWestFromE4(); SouthEastFromE4(); SouthWestFromE4();
  }

  /** Four rays of known squares make up the rook's reach from e4. */
  lemma RookE4Union(u: set<nat>, n: set<nat>, e: set<nat>, so: set<nat>, w: set<nat>)
    requires u == n + e + so + w
    requires n == {36, 44, 52, 60} && e == {29, 30, 31} && so == {4, 12, 20} && w == {24, 25, 26, 27}
    ensures u == {4, 12, 20, 24, 25, 26, 27, 29, 30, 31, 36, 44, 52, 60}
  {
  }

  /** Four rays of known squares make up the bishop's reach from e4. */
  lemma BishopE4Union(u: set<nat>, ne: set<nat>, nw: set<nat>, se: set<nat>, sw: set<nat>)
    requires u == ne + nw + se + sw
    requires ne == {37, 46, 55} && nw == {35, 42, 49, 56} && se == {21, 14, 7} && sw == {19, 10, 1}
    ensures u == {1, 7, 10, 14, 19, 21, 35, 37, 42, 46, 49, 55, 56}
  {
  }

  /** The squares a rook on e4 attacks on an empty board. */
  lemma RookSquaresE4()
    ensures RookAttacks(28, EMPTY) == {4, 12, 20, 24, 25, 26, 27, 29, 30, 31, 36, 44, 52, 60}
  {
    SlideUnionFour(0, 2, 4, 6, 28, EMPTY);
    RookSlidesE4();
    RookE4Union(RookAttacks(28, EMPTY), Slide(0, 28, EMPTY), Slide(2, 28, EMPTY), Slide(4, 28, EMPTY), Slide(6, 28, EMPTY));
  }

  /** The squares a bishop on e4 attacks on an empty board. */
  lemma BishopSquaresE4()
    ensures BishopAttacks(28, EMPTY) == {1, 7, 10, 14, 19, 21, 35, 37, 42, 46, 49, 55, 56}
  {
    SlideUnionFour(1, 7, 3, 5, 28, EMPTY);
    BishopSlidesE4();
    BishopE4Union(BishopAttacks(28, EMPTY), Slide(1, 28, EMPTY), Slide(7, 28, EMPTY), Slide(3, 28, EMPTY), Slide(5, 28, EMPTY));
  }

  /** On an empty board a rook on e4 attacks 14 squares. */
  lemma RookE4EmptyBoard(attacks: Bitboard)
    requires attacks == RookAttacks(28, EMPTY)
    ensures |attacks| == 14
  {
    RookSquaresE4();
    SquareCounts.Count14(attacks);
  }

  /** On an empty board a bishop on e4 attacks 13 squares. */
  lemma BishopE4EmptyBoard(attacks: Bitboard)
    requires attacks == BishopAttacks(28, EMPTY)
    ensures |attacks| == 13
  {
    BishopSquaresE4();
    SquareCounts.Count13(attacks);
  }

  // The rook on a1 is given as any square on file a and rank 1, which is
  // a1 itself; stated so, the proofs stay small.

  /** Up the a-file from a1 with a blocker on a4: a2, a3 and a4 are reached. */
  lemma FileReachFromA1(sq: nat, t: nat)
    requires sq < 64 && FileOf(sq) == 0 && RankOf(sq) == 0
    requires t == 8 || t == 16 || t == 24
    ensures t in Slide(0, sq, {24})
  {
    assert t in Ray(0, sq);
    forall u | u in Ray(0, sq) && Dist(sq, u) < Dist(sq, t)
      ensures u !in {24}
    {
    }
  }

  /** The blocker on a4 hides a5. */
  lemma FileStopFromA1(sq: nat)
    requires sq < 64 && FileOf(sq) == 0 && RankOf(sq) == 0
    ensures 32 !in Slide(0, sq, {24})
  {
    assert 24 in Ray(0, sq) && Dist(sq, 24) < Dist(sq, 32);
  }

  /** Along the empty first rank, b1 and h1 are reached. */
  lemma RankReachFromA1(sq: nat, t: nat)
    requires sq < 64 && FileOf(sq) == 0 && RankOf(sq) == 0
    requires t == 1 || t == 7
    ensures t in Slide(2, sq, {24})
  {
    assert t in Ray(2, sq);
  }

  /** From a1 there is nothing to the south or west. */
  lemma NoSouthWestFromA1(sq: nat)
    requires sq < 64 && FileOf(sq) == 0 && RankOf(sq) == 0
    ensures 32 !in Slide(4, sq, {24}) && 32 !in Slide(6, sq, {24})
  {
  }

  /**
   * A rook on a1 with a blocker on a4 sees a2, a3 and the blocker but not
   * a5, and the first rank up to h1.
   */
  lemma RookA1BlockedOnA4(sq: nat)
    requires sq < 64 && FileOf(sq) == 0 && RankOf(sq) == 0
    ensures 8 in RookAttacks(sq, {24}) && 16 in RookAttacks(sq, {24}) && 24 in RookAttacks(sq, {24})
    ensures 32 !in RookAttacks(sq, {24})
    ensures 1 in RookAttacks(sq, {24}) && 7 in RookAttacks(sq, {24})
  {
    SlideUnionFour(0, 2, 4, 6, sq, {24});
    FileReachFromA1(sq, 8); FileReachFromA1(sq, 16); FileReachFromA1(sq, 24); FileStopFromA1(sq);
    RankReachFromA1(sq, 1); RankReachFromA1(sq, 7); NoSouthWestFromA1(sq);
  }
}

/** Sizes of the square sets the attack anchors name, each counted in two disjoint halves. */
module SquareCounts {
  lemma Count14(u: set<nat>)
    requires u == {4, 12, 20, 24, 25, 26, 27, 29, 30, 31, 36, 44, 52, 60}
    ensures |u| == 14
  {
    var a, b := {4, 12, 20, 24, 25, 26, 27}, {29, 30, 31, 36, 44, 52, 60};
    assert |a| == 7 && |b| == 7;
    assert u == a + b && a * b == {};
  }

  lemma Count13(u: set<nat>)
    requires u == {1, 7, 10, 14, 19, 21, 35, 37, 42, 46, 49, 55, 56}
    ensures |u| == 13
  {
    var a, b := {1, 7, 10, 14, 19, 21}, {35, 37, 42, 46, 49, 55, 56};
    assert |a| == 6 && |b| == 7;
    assert u == a + b && a * b == {};
  }

  lemma KnightCount(u: set<nat>)
    requires u == {11, 13, 18, 22, 34, 38, 43, 45}
    ensures |u| == 8
  {
    var a, b := {11, 13, 18, 22}, {34, 38, 43, 45};
    assert |a| == 4 && |b| == 4;
    assert u == a + b && a * b == {};
  }

  lemma KingCount(u: set<nat>)
    requires u == {19, 20, 21, 27, 29, 35, 36, 37}
    ensures |u| == 8
  {
    var a, b := {19, 20, 21, 27}, {29, 35, 36, 37};
    assert |a| == 4 && |b| == 4;
    assert u == a + b && a * b == {};
  }

  lemma CornerCount(u: set<nat>)
    requires u == {1, 8, 9}
    ensures |u| == 3
  {
  }
}
