/**
 * Bitboards (crates/chess_core/src/bitboard.rs).
 *
 * A `Bitboard(u64)` is modelled by the set of squares whose bit is one,
 * bit 0 = a1 ... bit 63 = h8. The u64 operations become set operations:
 * `|` union, `&` intersection, `^` symmetric difference, `!` complement
 * within 0..63, `<< k` and `>> k` move every square index by k and drop
 * the squares that leave 0..63, `count_ones` is the cardinality,
 * `trailing_zeros` the least member and `63 - leading_zeros` the greatest.
 */
module Bitboards {
  import opened Wrappers
  import opened Types

  /** The squares of a 64-bit word whose bit is set. */
  type Bitboard = b: set<nat> | forall s :: s in b ==> s < 64 witness {}

  const EMPTY: Bitboard := {}
  const ALL: Bitboard := set s: nat | s < 64

  /** Squares of one file (0 = a ... 7 = h). */
  function FileMask(f: nat): Bitboard
  {
    set s: nat | s < 64 && s % 8 == f
  }

  /** Squares of one rank (0 = first rank ... 7 = eighth rank). */
  function RankMask(r: nat): Bitboard
  {
    set s: nat | s < 64 && s / 8 == r
  }

  const FILE_A: Bitboard := FileMask(0)
  const FILE_B: Bitboard := FileMask(1)
  const FILE_G: Bitboard := FileMask(6)
  const FILE_H: Bitboard := FileMask(7)
  const RANK_1: Bitboard := RankMask(0)
  const RANK_2: Bitboard := RankMask(1)
  const RANK_3: Bitboard := RankMask(2)
  const RANK_4: Bitboard := RankMask(3)
  const RANK_5: Bitboard := RankMask(4)
  const RANK_6: Bitboard := RankMask(5)
  const RANK_7: Bitboard := RankMask(6)
  const RANK_8: Bitboard := RankMask(7)

  /** `!b`: the complement within the 64 squares. */
  function Not(b: Bitboard): (r: Bitboard)
    ensures forall s: nat :: s < 64 ==> (s in r <==> s !in b)
  {
    set s: nat | s < 64 && s !in b
  }

  const NOT_FILE_A: Bitboard := Not(FILE_A)
  const NOT_FILE_H: Bitboard := Not(FILE_H)
  const NOT_FILE_AB: Bitboard := Not(FILE_A + FILE_B)
  const NOT_FILE_GH: Bitboard := Not(FILE_H + FILE_G)

  /** `b << k`: square t is set when t - k was; squares pushed past 63 are lost. */
  function Shl(b: Bitboard, k: nat): Bitboard
  {
    set s | s in b && s + k < 64 :: s + k
  }

  /** `b >> k`: square t is set when t + k was; squares pushed below 0 are lost. */
  function Shr(b: Bitboard, k: nat): Bitboard
  {
    set s | s in b && s >= k :: s - k
  }

  function FromSquare(sq: nat): (b: Bitboard)
    requires sq < 64
    ensures forall t :: t in b <==> t == sq
  {
    {sq}
  }

  function IsEmpty(b: Bitboard): bool
  {
    b == {}
  }

  function Contains(b: Bitboard, sq: nat): bool
    requires sq < 64
  {
    sq in b
  }

  /** `set(sq)`, as the updated value of the bitboard. */
  function SetSquare(b: Bitboard, sq: nat): (r: Bitboard)
    requires sq < 64
    ensures sq in r && forall t :: t != sq ==> (t in r <==> t in b)
  {
    b + {sq}
  }

  /** `clear(sq)`, as the updated value of the bitboard. */
  function ClearSquare(b: Bitboard, sq: nat): (r: Bitboard)
    requires sq < 64
    ensures sq !in r && forall t :: t != sq ==> (t in r <==> t in b)
  {
    b - {sq}
  }

  function Popcount(b: Bitboard): nat
  {
    |b|
  }

  /** The least set square at or above i, when there is one. */
  function LsbFrom(b: Bitboard, i: nat): (r: Option<nat>)
    requires i <= 64
    decreases 64 - i
    ensures r.None? <==> forall s :: s in b ==> s < i
    ensures r.Some? ==> i <= r.value && r.value in b && forall s :: s in b && i <= s ==> r.value <= s
  {
    if i == 64 then None
    else if i in b then Some(i)
    else LsbFrom(b, i + 1)
  }

  /** `lsb()`: Some(trailing_zeros) for a non-empty bitboard. */
  function Lsb(b: Bitboard): (r: Option<nat>)
    ensures r.None? <==> b == {}
    ensures r.Some? ==> r.value in b && forall s :: s in b ==> r.value <= s
  {
    LsbFrom(b, 0)
  }

  /** The greatest set square at or below i - 1, when there is one. */
  function MsbBelow(b: Bitboard, i: nat): (r: Option<nat>)
    requires i <= 64
    ensures r.None? <==> forall s :: s in b ==> s >= i
    ensures r.Some? ==> r.value < i && r.value in b && forall s :: s in b && s < i ==> s <= r.value
  {
    if i == 0 then None
    else if i - 1 in b then Some(i - 1)
    else MsbBelow(b, i - 1)
  }

  /** `63 - leading_zeros` for a non-empty bitboard. */
  function Msb(b: Bitboard): (r: Option<nat>)
    ensures r.None? <==> b == {}
    ensures r.Some? ==> r.value in b && forall s :: s in b ==> s <= r.value
  {
    MsbBelow(b, 64)
  }

  /** `pop_lsb()` on a bitboard variable: the square removed and the new value. */
  method PopLsb(b: Bitboard) returns (sq: Option<nat>, rest: Bitboard)
    ensures sq == Lsb(b)
    ensures sq.None? ==> rest == b
    ensures sq.Some? ==> rest == b - {sq.value} && |rest| == |b| - 1
  {
    sq := Lsb(b);
    if sq.None? {
      rest := b;
    } else {
      rest := b - {sq.value};
    }
  }

  /** `north()`: `<< 8`. */
  function North(b: Bitboard): Bitboard
  {
    Jump(b, 0, 1)
  }

  /** `south()`: `>> 8`. */
  function South(b: Bitboard): Bitboard
  {
    Jump(b, 0, -1)
  }

  /** `east()`: `<< 1` without the a-file. */
  function East(b: Bitboard): Bitboard
  {
    Jump(b, 1, 0)
  }

  /** `west()`: `>> 1` without the h-file. */
  function West(b: Bitboard): Bitboard
  {
    Jump(b, -1, 0)
  }

  /** `north_east()`: `<< 9` without the a-file. */
  function NorthEast(b: Bitboard): Bitboard
  {
    Jump(b, 1, 1)
  }

  /** `north_west()`: `<< 7` without the h-file. */
  function NorthWest(b: Bitboard): Bitboard
  {
    Jump(b, -1, 1)
  }

  /** `south_east()`: `>> 7` without the a-file. */
  function SouthEast(b: Bitboard): Bitboard
  {
    Jump(b, 1, -1)
  }

  /** `south_west()`: `>> 9` without the h-file. */
  function SouthWest(b: Bitboard): Bitboard
  {
    Jump(b, -1, -1)
  }

  /**
   * The square one step from sq in direction (df, dr), if it is on the
   * board.
   */
  function Step(sq: nat, df: int, dr: int): Option<nat>
  {
    Sq(FileOf(sq) + df, RankOf(sq) + dr)
  }

  /**
   * A shift with its edge mask moves every square one step in its
   * direction and drops the squares that would leave the board (or wrap
   * to the other edge).
   */
  ghost predicate ShiftsBy(r: Bitboard, b: Bitboard, df: int, dr: int)
  {
    forall t: nat :: t in r <==> exists s :: s in b && Step(s, df, dr) == Some(t)
  }

  /** The edge mask applied to a shift whose file step is df (none for a pure rank step). */
  function EdgeMask(df: int): Bitboard
  {
    if df == 1 then NOT_FILE_A
    else if df == 2 then NOT_FILE_AB
    else if df == -1 then NOT_FILE_H
    else if df == -2 then NOT_FILE_GH
    else ALL
  }

  /**
   * The shift by the index delta k = 8 dr + df (`<< k`, or `>> -k` when k is
   * negative), masked as the source masks it for the file step df.
   */
  function Jump(b: Bitboard, df: int, dr: int): Bitboard
  {
    var k := 8 * dr + df;
    var moved := if k >= 0 then Shl(b, k) else Shr(b, -k);
    if df == 0 then moved else moved * EdgeMask(df)
  }

  lemma ShiftMember(b: Bitboard, k: int, t: nat)
    ensures t in (if k >= 0 then Shl(b, k) else Shr(b, -k)) <==> t < 64 && 0 <= t - k && t - k in b
  {
    if t < 64 && 0 <= t - k && t - k in b {
      var s: nat := t - k;
      assert s in b;
    }
  }

  lemma MaskMember(df: int, t: nat)
    requires -2 <= df <= 2 && t < 64
    ensures t in EdgeMask(df) <==> 0 <= t % 8 - df < 8
  {
  }

  /** A step of at most two files and two ranks, in index arithmetic. */
  lemma StepArith(s: nat, df: int, dr: int, t: nat)
    requires s < 64 && -2 <= df <= 2 && -2 <= dr <= 2
    ensures Step(s, df, dr) == Some(t) <==> t < 64 && t == s + 8 * dr + df && 0 <= t % 8 - df < 8
  {
    assert s == 8 * (s / 8) + s % 8;
    assert t == 8 * (t / 8) + t % 8;
  }

  lemma JumpMember(b: Bitboard, df: int, dr: int, t: nat)
    requires -2 <= df <= 2 && -2 <= dr <= 2
    ensures t in Jump(b, df, dr) <==> t < 64 && 0 <= t - (8 * dr + df) && t - (8 * dr + df) in b && 0 <= t % 8 - df < 8
  {
    ShiftMember(b, 8 * dr + df, t);
    if t < 64 {
      MaskMember(df, t);
    }
  }

  lemma ShiftBy(b: Bitboard, df: int, dr: int)
    requires -2 <= df <= 2 && -2 <= dr <= 2
    ensures ShiftsBy(Jump(b, df, dr), b, df, dr)
  {
    forall t: nat
      ensures t in Jump(b, df, dr) <==> exists s :: s in b && Step(s, df, dr) == Some(t)
    {
      if t in Jump(b, df, dr) {
        JumpSource(b, df, dr, t);
      }
      if exists s :: s in b && Step(s, df, dr) == Some(t) {
        var s :| s in b && Step(s, df, dr) == Some(t);
        JumpTarget(b, df, dr, s, t);
      }
    }
  }

  /** Every square of a masked shift came one step from a square of b. */
  lemma JumpSource(b: Bitboard, df: int, dr: int, t: nat)
    requires -2 <= df <= 2 && -2 <= dr <= 2 && t in Jump(b, df, dr)
    ensures exists s :: s in b && Step(s, df, dr) == Some(t)
  {
    JumpMember(b, df, dr, t);
    var s: nat := t - (8 * dr + df);
    StepArith(s, df, dr, t);
    assert s in b && Step(s, df, dr) == Some(t);
  }

  /** A square of b whose step lands on the board lands in the masked shift. */
  lemma JumpTarget(b: Bitboard, df: int, dr: int, s: nat, t: nat)
    requires -2 <= df <= 2 && -2 <= dr <= 2 && s in b && Step(s, df, dr) == Some(t)
    ensures t in Jump(b, df, dr)
  {
    StepArith(s, df, dr, t);
    JumpMember(b, df, dr, t);
  }

  /** A single square's masked shift holds the square one step away, if there is one. */
  lemma JumpSquare(sq: nat, df: int, dr: int, t: nat)
    requires sq < 64 && -2 <= df <= 2 && -2 <= dr <= 2
    ensures t in Jump({sq}, df, dr) <==> Step(sq, df, dr) == Some(t)
  {
    JumpMember({sq}, df, dr, t);
    StepArith(sq, df, dr, t);
  }

  /** The squares of b in the order repeated pop_lsb yields them. */
  function Ascending(b: Bitboard): seq<nat>
    decreases |b|
  {
    if b == {} then [] else [Lsb(b).value] + Ascending(b - {Lsb(b).value})
  }

  /** The listing starts with the lowest square and goes on with the listing of the others. */
  lemma AscendingStep(b: Bitboard)
    requires b != {}
    ensures |Ascending(b)| > 0 && Ascending(b)[0] == Lsb(b).value
    ensures Ascending(b)[1..] == Ascending(b - {Lsb(b).value})
  {
    var x := Lsb(b).value;
    assert ([x] + Ascending(b - {x}))[1..] == Ascending(b - {x});
  }

  predicate StrictlyIncreasing(s: seq<nat>)
  {
    forall i, j :: 0 <= i < j < |s| ==> s[i] < s[j]
  }

  /** Iteration yields each square of the bitboard once, in increasing order. */
  lemma AscendingEnumerates(b: Bitboard)
    ensures StrictlyIncreasing(Ascending(b))
    ensures forall s :: s in Ascending(b) <==> s in b
    ensures |Ascending(b)| == Popcount(b)
  {
    AscendingMembers(b);
    AscendingSorted(b);
  }

  lemma {:induction false} AscendingMembers(b: Bitboard)
    ensures forall s :: s in Ascending(b) <==> s in b
    ensures |Ascending(b)| == |b|
    decreases |b|
  {
    if b != {} {
      var m := Lsb(b).value;
      AscendingMembers(b - {m});
    }
  }

  lemma {:induction false} AscendingSorted(b: Bitboard)
    ensures StrictlyIncreasing(Ascending(b))
    decreases |b|
  {
    if b != {} {
      var m := Lsb(b).value;
      var rest := b - {m};
      var tail := Ascending(rest);
      assert Ascending(b) == [m] + tail;
      AscendingSorted(rest);
      LsbBelowRest(b, m);
      AscendingMembers(rest);
      ConsIncreasing(m, tail);
    }
  }

  lemma LsbBelowRest(b: Bitboard, m: nat)
    requires b != {} && m == Lsb(b).value
    ensures forall x :: x in b - {m} ==> m < x
  {
  }

  lemma ConsIncreasing(m: nat, tail: seq<nat>)
    requires StrictlyIncreasing(tail)
    requires forall x :: x in tail ==> m < x
    ensures StrictlyIncreasing([m] + tail)
  {
    var s := [m] + tail;
    forall i, j | 0 <= i < j < |s|
      ensures s[i] < s[j]
    {
      assert s[j] == tail[j - 1];
      if i > 0 {
        assert s[i] == tail[i - 1];
      } else {
        assert tail[j - 1] in tail;
      }
    }
  }

  /** `bb.collect()`: drain the bitboard with `next` (= pop_lsb). */
  method Collect(bb: Bitboard) returns (squares: seq<nat>)
    ensures squares == Ascending(bb)
  {
    var b := bb;
    squares := [];
    while true
      invariant squares + Ascending(b) == Ascending(bb)
      decreases |b|
    {
      var sq: Option<nat>;
      sq, b := PopLsb(b);
      if sq.None? {
        break;
      }
      squares := squares + [sq.value];
    }
  }

  /** The squares lo..hi-1. */
  function Range(lo: nat, hi: nat): Bitboard
  {
    set s | s in ALL && lo <= s < hi
  }

  lemma {:induction false} RangeCard(lo: nat, hi: nat)
    requires lo <= hi <= 64
    ensures |Range(lo, hi)| == hi - lo
    decreases hi - lo
  {
    if lo < hi {
      RangeCard(lo + 1, hi);
      assert Range(lo, hi) == {lo} + Range(lo + 1, hi);
    } else {
      assert Range(lo, hi) == {};
    }
  }

  /** Test anchors of bitboard.rs. */
  lemma PopcountAnchors()
    ensures Popcount(EMPTY) == 0 && Popcount(FromSquare(0)) == 1
    ensures Popcount(FILE_A) == 8 && Popcount(RANK_1) == 8 && Popcount(ALL) == 64
  {
    assert FILE_A == {0, 8, 16, 24, 32, 40, 48, 56};
    RangeCard(0, 8);
    assert RANK_1 == Range(0, 8);
    RangeCard(0, 64);
    assert ALL == Range(0, 64);
  }

  lemma IteratorAnchor()
    ensures Ascending({1, 3}) == [1, 3]
  {
    assert Lsb({1, 3}) == Some(1);
    assert {1, 3} - {1} == {3};
    assert Lsb({3}) == Some(3);
    assert {3} - {3} == {};
  }

  lemma ShiftAnchors()
    ensures North(FromSquare(0)) == FromSquare(8)
    ensures East(FromSquare(0)) == FromSquare(1) && West(FromSquare(0)) == EMPTY
    ensures East(FromSquare(7)) == EMPTY && West(FromSquare(7)) == FromSquare(6)
  {
    assert 1 in NOT_FILE_A && 6 in NOT_FILE_H;
  }
}
