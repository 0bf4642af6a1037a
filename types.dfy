/**
 * Squares, colours, pieces and moves (crates/chess_core/src/types.rs).
 *
 * Squares are numbered a1 = 0, b1 = 1, ..., h8 = 63: file = sq % 8,
 * rank = sq / 8. The rest of the rules kernel uses moves as records with
 * from/to squares, an optional promotion piece and two flags; the 16-bit
 * packed form of `Move` is modelled separately in module PackedMoves.
 */
module Types {
  import opened Wrappers

  datatype Color = White | Black
  {
    /** The opponent colour. */
    function Other(): (c: Color)
      ensures c != this
    {
      match this
      case White => Black
      case Black => White
    }

    /** Index of the colour in per-colour tables. */
    function Idx(): (i: nat)
      ensures i < 2
      ensures i == 0 <==> this == White
    {
      match this
      case White => 0
      case Black => 1
    }
  }

  datatype PieceKind = Pawn | Knight | Bishop | Rook | Queen | King
  {
    /** Index of the kind in per-kind tables. */
    function Idx(): (i: nat)
      ensures i < 6
    {
      match this
      case Pawn => 0
      case Knight => 1
      case Bishop => 2
      case Rook => 3
      case Queen => 4
      case King => 5
    }
  }

  /** All kinds in index order. */
  const ALL_KINDS: seq<PieceKind> := [Pawn, Knight, Bishop, Rook, Queen, King]

  /** The index of a kind is its position in ALL_KINDS. */
  lemma KindsInOrder(k: PieceKind)
    ensures ALL_KINDS[k.Idx()] == k
  {
  }

  datatype Piece = Piece(color: Color, kind: PieceKind)

  /** A move of the rules kernel. */
  datatype Move = Move(from: nat, to: nat, promo: Option<PieceKind>, isEnPassant: bool, isCastle: bool)

  /** A move with no promotion and no flags. */
  function Quiet(from: nat, to: nat): Move
  {
    Move(from, to, None, false, false)
  }

  /** The file (0..7) of a square. */
  function FileOf(sq: nat): int
  {
    sq % 8
  }

  /** The rank (0..7 on the board) of a square. */
  function RankOf(sq: nat): int
  {
    sq / 8
  }

  /** A square splits into its file, below 8, and its rank, below 8 on the board: `sq == rank * 8 + file`. */
  lemma FileRankSplit(sq: nat)
    ensures 0 <= FileOf(sq) < 8 && 0 <= RankOf(sq)
    ensures RankOf(sq) * 8 + FileOf(sq) == sq
    ensures sq < 64 <==> RankOf(sq) < 8
  {
  }

  /** The square with the given file and rank, if both lie on the board. */
  function Sq(file: int, rank: int): (r: Option<nat>)
    ensures r.Some? <==> 0 <= file < 8 && 0 <= rank < 8
    ensures r.Some? ==> r.value < 64 && FileOf(r.value) == file && RankOf(r.value) == rank
  {
    if 0 <= file < 8 && 0 <= rank < 8 then Some(rank * 8 + file) else None
  }

  /** Square arithmetic on unsigned coordinates (no bounds check). */
  function SqFromCoords(file: nat, rank: nat): (s: nat)
    ensures file < 8 ==> FileOf(s) == file && RankOf(s) == rank
  {
    rank * 8 + file
  }

  /** The algebraic name of a square, such as "e4". */
  function SqToCoord(sq: nat): (c: string)
    requires sq < 256
    ensures |c| == 2
    ensures sq < 64 ==> 'a' <= c[0] <= 'h' && '1' <= c[1] <= '8'
  {
    [('a' as int + sq % 8) as char, ('1' as int + sq / 8) as char]
  }

  /** The square named by a two-character coordinate, if it is one. */
  function CoordToSq(c: string): (r: Option<nat>)
    ensures r.Some? <==> |c| == 2 && 'a' <= c[0] <= 'h' && '1' <= c[1] <= '8'
    ensures r.Some? ==> r.value < 64
  {
    if |c| != 2 then None
    else if !('a' <= c[0] <= 'h') || !('1' <= c[1] <= '8') then None
    else Some((c[1] as int - '1' as int) * 8 + (c[0] as int - 'a' as int))
  }

  /** Every square and its name translate into each other. */
  lemma CoordRoundTrip(sq: nat)
    requires sq < 64
    ensures CoordToSq(SqToCoord(sq)) == Some(sq)
  {
  }

  lemma CoordToSqInverse(c: string)
    requires CoordToSq(c).Some?
    ensures SqToCoord(CoordToSq(c).value) == c
  {
    var s := CoordToSq(c).value;
    assert SqToCoord(s)[0] == c[0];
    assert SqToCoord(s)[1] == c[1];
  }

  /** A board square is determined by its file and rank. */
  lemma SqOfFileRank(sq: nat)
    requires sq < 64
    ensures Sq(FileOf(sq), RankOf(sq)) == Some(sq)
  {
    assert sq == 8 * (sq / 8) + sq % 8;
  }
}
