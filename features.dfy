/**
 * The network input of crates/ml_engine/src/features.rs: twelve planes of
 * 64 squares, one per kind and colour, holding 1.0 where that piece
 * stands. The relative encoding sees the board from the side to move:
 * friendly pieces in planes 0-5, enemy pieces in planes 6-11, and with
 * Black to move every square mirrored to 63 - sq. The extended encoding
 * appends castling rights, the en-passant square and the halfmove clock.
 * Entries are reals; the single-precision rounding of the two scaled
 * entries is not modelled.
 */
module Features {
  import opened Wrappers
  import opened Types
  import opened Positions

  /** `NUM_PLANES`: six kinds times two colours. */
  const NUM_PLANES: nat := 12

  /** `NUM_FEATURES`: 64 squares per plane. */
  const NUM_FEATURES: nat := 64 * NUM_PLANES

  /** The square an entry looks at: its square within the plane, mirrored when Black sees the board. */
  function SourceSquare(i: nat, us: Color): (sq: nat)
    ensures sq < 64
  {
    if us == Black then 63 - i % 64 else i % 64
  }

  /** The piece an entry stands for: planes 0-5 are us, 6-11 the opponent, kinds in index order. */
  function PieceOfEntry(i: nat, us: Color): Piece
    requires i < NUM_FEATURES
  {
    var plane := i / 64;
    Piece(if plane < 6 then us else us.Other(), ALL_KINDS[plane % 6])
  }

  /**
   * The encoding seen from `us`, entry by entry: 1.0 exactly where the
   * board holds the entry's piece on the entry's square. The absolute
   * encoding is the one seen from White.
   */
  function Encoded(board: Mailbox, us: Color): (f: seq<real>)
    ensures |f| == NUM_FEATURES
    ensures forall i :: 0 <= i < NUM_FEATURES ==> f[i] == 0.0 || f[i] == 1.0
  {
    seq(NUM_FEATURES, i requires 0 <= i < NUM_FEATURES =>
      if board[SourceSquare(i, us)] == Some(PieceOfEntry(i, us)) then 1.0 else 0.0)
  }

  /** Where the loops write a piece on sq: `(kind + offset) * 64 + target`, offset 0 for our pieces and 6 for theirs. */
  function Index(p: Piece, sq: nat, us: Color): nat
    requires sq < 64
  {
    (p.kind.Idx() + (if p.color == us then 0 else 6)) * 64 + (if us == Black then 63 - sq else sq)
  }

  /** Index and the decoding of an entry are inverse: an entry is written for sq and p exactly when it decodes to them. */
  lemma IndexDecodes(p: Piece, sq: nat, us: Color, i: nat)
    requires sq < 64 && i < NUM_FEATURES
    ensures Index(p, sq, us) < NUM_FEATURES
    ensures i == Index(p, sq, us) <==> SourceSquare(i, us) == sq && PieceOfEntry(i, us) == p
  {
    var plane := p.kind.Idx() + (if p.color == us then 0 else 6);
    var target := if us == Black then 63 - sq else sq;
    assert Index(p, sq, us) == plane * 64 + target;
    assert (plane * 64 + target) / 64 == plane && (plane * 64 + target) % 64 == target;
    KindsInOrder(p.kind);
    if SourceSquare(i, us) == sq && PieceOfEntry(i, us) == p {
      var ip := i / 64;
      assert i == ip * 64 + i % 64;
      assert i % 64 == target;
      assert ALL_KINDS[ip % 6] == p.kind;
      assert ip % 6 == p.kind.Idx();
      assert ip == plane;
    }
  }

  /** The entry a piece on sq is written to is 1.0 exactly when the piece is there. */
  lemma EntryOfPiece(board: Mailbox, us: Color, p: Piece, sq: nat)
    requires sq < 64
    ensures Index(p, sq, us) < NUM_FEATURES
    ensures Encoded(board, us)[Index(p, sq, us)] == 1.0 <==> board[sq] == Some(p)
  {
    var i := Index(p, sq, us);
    IndexDecodes(p, sq, us, 0);
    IndexDecodes(p, sq, us, i);
  }

  /** `extract_features` and `extract_features_relative` part way: only the squares below n are written. */
  function Partial(board: Mailbox, us: Color, n: nat, i: nat): real
    requires i < NUM_FEATURES
  {
    if SourceSquare(i, us) < n && board[SourceSquare(i, us)] == Some(PieceOfEntry(i, us)) then 1.0 else 0.0
  }

  /**
   * The loop of both encoders: a zeroed vector of 768 entries, and for
   * each occupied square a 1.0 at the piece's plane and target square.
   */
  method FillPlanes(board: Mailbox, us: Color) returns (features: seq<real>)
    ensures features == Encoded(board, us)
  {
    var a := new real[NUM_FEATURES](_ => 0.0);
    var flip := us == Black;
    for sq := 0 to 64
      invariant forall i :: 0 <= i < NUM_FEATURES ==> a[i] == Partial(board, us, sq, i)
    {
      match board[sq]
      case None =>
      case Some(piece) =>
        var targetSq := if flip then 63 - sq else sq;
        var pieceIdx := piece.kind.Idx();
        var colorOffset := if piece.color == us then 0 else 6;
        var plane := pieceIdx + colorOffset;
        var idx := plane * 64 + targetSq;
        assert idx == Index(piece, sq, us);
        IndexDecodes(piece, sq, us, 0);
        ghost var before := a[..];
        a[idx] := 1.0;
        forall i | 0 <= i < NUM_FEATURES
          ensures a[i] == Partial(board, us, sq + 1, i)
        {
          IndexDecodes(piece, sq, us, i);
          if i != idx {
            assert a[i] == before[i];
          }
        }
    }
    features := a[..];
  }

  /** `extract_features`: the absolute encoding, White pieces in planes 0-5 whoever is to move. */
  method ExtractFeatures(s: PosState) returns (features: seq<real>)
    ensures features == Encoded(s.board, White)
  {
    features := FillPlanes(s.board, White);
  }

  /** `extract_features_relative`: the encoding seen from the side to move. */
  method ExtractFeaturesRelative(s: PosState) returns (features: seq<real>)
    ensures features == Encoded(s.board, s.side)
  {
    features := FillPlanes(s.board, s.side);
  }

  /** With White to move the relative encoding is the absolute one. */
  lemma RelativeForWhite(s: PosState)
    requires s.side == White
    ensures Encoded(s.board, s.side) == Encoded(s.board, White)
  {
  }

  /** With Black to move a piece on sq is found at its kind, offset for its colour, on the mirrored square. */
  lemma RelativeForBlack(board: Mailbox, p: Piece, sq: nat)
    requires sq < 64
    ensures (p.kind.Idx() + (if p.color == Black then 0 else 6)) * 64 + (63 - sq) < NUM_FEATURES
    ensures Encoded(board, Black)[(p.kind.Idx() + (if p.color == Black then 0 else 6)) * 64 + (63 - sq)] == 1.0
      <==> board[sq] == Some(p)
  {
    EntryOfPiece(board, Black, p, sq);
  }

  /** The same piece with the other colour. */
  function Recolored(o: Option<Piece>): Option<Piece>
  {
    match o
    case None => None
    case Some(p) => Some(Piece(p.color.Other(), p.kind))
  }

  /** The board turned around: the piece of 63 - sq, with its colour swapped, on every square sq. */
  function Mirror(board: Mailbox): (m: Mailbox)
    ensures forall sq :: 0 <= sq < 64 ==> m[sq] == Recolored(board[63 - sq])
  {
    seq(64, sq requires 0 <= sq < 64 => Recolored(board[63 - sq]))
  }

  /** Turning the board and the move around leaves the relative encoding unchanged. */
  lemma MirrorInvariant(board: Mailbox, us: Color)
    ensures Encoded(Mirror(board), us.Other()) == Encoded(board, us)
  {
    var m := Mirror(board);
    forall i | 0 <= i < NUM_FEATURES
      ensures Encoded(m, us.Other())[i] == Encoded(board, us)[i]
    {
      var t := SourceSquare(i, us.Other());
      assert 63 - t == SourceSquare(i, us);
      var p := PieceOfEntry(i, us);
      assert PieceOfEntry(i, us.Other()) == Piece(p.color.Other(), p.kind);
      assert m[t] == Recolored(board[SourceSquare(i, us)]);
      assert Recolored(board[SourceSquare(i, us)]) == Some(Piece(p.color.Other(), p.kind))
        <==> board[SourceSquare(i, us)] == Some(p);
    }
  }

  /** The squares that hold a piece. */
  function Occupied(board: Mailbox): set<nat>
  {
    set sq: nat | sq < 64 && board[sq].Some?
  }

  /** The entries that are not zero. */
  function NonZero(f: seq<real>): set<nat>
  {
    set i: nat | i < |f| && f[i] != 0.0
  }

  /** The entry each occupied square lands on. */
  function EntryOf(board: Mailbox, us: Color, sq: nat): nat
    requires sq < 64 && board[sq].Some?
  {
    Index(board[sq].value, sq, us)
  }

  /** One non-zero entry per piece: the count of non-zero entries is the count of pieces. */
  lemma NonZeroIsPieceCount(board: Mailbox, us: Color)
    ensures |NonZero(Encoded(board, us))| == |Occupied(board)|
  {
    var f := Encoded(board, us);
    var occ := Occupied(board);
    var image := set sq | sq in occ :: EntryOf(board, us, sq);
    forall i | i in NonZero(f)
      ensures i in image
    {
      var sq := SourceSquare(i, us);
      IndexDecodes(board[sq].value, sq, us, i);
      assert sq in occ && EntryOf(board, us, sq) == i;
    }
    forall i | i in image
      ensures i in NonZero(f)
    {
      var sq :| sq in occ && i == EntryOf(board, us, sq);
      EntryOfPiece(board, us, board[sq].value, sq);
    }
    assert NonZero(f) == image;
    forall a, b | a in occ && b in occ && EntryOf(board, us, a) == EntryOf(board, us, b)
      ensures a == b
    {
      var i := EntryOf(board, us, a);
      IndexDecodes(board[a].value, a, us, 0);
      IndexDecodes(board[a].value, a, us, i);
      IndexDecodes(board[b].value, b, us, i);
    }
    ImageSize(board, us, occ);
  }

  /** Occupied squares map to distinct entries, so the image is as large as the set. */
  lemma {:induction false} ImageSize(board: Mailbox, us: Color, squares: set<nat>)
    requires forall sq :: sq in squares ==> sq < 64 && board[sq].Some?
    requires forall a, b :: a in squares && b in squares && EntryOf(board, us, a) == EntryOf(board, us, b) ==> a == b
    ensures |set sq | sq in squares :: EntryOf(board, us, sq)| == |squares|
    decreases |squares|
  {
    if squares != {} {
      var x :| x in squares;
      var rest := squares - {x};
      ImageSize(board, us, rest);
      var image := set sq | sq in squares :: EntryOf(board, us, sq);
      var restImage := set sq | sq in rest :: EntryOf(board, us, sq);
      assert image == restImage + {EntryOf(board, us, x)};
      assert EntryOf(board, us, x) !in restImage;
    }
  }

  predicate Between(a: nat, sq: nat, b: nat)
  {
    a <= sq < b
  }

  /** The squares a <= sq < b. */
  function Range(a: nat, b: nat): set<nat>
  {
    set sq: nat | sq < 64 && Between(a, sq, b)
  }

  lemma {:induction false} RangeSize(a: nat, b: nat)
    requires a <= b <= 64
    ensures |Range(a, b)| == b - a
    decreases b - a
  {
    if a < b {
      RangeSize(a + 1, b);
      assert Range(a, b) == Range(a + 1, b) + {a};
    }
  }

  /** The initial position has 32 pieces, so 32 entries are non-zero, from either side. */
  lemma StartNonZero(us: Color)
    ensures |NonZero(Encoded(StartState().board, us))| == 32
  {
    var board := StartState().board;
    assert Occupied(board) == Range(0, 16) + Range(48, 64);
    RangeSize(0, 16);
    RangeSize(48, 64);
    NonZeroIsPieceCount(board, us);
  }

  /** In the initial position, friendly pawns fill plane 0 on the second rank. */
  lemma StartFriendlyPawns(sq: nat)
    requires 8 <= sq < 16
    ensures Encoded(StartState().board, White)[sq] == 1.0
  {
  }

  /** 1.0 for a right held, 0.0 otherwise. */
  function Flag(b: bool): real
  {
    if b then 1.0 else 0.0
  }

  /**
   * The six entries `extract_features_extended` appends: the four castling
   * rights, the en-passant square over 63 or -1.0 without one, and the
   * halfmove clock over 100 capped at 1.0.
   */
  function Extras(s: PosState): (e: seq<real>)
    ensures |e| == 6
  {
    [Flag(s.castling.wk), Flag(s.castling.wq), Flag(s.castling.bk), Flag(s.castling.bq),
     match s.enPassant case None => -1.0 case Some(ep) => ep as real / 63.0,
     var h := s.halfmove as real / 100.0; if h < 1.0 then h else 1.0]
  }

  /** The appended entries lie in [0, 1], except the en-passant entry, which is -1.0 exactly without a square. */
  lemma ExtrasRange(s: PosState)
    requires s.enPassant.Some? ==> s.enPassant.value < 64
    ensures forall k :: 0 <= k < 6 && k != 4 ==> 0.0 <= Extras(s)[k] <= 1.0
    ensures Extras(s)[4] == -1.0 <==> s.enPassant.None?
    ensures s.enPassant.Some? ==> 0.0 <= Extras(s)[4] <= 1.0
  {
  }

  /** `extract_features_extended`: the relative encoding, then the six extra entries in order. */
  method ExtractFeaturesExtended(s: PosState) returns (features: seq<real>)
    ensures |features| == NUM_FEATURES + 6
    ensures features[..NUM_FEATURES] == Encoded(s.board, s.side)
    ensures features[NUM_FEATURES..] == Extras(s)
  {
    features := ExtractFeaturesRelative(s);
    var ep := match s.enPassant case None => -1.0 case Some(e) => e as real / 63.0;
    var h := s.halfmove as real / 100.0;
    var extras := [if s.castling.wk then 1.0 else 0.0, if s.castling.wq then 1.0 else 0.0,
                   if s.castling.bk then 1.0 else 0.0, if s.castling.bq then 1.0 else 0.0,
                   ep, if h < 1.0 then h else 1.0];
    features := features + extras;
  }

  /** In the initial position all four rights are held, there is no en-passant square and the clock is 0. */
  lemma StartExtras()
    ensures Extras(StartState()) == [1.0, 1.0, 1.0, 1.0, -1.0, 0.0]
  {
  }
}
