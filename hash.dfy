/**
 * The FNV-style position hash of `Position::position_hash`
 * (crates/chess_core/src/board.rs) and `position_key`
 * (crates/chess_core/src/search.rs): starting from the 64-bit FNV offset
 * basis, each code is XOR-ed in and the state multiplied, modulo 2^64, by
 * the FNV prime. `bv64` arithmetic wraps exactly like `wrapping_mul`.
 */
module Hashing {
  import opened Wrappers
  import opened Types
  import opened Positions

  const FNV_OFFSET: bv64 := 0xcbf29ce484222325
  const FNV_PRIME: bv64 := 0x100000001b3

  /** `mix(h, x)`: XOR in x, then multiply by the prime with wrap-around. */
  function Mix(h: bv64, x: bv64): bv64
  {
    (h ^ x) * FNV_PRIME
  }

  /** The code of a mailbox entry: its index, with the colour index at bit 6 and the kind at bit 3 XOR-ed in. */
  function SquareCode(i: nat, entry: Option<Piece>): bv64
    requires i < 64
  {
    match entry
    case None => i as bv64
    case Some(pc) => (i as bv64) ^ ((pc.color.Idx() as bv64) << 6) ^ ((pc.kind.Idx() as bv64) << 3)
  }

  /** `29 + ep as u64`: the en-passant square as a u8 widened to u64. */
  function EpCode(ep: nat): bv64
  {
    ((29 + ep % 256) as bv64)
  }

  /** The codes of side to move, the four castling rights and (when set) the en-passant square, in mixing order. */
  function HeaderCodes(side: Color, cr: CastlingRights, ep: Option<nat>): (codes: seq<bv64>)
    ensures |codes| == if ep.Some? then 6 else 5
  {
    [if side == White then 1 else 2,
     if cr.wk then 3 else 5,
     if cr.wq then 7 else 11,
     if cr.bk then 13 else 17,
     if cr.bq then 19 else 23]
    + (if ep.Some? then [EpCode(ep.value)] else [])
  }

  /** The state after mixing the first n codes into h. */
  function Fold(h: bv64, codes: seq<bv64>, n: nat): bv64
    requires n <= |codes|
  {
    if n == 0 then h else Mix(Fold(h, codes, n - 1), codes[n - 1])
  }

  /** The hash after the header codes. */
  function HeaderHash(side: Color, cr: CastlingRights, ep: Option<nat>): bv64
  {
    var codes := HeaderCodes(side, cr, ep);
    Fold(FNV_OFFSET, codes, |codes|)
  }

  /** The hash after mixing in the first n squares of the mailbox, in index order. */
  function BoardHash(h: bv64, board: Mailbox, n: nat): bv64
    requires n <= 64
  {
    if n == 0 then h else Mix(BoardHash(h, board, n - 1), SquareCode(n - 1, board[n - 1]))
  }

  /** The hash of a position: header first, then all 64 squares. */
  function PositionHash(s: PosState): bv64
  {
    BoardHash(HeaderHash(s.side, s.castling, s.enPassant), s.board, 64)
  }

  /** The hash leaves out both clocks, so positions differing only in them hash alike. */
  lemma HashIgnoresClocks(s: PosState, halfmove: nat, fullmove: nat)
    ensures PositionHash(s.(halfmove := halfmove, fullmove := fullmove)) == PositionHash(s)
  {
  }

  /** Two positions with the same mailbox, side, rights and en-passant square hash alike. */
  lemma HashDependsOnIdentity(s: PosState, t: PosState)
    requires s.board == t.board && s.side == t.side && s.castling == t.castling && s.enPassant == t.enPassant
    ensures PositionHash(s) == PositionHash(t)
  {
  }

  /**
   * As written, a white pawn contributes the code of an empty square: its
   * colour index and its kind index are both 0.
   */
  lemma WhitePawnInvisible(i: nat)
    requires i < 64
    ensures SquareCode(i, Some(Piece(White, Pawn))) == SquareCode(i, None)
  {
  }

  /** Two mailbox entries the hash cannot tell apart: equal, or each empty or a white pawn. */
  predicate HashAlike(x: Option<Piece>, y: Option<Piece>)
  {
    x == y || ((x == None || x == Some(Piece(White, Pawn))) && (y == None || y == Some(Piece(White, Pawn))))
  }

  /** Mailboxes that differ only in white pawns and empty squares fold to the same state. */
  lemma {:induction false} BoardHashAlike(h: bv64, a: Mailbox, b: Mailbox, n: nat)
    requires n <= 64 && forall i :: 0 <= i < n ==> HashAlike(a[i], b[i])
    ensures BoardHash(h, a, n) == BoardHash(h, b, n)
  {
    if n > 0 {
      BoardHashAlike(h, a, b, n - 1);
      assert HashAlike(a[n - 1], b[n - 1]);
      if a[n - 1] != b[n - 1] {
        WhitePawnInvisible(n - 1);
      }
    }
  }

  /**
   * As written, positions that differ only by white pawns (a white pawn
   * where the other has an empty square) hash alike, so the repetition
   * test keyed on this hash can see a repetition that is not one.
   */
  lemma WhitePawnsHashAlike(s: PosState, t: PosState)
    requires s.side == t.side && s.castling == t.castling && s.enPassant == t.enPassant
    requires forall i :: 0 <= i < 64 ==> HashAlike(s.board[i], t.board[i])
    ensures PositionHash(s) == PositionHash(t)
  {
    BoardHashAlike(HeaderHash(s.side, s.castling, s.enPassant), s.board, t.board, 64);
  }

  /**
   * A corrected piece tag: the colour at bit 6 and the kind index plus one
   * at bits 3-5, so that every piece tag differs from the empty square's 0.
   */
  function CorrectedTag(entry: Option<Piece>): bv64
  {
    match entry
    case None => 0
    case Some(pc) => ColorBits(pc.color) | KindBits(pc.kind)
  }

  /** `color.idx() << 6`. */
  function ColorBits(c: Color): bv64
  {
    if c == White then 0 else 0x40
  }

  /** `(kind as u64 + 1) << 3`. */
  function KindBits(k: PieceKind): bv64
  {
    match k
    case Pawn => 0x08
    case Knight => 0x10
    case Bishop => 0x18
    case Rook => 0x20
    case Queen => 0x28
    case King => 0x30
  }

  /** The corrected code of a mailbox entry: its index (as the `u64` it is widened to) with the corrected tag XOR-ed in. */
  function CorrectedSquareCode(i: bv64, entry: Option<Piece>): bv64
    requires i < 64
  {
    i ^ CorrectedTag(entry)
  }

  /** Reading an entry back from a corrected tag. */
  function TagEntry(tag: bv64): Option<Piece>
  {
    var color := if tag & 0x40 == 0 then White else Black;
    var k := tag & 0x38;
    if k == 0x08 then Some(Piece(color, Pawn))
    else if k == 0x10 then Some(Piece(color, Knight))
    else if k == 0x18 then Some(Piece(color, Bishop))
    else if k == 0x20 then Some(Piece(color, Rook))
    else if k == 0x28 then Some(Piece(color, Queen))
    else if k == 0x30 then Some(Piece(color, King))
    else None
  }

  /** The colour bit and the kind bits of a tag can be read apart. */
  lemma TagFields(c: Color, k: PieceKind)
    ensures (ColorBits(c) | KindBits(k)) & 0x40 == ColorBits(c)
    ensures (ColorBits(c) | KindBits(k)) & 0x38 == KindBits(k)
  {
  }

  lemma TagRoundTrip(entry: Option<Piece>)
    ensures TagEntry(CorrectedTag(entry)) == entry
  {
    if entry.Some? {
      TagFields(entry.value.color, entry.value.kind);
    }
  }

  lemma XorCancel(x: bv64, a: bv64, b: bv64)
    requires x ^ a == x ^ b
    ensures a == b
  {
    assert a == x ^ (x ^ a) && b == x ^ (x ^ b);
  }

  /** With the corrected tag, the codes of one square tell every pair of different entries apart. */
  lemma CorrectedCodeInjective(i: bv64, x: Option<Piece>, y: Option<Piece>)
    requires i < 64 && CorrectedSquareCode(i, x) == CorrectedSquareCode(i, y)
    ensures x == y
  {
    XorCancel(i, CorrectedTag(x), CorrectedTag(y));
    TagRoundTrip(x);
    TagRoundTrip(y);
  }
}
